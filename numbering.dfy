/**
 * How the two counters number what a command file adds: a counter moves only
 * when an add of its kind succeeds, and then by one, and the k-th "added"
 * message of a kind that a file writes carries the k-th id of that kind.
 */
module Numbering {
  import opened Wrappers
  import opened Text
  import opened PropertyModels
  import opened Output
  import opened Registry
  import opened Interpreter
  import opened InterpreterLemmas

  /** The two counters the services keep. */
  datatype Counter = OwnerIds | PropertyIds

  /** The value the counter has in a state: the id the next successful add hands out. */
  function NextId(s: State, c: Counter): int
  {
    match c
    case OwnerIds => s.nextOwnerId
    case PropertyIds => s.nextPropertyId
  }

  /** The message that reports an id of the counter's kind handed out. */
  predicate Announces(m: Message, c: Counter)
  {
    match c
    case OwnerIds => m.OwnerAdded?
    case PropertyIds => m.PropertyAdded?
  }

  /** The command whose success hands out an id of the counter's kind. */
  function AddCommand(c: Counter): string
  {
    match c
    case OwnerIds => "add_owner"
    case PropertyIds => "add_prop"
  }

  /** The ids announced in `out`, in the order they were written. */
  function Announced(out: seq<Message>, c: Counter): seq<int>
    decreases |out|
  {
    if out == [] then []
    else (if Announces(out[0], c) then [out[0].id] else []) + Announced(out[1..], c)
  }

  /** `start`, `start + 1`, `start + 2`, ... in this order. */
  predicate CountsFrom(ids: seq<int>, start: int)
  {
    forall k :: 0 <= k < |ids| ==> ids[k] == start + k
  }

  /**
   * Going from `s` to `t` while writing `out` hands out exactly the ids from
   * `s`'s counter up to `t`'s, in increasing order, each announced once.
   */
  predicate Numbered(s: State, t: State, out: seq<Message>, c: Counter)
  {
    NextId(t, c) == NextId(s, c) + |Announced(out, c)| && CountsFrom(Announced(out, c), NextId(s, c))
  }

  lemma {:induction false} AnnouncedAppend(a: seq<Message>, b: seq<Message>, c: Counter)
    ensures Announced(a + b, c) == Announced(a, c) + Announced(b, c)
    decreases |a|
  {
    if a == [] {
      assert a + b == b;
    } else {
      assert (a + b)[1..] == a[1..] + b;
      AnnouncedAppend(a[1..], b, c);
    }
  }

  lemma {:induction false} AnnouncedNone(out: seq<Message>, c: Counter)
    requires forall k :: 0 <= k < |out| ==> !Announces(out[k], c)
    ensures Announced(out, c) == []
    decreases |out|
  {
    if out != [] {
      AnnouncedNone(out[1..], c);
    }
  }

  /** The owner and property listings are blocks only: they announce nothing. */
  lemma ReportsAnnounceNothing(s: State, f: Filters, c: Counter)
    ensures Announced(OwnerReport(s.owners, s.properties), c) == []
    ensures Announced(PropertyReport(s.owners, s.properties, f), c) == []
  {
    AnnouncedNone(OwnerReport(s.owners, s.properties), c);
    AnnouncedNone(PropertyReport(s.owners, s.properties, f), c);
  }

  /** A handler's one or two messages announce an id exactly when the first one does. */
  lemma AnnouncedShort(m: Message, tail: seq<Message>, c: Counter)
    requires |tail| <= 1 && (tail == [] || !Announces(tail[0], c))
    ensures Announced([m] + tail, c) == if Announces(m, c) then [m.id] else []
  {
    assert ([m] + tail)[1..] == tail;
    if tail != [] {
      assert tail[1..] == [];
    }
  }

  lemma AddOwnerNumbered(s: State, ws: seq<string>, c: Counter)
    requires |ws| == 3
    ensures var o := AddOwnerCommand(s, ws);
            && Numbered(s, o.state, o.out, c) && |Announced(o.out, c)| <= 1
            && (|Announced(o.out, c)| == 1 ==> c == OwnerIds)
  {
    var r := AddOwner(s.owners, s.nextOwnerId, ws[0], ws[1], ws[2]);
    AddOwnerResult(s.owners, s.nextOwnerId, ws[0], ws[1], ws[2]);
    AnnouncedShort(r.message, [], c);
  }

  lemma AddPropertyNumbered(s: State, ws: seq<string>, parsers: PriceParsers, c: Counter)
    requires |ws| == 6
    ensures var o := AddPropertyCommand(s, ws, parsers);
            && Numbered(s, o.state, o.out, c) && |Announced(o.out, c)| <= 1
            && (|Announced(o.out, c)| == 1 ==> c == PropertyIds)
  {
    var o := AddPropertyCommand(s, ws, parsers);
    if ParseInt32(ws[3]).Some? && ParseInt32(ws[5]).Some? && TryParsePrice(ws[1], parsers).Some? {
      var draft := PropertyRecord(0, Some(ws[0]), TryParsePrice(ws[1], parsers).value, Some(ws[2]),
                                  ParseInt32(ws[3]).value, Some(ws[4]), Some(ParseInt32(ws[5]).value));
      var r := AddProperty(s.properties, s.nextPropertyId, s.owners, draft);
      AddPropertyResult(s.properties, s.nextPropertyId, s.owners, draft);
      AnnouncedShort(r.message, if r.ok then [] else [AddPropertyFailed], c);
    } else {
      AnnouncedShort(o.out[0], [], c);
    }
  }

  lemma DeleteOwnerNumbered(s: State, ws: seq<string>, c: Counter)
    requires |ws| == 1
    ensures var o := DeleteOwnerCommand(s, ws);
            Numbered(s, o.state, o.out, c) && Announced(o.out, c) == []
  {
    var o := DeleteOwnerCommand(s, ws);
    if ParseInt32(ws[0]).Some? {
      var r := RemoveOwner(s.owners, s.properties, ParseInt32(ws[0]).value);
      RemoveOwnerResult(s.owners, s.properties, ParseInt32(ws[0]).value);
      AnnouncedShort(r.message, if r.ok then [] else [RemoveOwnerFailed], c);
    } else {
      AnnouncedShort(o.out[0], [], c);
    }
  }

  lemma DeletePropertyNumbered(s: State, ws: seq<string>, c: Counter)
    requires |ws| == 1
    ensures var o := DeletePropertyCommand(s, ws);
            Numbered(s, o.state, o.out, c) && Announced(o.out, c) == []
  {
    var o := DeletePropertyCommand(s, ws);
    if ParseInt32(ws[0]).Some? {
      var r := RemoveProperty(s.properties, s.nextPropertyId, ParseInt32(ws[0]).value);
      RemovePropertyResult(s.properties, s.nextPropertyId, ParseInt32(ws[0]).value);
      AnnouncedShort(r.message, if r.ok then [] else [RemovePropertyFailed], c);
    } else {
      AnnouncedShort(o.out[0], [], c);
    }
  }

  /**
   * One command moves a counter by at most one, by one exactly when it
   * announces an id of that kind, and only the add command of that kind does.
   */
  lemma DispatchNumbered(s: State, cmd: string, ws: seq<string>, parsers: PriceParsers, c: Counter)
    ensures var o := Dispatch(s, cmd, ws, parsers);
            && Numbered(s, o.state, o.out, c) && |Announced(o.out, c)| <= 1
            && (|Announced(o.out, c)| == 1 ==> cmd == AddCommand(c))
  {
    var o := Dispatch(s, cmd, ws, parsers);
    if cmd == "add_owner" && |ws| == 3 {
      AddOwnerNumbered(s, ws, c);
    } else if cmd == "add_prop" && |ws| == 6 {
      AddPropertyNumbered(s, ws, parsers, c);
    } else if cmd == "del_owner" && |ws| == 1 {
      DeleteOwnerNumbered(s, ws, c);
    } else if cmd == "del_prop" && |ws| == 1 {
      DeletePropertyNumbered(s, ws, c);
    } else if cmd == "print_owners" || cmd == "print_props" {
      ReportsAnnounceNothing(s, ScanFilters(ws), c);
    } else {
      AnnouncedShort(o.out[0], [], c);
    }
  }

  /** The same for one line; a blank line writes nothing and moves nothing. */
  lemma ExecuteNumbered(s: State, line: string, parsers: PriceParsers, c: Counter)
    ensures var o := Execute(s, line, parsers);
            && Numbered(s, o.state, o.out, c) && |Announced(o.out, c)| <= 1
            && (|Announced(o.out, c)| == 1 ==> Tokens(line) != [] && Tokens(line)[0] == AddCommand(c))
  {
    var ws := Tokens(line);
    ExecuteWords(s, line, parsers);
    if ws != [] && !IsBlank(ws[0]) {
      DispatchNumbered(s, ws[0], ws[1..], parsers, c);
    }
  }

  /** A command file hands out the ids from the counter's start on, in the order it writes them. */
  lemma {:induction false} RunNumbered(s: State, lines: seq<string>, parsers: PriceParsers, c: Counter)
    ensures var o := Run(s, lines, parsers); Numbered(s, o.state, o.out, c)
    decreases |lines|
  {
    if lines != [] {
      var first := Execute(s, lines[0], parsers);
      var rest := Run(first.state, lines[1..], parsers);
      ExecuteNumbered(s, lines[0], parsers, c);
      RunNumbered(first.state, lines[1..], parsers, c);
      AnnouncedAppend(first.out, rest.out, c);
      var a, b := Announced(first.out, c), Announced(rest.out, c);
      forall k | 0 <= k < |a + b| ensures (a + b)[k] == NextId(s, c) + k {
        if k >= |a| {
          assert (a + b)[k] == b[k - |a|];
        }
      }
    }
  }

  /**
   * An announcing message at position `i` of `out` carries the id that comes
   * after all those announced before it.
   */
  lemma AnnouncedInPlace(out: seq<Message>, c: Counter, start: int, i: nat)
    requires CountsFrom(Announced(out, c), start)
    requires i < |out| && Announces(out[i], c)
    ensures out[i].id == start + |Announced(out[..i], c)|
  {
    var pre, suf := out[..i], out[i..];
    assert out == pre + suf;
    AnnouncedAppend(pre, suf, c);
    assert suf[0] == out[i];
    var ids := Announced(out, c);
    assert ids == Announced(pre, c) + Announced(suf, c);
    assert ids[|Announced(pre, c)|] == Announced(suf, c)[0] == out[i].id;
  }

  /**
   * From fresh services, the n-th owner a command file adds successfully gets
   * id n and the n-th property it adds gets property id n; each counter ends
   * one past the number of adds of its kind.
   */
  lemma RunFromStartNumbering(lines: seq<string>, parsers: PriceParsers, c: Counter)
    ensures var o := Run(Initial, lines, parsers);
            && NextId(o.state, c) == 1 + |Announced(o.out, c)|
            && forall i :: 0 <= i < |o.out| && Announces(o.out[i], c) ==>
                 o.out[i].id == 1 + |Announced(o.out[..i], c)|
  {
    var o := Run(Initial, lines, parsers);
    RunNumbered(Initial, lines, parsers, c);
    forall i | 0 <= i < |o.out| && Announces(o.out[i], c) ensures o.out[i].id == 1 + |Announced(o.out[..i], c)| {
      AnnouncedInPlace(o.out, c, 1, i);
    }
  }
}
