/** What a line, a file of lines and an interactive session do to the registries. */
module InterpreterLemmas {
  import opened Wrappers
  import opened Sequences
  import opened Text
  import opened OwnerModels
  import opened PropertyModels
  import opened Output
  import opened Registry
  import opened RegistryLemmas
  import opened Interpreter
  import opened ScanLemmas

  /** The registry invariant on an interpreter state. */
  ghost predicate Valid(s: State)
  {
    Consistent(s.owners, s.nextOwnerId, s.properties, s.nextPropertyId)
  }

  /** The command words whose handler calls a service operation that changes a list. */
  predicate IsUpdating(cmd: string)
  {
    cmd == "add_owner" || cmd == "del_owner" || cmd == "add_prop" || cmd == "del_prop"
  }

  /** The number of argument words an updating command takes. */
  function Arity(cmd: string): nat
  {
    if cmd == "add_owner" then 3 else if cmd == "add_prop" then 6 else 1
  }

  function UsageOf(cmd: string): string
  {
    if cmd == "add_owner" then AddOwnerUsage
    else if cmd == "del_owner" then DeleteOwnerUsage
    else if cmd == "add_prop" then AddPropertyUsage
    else DeletePropertyUsage
  }

  /** A command word the switch knows is not blank: its first letter is not white space. */
  lemma KnownCommandNotBlank(cmd: string)
    requires IsUpdating(cmd) || cmd == "help" || cmd == "print_owners" || cmd == "print_props"
    ensures !IsBlank(cmd)
  {
    assert cmd[0] == 'a' || cmd[0] == 'd' || cmd[0] == 'h' || cmd[0] == 'p';
    assert !IsWhiteSpace(cmd[0]);
  }

  // ---------------------------------------------------------------------------
  // A line means what its words mean

  /**
   * Cutting the line in two and splitting the argument string again gives the
   * same words as splitting the whole line: the first is the command word.
   */
  lemma ExecuteWords(s: State, line: string, parsers: PriceParsers)
    ensures var ws := Tokens(line);
            Execute(s, line, parsers) ==
              if ws == [] || IsBlank(ws[0]) then Outcome(s, []) else Dispatch(s, ws[0], ws[1..], parsers)
  {
    CommandLineSplit(line);
  }

  /** An empty or white-space line does nothing and writes nothing. */
  lemma BlankLineDoesNothing(s: State, line: string, parsers: PriceParsers)
    requires IsBlank(line)
    ensures Execute(s, line, parsers) == Outcome(s, [])
  {
    BlankLineBlankCommand(line);
  }

  /** A command word outside the switch is reported, and nothing changes. */
  lemma UnknownCommandIsReported(s: State, line: string, parsers: PriceParsers)
    requires var ws := Tokens(line);
             ws != [] && !IsBlank(ws[0]) && !IsUpdating(ws[0])
             && ws[0] != "help" && ws[0] != "print_owners" && ws[0] != "print_props"
    ensures Execute(s, line, parsers) == Outcome(s, [UnknownCommand(Tokens(line)[0])])
  {
    ExecuteWords(s, line, parsers);
  }

  /** Only the four updating commands can change the registries. */
  lemma DispatchReadOnly(s: State, cmd: string, ws: seq<string>, parsers: PriceParsers)
    requires !IsUpdating(cmd)
    ensures Dispatch(s, cmd, ws, parsers).state == s
  {
  }

  lemma OnlyUpdatingCommandsChangeState(s: State, line: string, parsers: PriceParsers)
    ensures var ws := Tokens(line);
            Execute(s, line, parsers).state != s ==> ws != [] && IsUpdating(ws[0])
  {
    var ws := Tokens(line);
    ExecuteWords(s, line, parsers);
    if ws != [] && !IsBlank(ws[0]) && !IsUpdating(ws[0]) {
      DispatchReadOnly(s, ws[0], ws[1..], parsers);
    }
  }

  lemma DispatchWrongArity(s: State, cmd: string, ws: seq<string>, parsers: PriceParsers)
    requires IsUpdating(cmd) && |ws| != Arity(cmd)
    ensures Dispatch(s, cmd, ws, parsers) == Outcome(s, [IncorrectArguments(UsageOf(cmd))])
  {
  }

  /** An updating command with the wrong number of words prints its usage and changes nothing. */
  lemma WrongArityIsRefused(s: State, line: string, parsers: PriceParsers)
    requires var ws := Tokens(line); ws != [] && IsUpdating(ws[0]) && |ws| - 1 != Arity(ws[0])
    ensures Execute(s, line, parsers) == Outcome(s, [IncorrectArguments(UsageOf(Tokens(line)[0]))])
  {
    var ws := Tokens(line);
    KnownCommandNotBlank(ws[0]);
    ExecuteWords(s, line, parsers);
    DispatchWrongArity(s, ws[0], ws[1..], parsers);
  }

  lemma AddPropertyCommandFirstFailure(s: State, ws: seq<string>, parsers: PriceParsers)
    requires |ws| == 6
    ensures var o := AddPropertyCommand(s, ws, parsers);
            && (ParseInt32(ws[3]).None? ==> o == Outcome(s, [InvalidAreaValue]))
            && (ParseInt32(ws[3]).Some? && ParseInt32(ws[5]).None? ==> o == Outcome(s, [InvalidOwnerId]))
            && (ParseInt32(ws[3]).Some? && ParseInt32(ws[5]).Some? && TryParsePrice(ws[1], parsers).None?
                ==> o == Outcome(s, [InvalidPriceValue]))
  {
  }

  /**
   * add_prop checks the area, then the owner id, then the price, reports only
   * the first that does not parse, and then changes nothing.
   */
  lemma AddPropertyFirstFailure(s: State, line: string, parsers: PriceParsers)
    requires var ws := Tokens(line); |ws| == 7 && ws[0] == "add_prop"
    ensures var ws := Tokens(line);
            var o := Execute(s, line, parsers);
            && (ParseInt32(ws[4]).None? ==> o == Outcome(s, [InvalidAreaValue]))
            && (ParseInt32(ws[4]).Some? && ParseInt32(ws[6]).None? ==> o == Outcome(s, [InvalidOwnerId]))
            && (ParseInt32(ws[4]).Some? && ParseInt32(ws[6]).Some? && TryParsePrice(ws[2], parsers).None?
                ==> o == Outcome(s, [InvalidPriceValue]))
  {
    var ws := Tokens(line);
    KnownCommandNotBlank(ws[0]);
    ExecuteWords(s, line, parsers);
    AddPropertyCommandFirstFailure(s, ws[1..], parsers);
  }

  lemma DispatchBadId(s: State, cmd: string, ws: seq<string>, parsers: PriceParsers)
    requires |ws| == 1 && (cmd == "del_owner" || cmd == "del_prop") && ParseInt32(ws[0]).None?
    ensures Dispatch(s, cmd, ws, parsers) == Outcome(s, [if cmd == "del_owner" then InvalidOwnerId else InvalidPropertyId])
  {
  }

  /** The one id argument of del_owner and del_prop must parse as a 32-bit integer, or nothing changes. */
  lemma BadIdIsRefused(s: State, line: string, parsers: PriceParsers)
    requires var ws := Tokens(line);
             |ws| == 2 && (ws[0] == "del_owner" || ws[0] == "del_prop") && ParseInt32(ws[1]).None?
    ensures Execute(s, line, parsers) ==
              Outcome(s, [if Tokens(line)[0] == "del_owner" then InvalidOwnerId else InvalidPropertyId])
  {
    var ws := Tokens(line);
    KnownCommandNotBlank(ws[0]);
    ExecuteWords(s, line, parsers);
    DispatchBadId(s, ws[0], ws[1..], parsers);
  }

  // ---------------------------------------------------------------------------
  // The invariant holds along every run

  lemma DispatchKeepsValid(s: State, cmd: string, ws: seq<string>, parsers: PriceParsers)
    requires Valid(s)
    ensures Valid(Dispatch(s, cmd, ws, parsers).state)
  {
    if cmd == "add_owner" && |ws| == 3 {
      AddOwnerKeepsConsistent(s.owners, s.nextOwnerId, s.properties, s.nextPropertyId, ws[0], ws[1], ws[2]);
    } else if cmd == "del_owner" && |ws| == 1 && ParseInt32(ws[0]).Some? {
      RemoveOwnerKeepsConsistent(s.owners, s.nextOwnerId, s.properties, s.nextPropertyId, ParseInt32(ws[0]).value);
    } else if cmd == "add_prop" && |ws| == 6 && ParseInt32(ws[3]).Some? && ParseInt32(ws[5]).Some?
              && TryParsePrice(ws[1], parsers).Some? {
      var draft := PropertyRecord(0, Some(ws[0]), TryParsePrice(ws[1], parsers).value, Some(ws[2]),
                                  ParseInt32(ws[3]).value, Some(ws[4]), Some(ParseInt32(ws[5]).value));
      AddPropertyKeepsConsistent(s.owners, s.nextOwnerId, s.properties, s.nextPropertyId, draft);
    } else if cmd == "del_prop" && |ws| == 1 && ParseInt32(ws[0]).Some? {
      RemovePropertyKeepsConsistent(s.owners, s.nextOwnerId, s.properties, s.nextPropertyId, ParseInt32(ws[0]).value);
    }
  }

  /** Every line keeps ids unique, below their counters, and every property's owner registered. */
  lemma ExecuteKeepsValid(s: State, line: string, parsers: PriceParsers)
    requires Valid(s)
    ensures Valid(Execute(s, line, parsers).state)
  {
    var parts := ParseCommandLine(line);
    if !IsBlank(parts.0) {
      DispatchKeepsValid(s, parts.0, Tokens(parts.1), parsers);
    }
  }

  lemma {:induction false} RunKeepsValid(s: State, lines: seq<string>, parsers: PriceParsers)
    requires Valid(s)
    ensures Valid(Run(s, lines, parsers).state)
    decreases |lines|
  {
    if lines != [] {
      ExecuteKeepsValid(s, lines[0], parsers);
      RunKeepsValid(Execute(s, lines[0], parsers).state, lines[1..], parsers);
    }
  }

  /** Two fresh services satisfy the invariant, so does every state a command file leads them to. */
  lemma RunFromStartIsValid(lines: seq<string>, parsers: PriceParsers)
    ensures Valid(Run(Initial, lines, parsers).state)
  {
    RunKeepsValid(Initial, lines, parsers);
  }

  // ---------------------------------------------------------------------------
  // Ids are never handed out twice

  /**
   * The counters only grow, and every owner or property in `t` that was not
   * in `s` has an id `s`'s counter had not reached.
   */
  ghost predicate Successor(s: State, t: State)
  {
    && s.nextOwnerId <= t.nextOwnerId && s.nextPropertyId <= t.nextPropertyId
    && (forall o :: o in t.owners ==> o in s.owners || s.nextOwnerId <= o.id < t.nextOwnerId)
    && (forall p :: p in t.properties ==> p in s.properties || s.nextPropertyId <= p.propertyId < t.nextPropertyId)
  }

  lemma SuccessorTransitive(a: State, b: State, c: State)
    requires Successor(a, b) && Successor(b, c)
    ensures Successor(a, c)
  {
  }

  lemma DispatchSuccessor(s: State, cmd: string, ws: seq<string>, parsers: PriceParsers)
    ensures Successor(s, Dispatch(s, cmd, ws, parsers).state)
  {
    if cmd == "del_owner" && |ws| == 1 && ParseInt32(ws[0]).Some? {
      RemoveOwnerCascade(s.owners, s.properties, ParseInt32(ws[0]).value);
    } else if cmd == "del_prop" && |ws| == 1 && ParseInt32(ws[0]).Some? {
      RemovePropertyKeepsOthers(s.properties, s.nextPropertyId, ParseInt32(ws[0]).value);
    }
  }

  lemma ExecuteSuccessor(s: State, line: string, parsers: PriceParsers)
    ensures Successor(s, Execute(s, line, parsers).state)
  {
    var parts := ParseCommandLine(line);
    if !IsBlank(parts.0) {
      DispatchSuccessor(s, parts.0, Tokens(parts.1), parsers);
    }
  }

  lemma {:induction false} RunSuccessor(s: State, lines: seq<string>, parsers: PriceParsers)
    ensures Successor(s, Run(s, lines, parsers).state)
    decreases |lines|
  {
    if lines != [] {
      var next := Execute(s, lines[0], parsers).state;
      ExecuteSuccessor(s, lines[0], parsers);
      RunSuccessor(next, lines[1..], parsers);
      SuccessorTransitive(s, next, Run(s, lines, parsers).state);
    }
  }

  /**
   * An id denotes one owner and one property for good: whatever a command file
   * does, an owner or property found later under an id that was in use is the
   * very one that had it.
   */
  lemma RunNeverReusesIds(s: State, lines: seq<string>, parsers: PriceParsers)
    requires Valid(s)
    ensures var t := Run(s, lines, parsers).state;
            && (forall o, e :: o in t.owners && e in s.owners && o.id == e.id ==> o == e)
            && (forall p, q :: p in t.properties && q in s.properties && p.propertyId == q.propertyId ==> p == q)
  {
    var t := Run(s, lines, parsers).state;
    RunSuccessor(s, lines, parsers);
    forall o, e | o in t.owners && e in s.owners && o.id == e.id ensures o == e {
      var j :| 0 <= j < |s.owners| && s.owners[j] == e;
      if o in s.owners {
        var i :| 0 <= i < |s.owners| && s.owners[i] == o;
        assert i == j;
      }
    }
    forall p, q | p in t.properties && q in s.properties && p.propertyId == q.propertyId ensures p == q {
      var j :| 0 <= j < |s.properties| && s.properties[j] == q;
      if p in s.properties {
        var i :| 0 <= i < |s.properties| && s.properties[i] == p;
        assert i == j;
      }
    }
  }

  // ---------------------------------------------------------------------------
  // Files and sessions

  /** Running two files one after the other is running their concatenation. */
  lemma {:induction false} RunAppend(s: State, a: seq<string>, b: seq<string>, parsers: PriceParsers)
    ensures var x := Run(s, a, parsers);
            var y := Run(x.state, b, parsers);
            Run(s, a + b, parsers) == Outcome(y.state, x.out + y.out)
    decreases |a|
  {
    if a == [] {
      assert a + b == b;
    } else {
      var first := Execute(s, a[0], parsers);
      ConsAppend(a, b);
      var x' := Run(first.state, a[1..], parsers);
      var y := Run(x'.state, b, parsers);
      RunAppend(first.state, a[1..], b, parsers);
      AppendAssociates(first.out, x'.out, y.out);
    }
  }

  /** A file of one line does what that line does. */
  lemma RunOne(s: State, lines: seq<string>, parsers: PriceParsers)
    requires |lines| == 1
    ensures Run(s, lines, parsers) == Execute(s, lines[0], parsers)
  {
    var first := Execute(s, lines[0], parsers);
    assert Run(first.state, lines[1..], parsers) == Outcome(first.state, []);
    assert first.out + [] == first.out;
  }

  /**
   * Without an "exit" line, a session does what the file of its lines does,
   * and writes one prompt more per line read, plus one at end of input.
   */
  lemma {:induction false} SessionWithoutExit(s: State, lines: seq<string>, parsers: PriceParsers)
    requires forall k :: 0 <= k < |lines| ==> !IsExit(lines[k])
    ensures Session(s, lines, parsers).state == Run(s, lines, parsers).state
    ensures |Session(s, lines, parsers).out| == |Run(s, lines, parsers).out| + |lines| + 1
    decreases |lines|
  {
    if lines != [] {
      assert !IsExit(lines[0]);
      SessionWithoutExit(Execute(s, lines[0], parsers).state, lines[1..], parsers);
    }
  }

  /** A session ignores everything after the first "exit" line. */
  lemma {:induction false} SessionStopsAtExit(s: State, a: seq<string>, e: string, b: seq<string>, parsers: PriceParsers)
    requires forall k :: 0 <= k < |a| ==> !IsExit(a[k])
    requires IsExit(e)
    ensures Session(s, a + [e] + b, parsers) == Session(s, a, parsers)
    decreases |a|
  {
    AppendAssociates(a, [e], b);
    if a == [] {
      assert a + [e] + b == [e] + b;
    } else {
      ConsAppend(a, [e] + b);
      AppendAssociates(a[1..], [e], b);
      assert !IsExit(a[0]);
      SessionStopsAtExit(Execute(s, a[0], parsers).state, a[1..], e, b, parsers);
    }
  }

  /** The state an interactive session leaves is that of running, as a file, the lines before its first "exit". */
  lemma InteractiveIsRunUntilExit(s: State, a: seq<string>, e: string, b: seq<string>, parsers: PriceParsers)
    requires forall k :: 0 <= k < |a| ==> !IsExit(a[k])
    requires IsExit(e)
    ensures Interactive(s, a + [e] + b, parsers).state == Run(s, a, parsers).state
  {
    SessionStopsAtExit(s, a, e, b, parsers);
    SessionWithoutExit(s, a, parsers);
  }
}
