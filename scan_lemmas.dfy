/** The option scan of print_props, read as a list of flag/value pairs. */
module ScanLemmas {
  import opened Wrappers
  import opened Text
  import opened Registry
  import opened Interpreter

  /** Flag/value pairs written out as words. */
  function Flatten(pairs: seq<(string, string)>): (ws: seq<string>)
    ensures |ws| == 2 * |pairs|
  {
    if pairs == [] then [] else [pairs[0].0, pairs[0].1] + Flatten(pairs[1..])
  }

  /** The pairs applied one after the other, from the first. */
  function ApplyAll(f: Filters, pairs: seq<(string, string)>): Filters
    decreases |pairs|
  {
    if pairs == [] then f else ApplyAll(ApplyFlag(f, pairs[0].0, pairs[0].1), pairs[1..])
  }

  /** The value of the last pair whose flag is accepted, or `d` when there is none. */
  function LastText(pairs: seq<(string, string)>, accept: string -> bool, d: Option<string>): Option<string>
  {
    if pairs == [] then d
    else
      var last := pairs[|pairs| - 1];
      if accept(last.0) then Some(last.1) else LastText(pairs[..|pairs| - 1], accept, d)
  }

  /** The value of the last pair whose flag is accepted and whose value parses, or `d` when there is none. */
  function LastNumber(pairs: seq<(string, string)>, accept: string -> bool, d: Option<int>): Option<int>
  {
    if pairs == [] then d
    else
      var last := pairs[|pairs| - 1];
      if accept(last.0) && ParseInt32(last.1).Some? then ParseInt32(last.1)
      else LastNumber(pairs[..|pairs| - 1], accept, d)
  }

  function IsTypeFlag(t: string): bool { t == "-type" }
  function IsMinAreaFlag(t: string): bool { t == "-minarea" || t == "-min_area" }
  function IsMaxAreaFlag(t: string): bool { t == "-maxarea" || t == "-max_area" }
  function IsNameFlag(t: string): bool { t == "-name" }
  function IsAddressFlag(t: string): bool { t == "-address" }

  /** Scanning from position |pre| + j of pre + ws is scanning from j of ws. */
  lemma {:induction false} ScanShift(pre: seq<string>, ws: seq<string>, j: nat, f: Filters)
    requires j <= |ws|
    ensures ScanFrom(pre + ws, |pre| + j, f) == ScanFrom(ws, j, f)
    decreases |ws| - j
  {
    var all := pre + ws;
    if j + 1 < |ws| {
      assert all[|pre| + j] == ws[j] && all[|pre| + j + 1] == ws[j + 1];
      if IsFlag(ws[j]) {
        ScanShift(pre, ws, j + 2, ApplyFlag(f, ws[j], ws[j + 1]));
      } else {
        ScanShift(pre, ws, j + 1, f);
      }
    }
  }

  /** A word that is not a flag is skipped. */
  lemma ScanSkipsOtherWords(w: string, rest: seq<string>, f: Filters)
    requires !IsFlag(w)
    ensures ScanFrom([w] + rest, 0, f) == ScanFrom(rest, 0, f)
  {
    if rest != [] {
      ScanShift([w], rest, 0, f);
    }
  }

  /** A flag consumes the word after it as its value, whatever that word is. */
  lemma ScanTakesValue(flag: string, value: string, rest: seq<string>, f: Filters)
    requires IsFlag(flag)
    ensures ScanFrom([flag, value] + rest, 0, f) == ScanFrom(rest, 0, ApplyFlag(f, flag, value))
  {
    ScanShift([flag, value], rest, 0, ApplyFlag(f, flag, value));
  }

  /** A scan that reaches the last word stops there: the last word is never read as a flag. */
  lemma ScanIgnoresLoneWord(ws: seq<string>, f: Filters)
    requires ws != []
    ensures ScanFrom(ws, |ws| - 1, f) == f
  {
  }

  /** Well-formed pairs are applied in order, and the scan goes on with whatever follows them. */
  lemma {:induction false} ScanPairs(pairs: seq<(string, string)>, rest: seq<string>, f: Filters)
    requires forall k :: 0 <= k < |pairs| ==> IsFlag(pairs[k].0)
    ensures ScanFrom(Flatten(pairs) + rest, 0, f) == ScanFrom(rest, 0, ApplyAll(f, pairs))
    decreases |pairs|
  {
    if pairs != [] {
      var p := pairs[0];
      assert Flatten(pairs) + rest == [p.0, p.1] + (Flatten(pairs[1..]) + rest);
      ScanTakesValue(p.0, p.1, Flatten(pairs[1..]) + rest, f);
      ScanPairs(pairs[1..], rest, ApplyFlag(f, p.0, p.1));
    } else {
      assert Flatten(pairs) + rest == rest;
    }
  }

  lemma {:induction false} ApplyAllAppend(f: Filters, a: seq<(string, string)>, b: seq<(string, string)>)
    ensures ApplyAll(f, a + b) == ApplyAll(ApplyAll(f, a), b)
    decreases |a|
  {
    if a != [] {
      assert (a + b)[0] == a[0] && (a + b)[1..] == a[1..] + b;
      ApplyAllAppend(ApplyFlag(f, a[0].0, a[0].1), a[1..], b);
    } else {
      assert a + b == b;
    }
  }

  /**
   * Each filter ends with the value of its last flag (for a numeric one, the
   * last whose value parses); a filter no flag names keeps its value.
   */
  lemma {:induction false} ApplyAllLastWins(f: Filters, pairs: seq<(string, string)>)
    ensures var g := ApplyAll(f, pairs);
            && g.propertyType == LastText(pairs, IsTypeFlag, f.propertyType)
            && g.minArea == LastNumber(pairs, IsMinAreaFlag, f.minArea)
            && g.maxArea == LastNumber(pairs, IsMaxAreaFlag, f.maxArea)
            && g.name == LastText(pairs, IsNameFlag, f.name)
            && g.address == LastText(pairs, IsAddressFlag, f.address)
  {
    if pairs != [] {
      var init, last := pairs[..|pairs| - 1], pairs[|pairs| - 1];
      assert pairs == init + [last];
      ApplyAllAppend(f, init, [last]);
      ApplyAllLastWins(f, init);
    }
  }

  /** The filters print_props ends with, for well-formed pairs and at most one stray word after them. */
  lemma ScanFiltersOfPairs(pairs: seq<(string, string)>, rest: seq<string>)
    requires forall k :: 0 <= k < |pairs| ==> IsFlag(pairs[k].0)
    requires |rest| <= 1
    ensures var g := ScanFilters(Flatten(pairs) + rest);
            && g.propertyType == LastText(pairs, IsTypeFlag, None)
            && g.minArea == LastNumber(pairs, IsMinAreaFlag, None)
            && g.maxArea == LastNumber(pairs, IsMaxAreaFlag, None)
            && g.name == LastText(pairs, IsNameFlag, None)
            && g.address == LastText(pairs, IsAddressFlag, None)
  {
    ScanPairs(pairs, rest, NoFilters);
    ApplyAllLastWins(NoFilters, pairs);
  }
}
