/**
 * What each command line does, stated on the words of the line: any spacing
 * that splits into the same words has the same effect.
 */
module CommandLines {
  import opened Wrappers
  import opened Sequences
  import opened Text
  import opened PropertyModels
  import opened Output
  import opened Registry
  import opened RegistryLemmas
  import opened Interpreter
  import opened ScanLemmas
  import opened InterpreterLemmas

  /** Only the words after the command word reach its handler. */
  lemma LineOfWords(s: State, line: string, cmd: string, args: seq<string>, parsers: PriceParsers)
    requires Tokens(line) == [cmd] + args && !IsBlank(cmd)
    ensures Execute(s, line, parsers) == Dispatch(s, cmd, args, parsers)
  {
    ExecuteWords(s, line, parsers);
  }

  /** A command written with single spaces, as the help text shows it, splits back into its words. */
  lemma JoinedLine(cmd: string, args: seq<string>)
    requires IsWord(cmd)
    requires forall k :: 0 <= k < |args| ==> IsWord(args[k])
    ensures Tokens(JoinWords([cmd] + args)) == [cmd] + args
  {
    var ws := [cmd] + args;
    forall k | 0 <= k < |ws| ensures IsWord(ws[k]) {
      if k > 0 {
        assert ws[k] == args[k - 1];
      }
    }
    TokensJoinWords(ws);
  }

  /** `add_owner <NationalID> <Name> <PhoneNumber>` is OwnerService.AddOwner on the three words. */
  lemma AddOwnerLine(s: State, line: string, parsers: PriceParsers)
    requires var ws := Tokens(line); |ws| == 4 && ws[0] == "add_owner"
    ensures var ws := Tokens(line);
            var r := AddOwner(s.owners, s.nextOwnerId, ws[1], ws[2], ws[3]);
            Execute(s, line, parsers) == Outcome(s.(owners := r.owners, nextOwnerId := r.nextOwnerId), [r.message])
  {
    var ws := Tokens(line);
    KnownCommandNotBlank(ws[0]);
    LineOfWords(s, line, ws[0], ws[1..], parsers);
  }

  /** `del_owner <OwnerID>` with an id that parses is OwnerService.RemoveOwner on the id. */
  lemma DeleteOwnerLine(s: State, line: string, ownerId: int, parsers: PriceParsers)
    requires var ws := Tokens(line); |ws| == 2 && ws[0] == "del_owner" && ParseInt32(ws[1]) == Some(ownerId)
    ensures var r := RemoveOwner(s.owners, s.properties, ownerId);
            Execute(s, line, parsers)
              == Outcome(s.(owners := r.owners, properties := r.properties),
                         [r.message] + (if r.ok then [] else [RemoveOwnerFailed]))
  {
    var ws := Tokens(line);
    KnownCommandNotBlank(ws[0]);
    LineOfWords(s, line, ws[0], ws[1..], parsers);
    DispatchDeleteOwner(s, ws[1..], ownerId, parsers);
  }

  lemma DispatchDeleteOwner(s: State, args: seq<string>, ownerId: int, parsers: PriceParsers)
    requires |args| == 1 && ParseInt32(args[0]) == Some(ownerId)
    ensures var r := RemoveOwner(s.owners, s.properties, ownerId);
            Dispatch(s, "del_owner", args, parsers)
              == Outcome(s.(owners := r.owners, properties := r.properties),
                         [r.message] + (if r.ok then [] else [RemoveOwnerFailed]))
  {
  }

  /**
   * `add_prop <Name> <Price> <Type> <Area> <Address> <OwnerID>` whose numbers
   * parse is PropertyService.AddProperty on a property built from the words.
   */
  lemma AddPropertyLine(s: State, line: string, area: int, ownerId: int, price: Float32, parsers: PriceParsers)
    requires var ws := Tokens(line);
             && |ws| == 7 && ws[0] == "add_prop"
             && ParseInt32(ws[4]) == Some(area) && ParseInt32(ws[6]) == Some(ownerId)
             && TryParsePrice(ws[2], parsers) == Some(price)
    ensures var ws := Tokens(line);
            var draft := PropertyRecord(0, Some(ws[1]), price, Some(ws[3]), area, Some(ws[5]), Some(ownerId));
            var r := AddProperty(s.properties, s.nextPropertyId, s.owners, draft);
            Execute(s, line, parsers)
              == Outcome(s.(properties := r.properties, nextPropertyId := r.nextPropertyId),
                         [r.message] + (if r.ok then [] else [AddPropertyFailed]))
  {
    var ws := Tokens(line);
    KnownCommandNotBlank(ws[0]);
    LineOfWords(s, line, ws[0], ws[1..], parsers);
  }

  /** `del_prop <PropertyID>` with an id that parses is PropertyService.RemoveProperty on the id. */
  lemma DeletePropertyLine(s: State, line: string, propertyId: int, parsers: PriceParsers)
    requires var ws := Tokens(line); |ws| == 2 && ws[0] == "del_prop" && ParseInt32(ws[1]) == Some(propertyId)
    ensures var r := RemoveProperty(s.properties, s.nextPropertyId, propertyId);
            Execute(s, line, parsers)
              == Outcome(s.(properties := r.properties, nextPropertyId := r.nextPropertyId),
                         [r.message] + (if r.ok then [] else [RemovePropertyFailed]))
  {
    var ws := Tokens(line);
    KnownCommandNotBlank(ws[0]);
    LineOfWords(s, line, ws[0], ws[1..], parsers);
    DispatchDeleteProperty(s, ws[1..], propertyId, parsers);
  }

  lemma DispatchDeleteProperty(s: State, args: seq<string>, propertyId: int, parsers: PriceParsers)
    requires |args| == 1 && ParseInt32(args[0]) == Some(propertyId)
    ensures var r := RemoveProperty(s.properties, s.nextPropertyId, propertyId);
            Dispatch(s, "del_prop", args, parsers)
              == Outcome(s.(properties := r.properties, nextPropertyId := r.nextPropertyId),
                         [r.message] + (if r.ok then [] else [RemovePropertyFailed]))
  {
  }

  /** `print_owners` lists every owner with its property count, ignores any further words, and changes nothing. */
  lemma PrintOwnersLine(s: State, line: string, parsers: PriceParsers)
    requires var ws := Tokens(line); ws != [] && ws[0] == "print_owners"
    ensures Execute(s, line, parsers) == Outcome(s, OwnerReport(s.owners, s.properties))
  {
    var ws := Tokens(line);
    KnownCommandNotBlank(ws[0]);
    LineOfWords(s, line, ws[0], ws[1..], parsers);
    DispatchPrintOwners(s, ws[1..], parsers);
  }

  lemma DispatchPrintOwners(s: State, args: seq<string>, parsers: PriceParsers)
    ensures Dispatch(s, "print_owners", args, parsers) == Outcome(s, OwnerReport(s.owners, s.properties))
  {
  }

  /**
   * `print_props` followed by flag/value pairs (and at most one stray word)
   * lists the properties that pass the filters the pairs set, the last flag of
   * each kind winning; it changes nothing.
   */
  lemma PrintPropertiesLine(s: State, line: string, pairs: seq<(string, string)>, rest: seq<string>, parsers: PriceParsers)
    requires forall k :: 0 <= k < |pairs| ==> IsFlag(pairs[k].0)
    requires |rest| <= 1
    requires Tokens(line) == ["print_props"] + (Flatten(pairs) + rest)
    ensures Execute(s, line, parsers) == Outcome(s, PropertyReport(s.owners, s.properties, ApplyAll(NoFilters, pairs)))
  {
    KnownCommandNotBlank("print_props");
    LineOfWords(s, line, "print_props", Flatten(pairs) + rest, parsers);
    ScanPairs(pairs, rest, NoFilters);
  }

  /** `print_props` alone, or with one stray word, lists every property in list order. */
  lemma PrintAllPropertiesLine(s: State, line: string, parsers: PriceParsers)
    requires var ws := Tokens(line); 1 <= |ws| <= 2 && ws[0] == "print_props"
    ensures Execute(s, line, parsers) == Outcome(s, PropertyReport(s.owners, s.properties, NoFilters))
    ensures Select(s.properties, NoFilters) == s.properties
  {
    var ws := Tokens(line);
    assert Flatten([]) + ws[1..] == ws[1..];
    PrintPropertiesLine(s, line, [], ws[1..], parsers);
    SelectWithoutFilters(s.properties);
  }
}
