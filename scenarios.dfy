/**
 * The interpreter on the command sequences of the unit tests, each stated for
 * any line that splits into the words the test types.
 */
module Scenarios {
  import opened Wrappers
  import opened Sequences
  import opened Text
  import opened OwnerModels
  import opened PropertyModels
  import opened Output
  import opened Registry
  import opened Interpreter
  import opened CommandLines
  import opened ScanLemmas

  /** The first owner added to fresh services gets id 1, and the owner counter moves to 2. */
  lemma FirstOwnerGetsIdOne(line: string, parsers: PriceParsers)
    requires var ws := Tokens(line); |ws| == 4 && ws[0] == "add_owner"
    ensures var ws := Tokens(line);
            var o := Execute(Initial, line, parsers);
            && o.state == Initial.(owners := [NewOwner(1, ws[1], ws[2], ws[3])], nextOwnerId := 2)
            && o.out == [OwnerAdded(Some(ws[2]), 1)]
  {
    var ws := Tokens(line);
    AddOwnerLine(Initial, line, parsers);
    AddOwnerResult([], 1, ws[1], ws[2], ws[3]);
  }

  /**
   * Once an owner is added, a second add_owner with the same national id or
   * the same phone number is refused and changes nothing.
   */
  lemma DuplicateOwnerIsRefused(s: State, first: string, second: string, parsers: PriceParsers)
    requires var ws := Tokens(first); |ws| == 4 && ws[0] == "add_owner"
    requires var ws := Tokens(second); |ws| == 4 && ws[0] == "add_owner"
    requires Tokens(second)[1] == Tokens(first)[1] || Tokens(second)[3] == Tokens(first)[3]
    requires Execute(s, first, parsers).out == [OwnerAdded(Some(Tokens(first)[2]), s.nextOwnerId)]
    ensures var t := Execute(s, first, parsers).state;
            Execute(t, second, parsers) == Outcome(t, [OwnerExists])
  {
    var a, b := Tokens(first), Tokens(second);
    AddOwnerLine(s, first, parsers);
    AddOwnerResult(s.owners, s.nextOwnerId, a[1], a[2], a[3]);
    var t := Execute(s, first, parsers).state;
    var added := NewOwner(s.nextOwnerId, a[1], a[2], a[3]);
    assert t.owners == s.owners + [added];
    assert t.owners[|s.owners|] == added;
    AddOwnerLine(t, second, parsers);
    AddOwnerResult(t.owners, t.nextOwnerId, b[1], b[2], b[3]);
  }

  /**
   * Deleting the only owner of fresh services after giving it one property
   * leaves both lists empty: the property goes with its owner.
   */
  lemma DeleteOwnerTakesItsProperty(add: string, prop: string, del: string, parsers: PriceParsers)
    requires var ws := Tokens(add); |ws| == 4 && ws[0] == "add_owner"
    requires var ws := Tokens(prop);
             && |ws| == 7 && ws[0] == "add_prop" && ParseInt32(ws[4]).Some? && ParseInt32(ws[6]) == Some(1)
             && TryParsePrice(ws[2], parsers).Some?
    requires var ws := Tokens(del); |ws| == 2 && ws[0] == "del_owner" && ParseInt32(ws[1]) == Some(1)
    ensures var s1 := Execute(Initial, add, parsers).state;
            var s2 := Execute(s1, prop, parsers).state;
            var s3 := Execute(s2, del, parsers).state;
            && |s2.properties| == 1 && s2.properties[0].propertyId == 1 && s2.properties[0].ownerId == Some(1)
            && s3.owners == [] && s3.properties == []
  {
    var s1 := Execute(Initial, add, parsers).state;
    FirstOwnerGetsIdOne(add, parsers);
    var ws := Tokens(prop);
    var area, price := ParseInt32(ws[4]).value, TryParsePrice(ws[2], parsers).value;
    var draft := PropertyRecord(0, Some(ws[1]), price, Some(ws[3]), area, Some(ws[5]), Some(1));
    AddPropertyLine(s1, prop, area, 1, price, parsers);
    assert s1.owners[0].id == 1;
    AddPropertyResult(s1.properties, s1.nextPropertyId, s1.owners, draft);
    var s2 := Execute(s1, prop, parsers).state;
    assert s2.properties == [draft.(propertyId := 1)];
    DeleteOwnerLine(s2, del, 1, parsers);
    RemoveOwnerResult(s2.owners, s2.properties, 1);
    assert s2.owners[0].id == 1;
  }

  /** An add_prop line for an owner that exists appends the listing its words describe, under the next id. */
  lemma ListingAdded(s: State, line: string, ownerId: int, parsers: PriceParsers)
    requires HasOwner(s.owners, Some(ownerId))
    requires var ws := Tokens(line);
             && |ws| == 7 && ws[0] == "add_prop"
             && ParseInt32(ws[4]).Some? && ParseInt32(ws[6]) == Some(ownerId) && TryParsePrice(ws[2], parsers).Some?
    ensures var ws := Tokens(line);
            var t := Execute(s, line, parsers).state;
            && t.owners == s.owners
            && t.properties == s.properties + [PropertyRecord(s.nextPropertyId, Some(ws[1]), TryParsePrice(ws[2], parsers).value,
                                                              Some(ws[3]), ParseInt32(ws[4]).value, Some(ws[5]), Some(ownerId))]
  {
    var ws := Tokens(line);
    var draft := PropertyRecord(0, Some(ws[1]), TryParsePrice(ws[2], parsers).value, Some(ws[3]),
                                ParseInt32(ws[4]).value, Some(ws[5]), Some(ownerId));
    AddPropertyLine(s, line, ParseInt32(ws[4]).value, ownerId, TryParsePrice(ws[2], parsers).value, parsers);
    AddPropertyResult(s.properties, s.nextPropertyId, s.owners, draft);
  }

  /** `print_props -type rent` over a rent and a sale listing writes the rent one alone. */
  lemma RentListingShown(s: State, line: string, parsers: PriceParsers)
    requires Tokens(line) == ["print_props", "-type", "rent"]
    requires |s.properties| == 2
    requires s.properties[0].propertyType == Some("rent") && s.properties[1].propertyType == Some("sell")
    ensures Execute(s, line, parsers)
              == Outcome(s, [PropertyBlock(s.properties[0], OwnerNameOf(s.owners, s.properties[0].ownerId))])
  {
    var pairs := [("-type", "rent")];
    assert Flatten(pairs) + [] == ["-type", "rent"] by { assert pairs[1..] == []; }
    PrintPropertiesLine(s, line, pairs, [], parsers);
    var f := NoFilters.(propertyType := Some("rent"));
    assert ApplyAll(NoFilters, pairs) == f by { assert pairs[1..] == []; }
    var r, t := s.properties[0], s.properties[1];
    assert "rent"[0] == 'r' && !IsWhiteSpace("rent"[0]);
    assert Matches(r, f);
    assert "sell" != "rent" by { assert "sell"[0] != "rent"[0]; }
    assert !Matches(t, f);
    assert s.properties[1..] == [t];
    assert Filter([t], Matching(f)) == [] by { assert [t][1..] == []; }
    assert Select(s.properties, f) == [r];
  }

  /**
   * Services holding an owner and no property; two add_prop lines for that
   * owner, a rent and a sale listing; then `print_props -type rent` lists the
   * rent listing alone, under its owner's name, and changes nothing.
   */
  lemma TypeFilterScenario(s: State, rentLine: string, sellLine: string, printLine: string, ownerId: int,
                           parsers: PriceParsers)
    requires s.properties == [] && HasOwner(s.owners, Some(ownerId))
    requires var ws := Tokens(rentLine);
             && |ws| == 7 && ws[0] == "add_prop" && ws[3] == "rent"
             && ParseInt32(ws[4]).Some? && ParseInt32(ws[6]) == Some(ownerId) && TryParsePrice(ws[2], parsers).Some?
    requires var ws := Tokens(sellLine);
             && |ws| == 7 && ws[0] == "add_prop" && ws[3] == "sell"
             && ParseInt32(ws[4]).Some? && ParseInt32(ws[6]) == Some(ownerId) && TryParsePrice(ws[2], parsers).Some?
    requires Tokens(printLine) == ["print_props", "-type", "rent"]
    ensures var s1 := Execute(s, rentLine, parsers).state;
            var s2 := Execute(s1, sellLine, parsers).state;
            && |s2.properties| == 2
            && s2.properties[0].name == Some(Tokens(rentLine)[1])
            && s2.properties[1].name == Some(Tokens(sellLine)[1])
            && Execute(s2, printLine, parsers)
                 == Outcome(s2, [PropertyBlock(s2.properties[0], OwnerNameOf(s.owners, Some(ownerId)))])
  {
    ListingAdded(s, rentLine, ownerId, parsers);
    var s1 := Execute(s, rentLine, parsers).state;
    ListingAdded(s1, sellLine, ownerId, parsers);
    var s2 := Execute(s1, sellLine, parsers).state;
    assert s2.properties[0] == s1.properties[0];
    RentListingShown(s2, printLine, parsers);
  }
}
