/**
 * CommandProcessor: reads command lines and drives the two services, each
 * method proved against the interpreter function that says what it does to
 * the values the services hold.
 */
module Processor {
  import opened Wrappers
  import opened Sequences
  import opened Text
  import opened PropertyModels
  import opened Output
  import opened Registry
  import opened Services
  import opened Interpreter
  import InterpreterLemmas

  class CommandProcessor {
    const ownerService: OwnerService
    const propertyService: PropertyService

    /** Keeps the two services it is given; they are shared with the caller. */
    constructor (ownerService: OwnerService, propertyService: PropertyService)
      ensures this.ownerService == ownerService && this.propertyService == propertyService
    {
      this.ownerService := ownerService;
      this.propertyService := propertyService;
    }

    /** The values the two services hold now. */
    function Current(): State
      reads ownerService, propertyService, propertyService.properties
    {
      State(ownerService.owners, ownerService.nextOwnerId, Records(propertyService.properties), propertyService.nextPropertyId)
    }

    /** Runs one line. */
    method ExecuteCommand(line: string, parsers: PriceParsers) returns (out: seq<Message>)
      modifies ownerService, propertyService
      ensures Outcome(Current(), out) == Execute(old(Current()), line, parsers)
    {
      var parts := ParseCommandLine(line);
      var cmd, args := parts.0, parts.1;
      if IsBlank(cmd) {
        return [];
      }
      out := RunCommand(cmd, args, parsers);
    }

    /** The switch of ExecuteCommand on a command word that is not blank. */
    method RunCommand(cmd: string, args: string, parsers: PriceParsers) returns (out: seq<Message>)
      modifies ownerService, propertyService
      ensures Outcome(Current(), out) == Dispatch(old(Current()), cmd, Tokens(args), parsers)
    {
      ghost var s := Current();
      ghost var ws := Tokens(args);
      if cmd == "help" {
        out := [HelpText];
        assert Outcome(Current(), out) == Dispatch(s, cmd, ws, parsers);
      } else if cmd == "add_owner" {
        assert Dispatch(s, cmd, ws, parsers) == AddOwnerCommand(s, ws);
        out := HandleAddOwner(args);
        assert Outcome(Current(), out) == Dispatch(s, cmd, ws, parsers);
      } else if cmd == "del_owner" {
        assert Dispatch(s, cmd, ws, parsers) == DeleteOwnerCommand(s, ws);
        out := HandleDeleteOwner(args);
        assert Outcome(Current(), out) == Dispatch(s, cmd, ws, parsers);
      } else if cmd == "add_prop" {
        assert Dispatch(s, cmd, ws, parsers) == AddPropertyCommand(s, ws, parsers);
        out := HandleAddProperty(args, parsers);
        assert Outcome(Current(), out) == Dispatch(s, cmd, ws, parsers);
      } else if cmd == "del_prop" {
        assert Dispatch(s, cmd, ws, parsers) == DeletePropertyCommand(s, ws);
        out := HandleDeleteProperty(args);
        assert Outcome(Current(), out) == Dispatch(s, cmd, ws, parsers);
      } else if cmd == "print_owners" {
        out := ownerService.DisplayOwners(propertyService.properties);
        assert Outcome(Current(), out) == Dispatch(s, cmd, ws, parsers);
      } else if cmd == "print_props" {
        out := HandlePrintProperties(args);
        assert Outcome(Current(), out) == Dispatch(s, cmd, ws, parsers);
      } else {
        out := [UnknownCommand(cmd)];
        assert Outcome(Current(), out) == Dispatch(s, cmd, ws, parsers);
      }
    }

    method HandleAddOwner(args: string) returns (out: seq<Message>)
      modifies ownerService
      ensures Outcome(Current(), out) == AddOwnerCommand(old(Current()), Tokens(args))
    {
      ghost var s := Current();
      var tokens := Tokens(args);
      if |tokens| != 3 {
        return [IncorrectArguments(AddOwnerUsage)];
      }
      var nationalId, name, phone := tokens[0], tokens[1], tokens[2];
      var _, message := ownerService.AddOwner(nationalId, name, phone);
      out := [message];
      ghost var r := AddOwner(s.owners, s.nextOwnerId, nationalId, name, phone);
      assert Current() == s.(owners := r.owners, nextOwnerId := r.nextOwnerId);
    }

    method HandleDeleteOwner(args: string) returns (out: seq<Message>)
      modifies ownerService, propertyService`properties
      ensures Outcome(Current(), out) == DeleteOwnerCommand(old(Current()), Tokens(args))
    {
      ghost var s := Current();
      var tokens := Tokens(args);
      if |tokens| != 1 {
        out := [IncorrectArguments(DeleteOwnerUsage)];
        assert DeleteOwnerCommand(s, tokens) == Outcome(s, out);
        return;
      }
      var parsed := ParseInt32(tokens[0]);
      if parsed.None? {
        out := [InvalidOwnerId];
        assert DeleteOwnerCommand(s, tokens) == Outcome(s, out);
        return;
      }
      var ownerId := parsed.value;
      var success, message := ownerService.RemoveOwner(ownerId, propertyService);
      ghost var r := RemoveOwner(s.owners, s.properties, ownerId);
      assert Current() == s.(owners := r.owners, properties := r.properties);
      out := [message];
      if !success {
        out := out + [RemoveOwnerFailed];
      }
      assert DeleteOwnerCommand(s, tokens) == Outcome(Current(), out);
    }

    method HandleAddProperty(args: string, parsers: PriceParsers) returns (out: seq<Message>)
      modifies propertyService
      ensures Outcome(Current(), out) == AddPropertyCommand(old(Current()), Tokens(args), parsers)
    {
      ghost var s := Current();
      var tokens := Tokens(args);
      if |tokens| != 6 {
        return [IncorrectArguments(AddPropertyUsage)];
      }
      var name, priceString, propertyType := tokens[0], tokens[1], tokens[2];
      var areaString, address, ownerIdString := tokens[3], tokens[4], tokens[5];
      var area := ParseInt32(areaString);
      if area.None? {
        return [InvalidAreaValue];
      }
      var ownerId := ParseInt32(ownerIdString);
      if ownerId.None? {
        return [InvalidOwnerId];
      }
      var price := TryParsePrice(priceString, parsers);
      if price.None? {
        return [InvalidPriceValue];
      }
      var property := new PropertyModel(0, Some(name), price.value, Some(propertyType), area.value, Some(address), ownerId.value);
      ghost var draft := PropertyRecord(0, Some(name), price.value, Some(propertyType), area.value, Some(address), Some(ownerId.value));
      assert property.Record() == draft;
      assert Current() == s;
      var success, message := propertyService.AddProperty(property, ownerService);
      ghost var r := AddProperty(s.properties, s.nextPropertyId, s.owners, draft);
      assert Current() == s.(properties := r.properties, nextPropertyId := r.nextPropertyId);
      out := [message];
      if !success {
        out := out + [AddPropertyFailed];
      }
    }

    method HandleDeleteProperty(args: string) returns (out: seq<Message>)
      modifies propertyService
      ensures Outcome(Current(), out) == DeletePropertyCommand(old(Current()), Tokens(args))
    {
      ghost var s := Current();
      var tokens := Tokens(args);
      if |tokens| != 1 {
        return [IncorrectArguments(DeletePropertyUsage)];
      }
      var parsed := ParseInt32(tokens[0]);
      if parsed.None? {
        return [InvalidPropertyId];
      }
      var success, message := propertyService.RemoveProperty(parsed.value);
      ghost var r := RemoveProperty(s.properties, s.nextPropertyId, parsed.value);
      assert Current() == s.(properties := r.properties, nextPropertyId := r.nextPropertyId);
      out := [message];
      if !success {
        out := out + [RemovePropertyFailed];
      }
    }

    /** The option scan, then DisplayProperties with the owners of the owner service. */
    method HandlePrintProperties(args: string) returns (out: seq<Message>)
      ensures out == PropertyReport(ownerService.owners, Records(propertyService.properties), ScanFilters(Tokens(args)))
    {
      var propertyType: Option<string> := None;
      var minArea: Option<int> := None;
      var maxArea: Option<int> := None;
      var name: Option<string> := None;
      var address: Option<string> := None;
      var tokens := Tokens(args);
      var i := 0;
      while i < |tokens| - 1
        invariant 0 <= i <= |tokens|
        invariant ScanFrom(tokens, i, Filters(propertyType, minArea, maxArea, name, address)) == ScanFilters(tokens)
        decreases |tokens| - i
      {
        var t := tokens[i];
        if t == "-type" {
          i := i + 1;
          propertyType := Some(tokens[i]);
        } else if t == "-minarea" || t == "-min_area" {
          i := i + 1;
          var min := ParseInt32(tokens[i]);
          if min.Some? {
            minArea := min;
          }
        } else if t == "-maxarea" || t == "-max_area" {
          i := i + 1;
          var max := ParseInt32(tokens[i]);
          if max.Some? {
            maxArea := max;
          }
        } else if t == "-name" {
          i := i + 1;
          name := Some(tokens[i]);
        } else if t == "-address" {
          i := i + 1;
          address := Some(tokens[i]);
        }
        i := i + 1;
      }
      out := propertyService.DisplayProperties(ownerService.owners, Filters(propertyType, minArea, maxArea, name, address));
    }

    /** RunFromFile, given the lines of the file. */
    method RunFromFile(lines: seq<string>, parsers: PriceParsers) returns (out: seq<Message>)
      modifies ownerService, propertyService
      ensures Outcome(Current(), out) == Run(old(Current()), lines, parsers)
    {
      ghost var s0 := Current();
      out := [];
      var i := 0;
      while i < |lines|
        invariant 0 <= i <= |lines|
        invariant Outcome(Current(), out) == Run(s0, lines[..i], parsers)
      {
        ghost var before := Current();
        var lineOut := ExecuteCommand(lines[i], parsers);
        StepRun(s0, lines, i, before, out, Current(), lineOut, parsers);
        out := out + lineOut;
        i := i + 1;
      }
      assert lines[..i] == lines;
    }

    /**
     * RunInteractive, given the lines the console will deliver before end of
     * input: a prompt before each read, a stop at end of input or at "exit".
     */
    method RunInteractive(lines: seq<string>, parsers: PriceParsers) returns (out: seq<Message>)
      modifies ownerService, propertyService
      ensures Outcome(Current(), out) == Interactive(old(Current()), lines, parsers)
    {
      out := [EnterCommands, HelpText];
      var i := 0;
      while true
        invariant 0 <= i <= |lines|
        invariant var rest := Session(Current(), lines[i..], parsers);
                  Interactive(old(Current()), lines, parsers) == Outcome(rest.state, out + rest.out)
        decreases |lines| - i
      {
        ghost var before := Current();
        ghost var outBefore := out;
        out := out + [Prompt];
        if i == |lines| {
          break;
        }
        var input := lines[i];
        if IsExit(input) {
          break;
        }
        var lineOut := ExecuteCommand(input, parsers);
        StepSession(before, lines, i, Current(), outBefore, lineOut, parsers);
        out := out + lineOut;
        i := i + 1;
      }
    }
  }

  /** One more line of a file run. */
  lemma StepRun(s0: State, lines: seq<string>, i: nat, before: State, outBefore: seq<Message>,
                after: State, lineOut: seq<Message>, parsers: PriceParsers)
    requires i < |lines|
    requires Outcome(before, outBefore) == Run(s0, lines[..i], parsers)
    requires Outcome(after, lineOut) == Execute(before, lines[i], parsers)
    ensures Outcome(after, outBefore + lineOut) == Run(s0, lines[..i + 1], parsers)
  {
    StepRunValues(s0, lines, i, parsers);
    var x := Run(s0, lines[..i], parsers);
    assert x.state == before && x.out == outBefore;
  }

  lemma StepRunValues(s0: State, lines: seq<string>, i: nat, parsers: PriceParsers)
    requires i < |lines|
    ensures var x := Run(s0, lines[..i], parsers);
            var step := Execute(x.state, lines[i], parsers);
            Run(s0, lines[..i + 1], parsers) == Outcome(step.state, x.out + step.out)
  {
    assert lines[..i + 1] == lines[..i] + [lines[i]];
    InterpreterLemmas.RunAppend(s0, lines[..i], [lines[i]], parsers);
    InterpreterLemmas.RunOne(Run(s0, lines[..i], parsers).state, [lines[i]], parsers);
  }

  /** One more line of a session that is not "exit". */
  lemma StepSession(before: State, lines: seq<string>, i: nat, after: State, outBefore: seq<Message>,
                    lineOut: seq<Message>, parsers: PriceParsers)
    requires i < |lines| && !IsExit(lines[i])
    requires Outcome(after, lineOut) == Execute(before, lines[i], parsers)
    ensures var rest := Session(before, lines[i..], parsers);
            var rest' := Session(after, lines[i + 1..], parsers);
            rest.state == rest'.state && outBefore + rest.out == (outBefore + [Prompt] + lineOut) + rest'.out
  {
    assert lines[i..][0] == lines[i] && lines[i..][1..] == lines[i + 1..];
    ConsAppend(lines[i..], []);
    var rest' := Session(after, lines[i + 1..], parsers);
    AppendAssociates([Prompt], lineOut, rest'.out);
    AppendAssociates(outBefore, [Prompt] + lineOut, rest'.out);
    AppendAssociates(outBefore, [Prompt], lineOut);
  }
}
