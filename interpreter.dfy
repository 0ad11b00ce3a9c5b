/**
 * The command interpreter on values: one line of input takes the state of the
 * two registries to a new state and a list of messages.
 */
module Interpreter {
  import opened Wrappers
  import opened Text
  import opened OwnerModels
  import opened PropertyModels
  import opened Output
  import opened Registry

  /** The values the two services hold: both lists and both counters. */
  datatype State = State(owners: seq<OwnerModel>, nextOwnerId: int, properties: seq<PropertyRecord>, nextPropertyId: int)

  /** Two fresh services: empty lists, both counters at 1. */
  const Initial := State([], 1, [], 1)

  /** The state after a line and what the line wrote. */
  datatype Outcome = Outcome(state: State, out: seq<Message>)

  /**
   * `float.TryParse(s, NumberStyles.Float, culture, out price)` for the
   * invariant culture and for the current culture of the process, each giving
   * the bit pattern of the parsed single-precision value or None.
   */
  datatype PriceParsers = PriceParsers(invariantCulture: string -> Option<Float32>, currentCulture: string -> Option<Float32>)

  /** TryParsePrice: the invariant culture first, then the current culture. */
  function TryParsePrice(priceString: string, parsers: PriceParsers): Option<Float32>
  {
    match parsers.invariantCulture(priceString)
    case Some(price) => Some(price)
    case None => parsers.currentCulture(priceString)
  }

  const AddOwnerUsage := "Usage: add_owner <NationalID> <Name> <PhoneNumber>"
  const DeleteOwnerUsage := "Usage: del_owner <OwnerID>"
  const AddPropertyUsage := "Usage: add_prop <Name> <Price> <Type> <Area> <Address> <OwnerID>"
  const DeletePropertyUsage := "Usage: del_prop <PropertyID>"

  /** HandleAddOwner, given the argument words: exactly three, passed on to OwnerService.AddOwner. */
  function AddOwnerCommand(s: State, tokens: seq<string>): (o: Outcome)
  {
    if |tokens| != 3 then Outcome(s, [IncorrectArguments(AddOwnerUsage)])
    else
      var r := AddOwner(s.owners, s.nextOwnerId, tokens[0], tokens[1], tokens[2]);
      Outcome(s.(owners := r.owners, nextOwnerId := r.nextOwnerId), [r.message])
  }

  /** HandleDeleteOwner, given the argument words: exactly one, a 32-bit integer, passed on to OwnerService.RemoveOwner. */
  function DeleteOwnerCommand(s: State, tokens: seq<string>): (o: Outcome)
  {
    if |tokens| != 1 then Outcome(s, [IncorrectArguments(DeleteOwnerUsage)])
    else match ParseInt32(tokens[0])
      case None => Outcome(s, [InvalidOwnerId])
      case Some(ownerId) =>
        var r := RemoveOwner(s.owners, s.properties, ownerId);
        Outcome(s.(owners := r.owners, properties := r.properties),
                [r.message] + (if r.ok then [] else [RemoveOwnerFailed]))
  }

  /**
   * HandleAddProperty, given the argument words: exactly six; the area is parsed first, then the
   * owner id, then the price, and the first failure is the one reported. The
   * new object has id 0 until the registry numbers it.
   */
  function AddPropertyCommand(s: State, tokens: seq<string>, parsers: PriceParsers): (o: Outcome)
  {
    if |tokens| != 6 then Outcome(s, [IncorrectArguments(AddPropertyUsage)])
    else match ParseInt32(tokens[3])
      case None => Outcome(s, [InvalidAreaValue])
      case Some(area) =>
        match ParseInt32(tokens[5])
        case None => Outcome(s, [InvalidOwnerId])
        case Some(ownerId) =>
          match TryParsePrice(tokens[1], parsers)
          case None => Outcome(s, [InvalidPriceValue])
          case Some(price) =>
            var draft := PropertyRecord(0, Some(tokens[0]), price, Some(tokens[2]), area, Some(tokens[4]), Some(ownerId));
            var r := AddProperty(s.properties, s.nextPropertyId, s.owners, draft);
            Outcome(s.(properties := r.properties, nextPropertyId := r.nextPropertyId),
                    [r.message] + (if r.ok then [] else [AddPropertyFailed]))
  }

  /** HandleDeleteProperty, given the argument words: exactly one, a 32-bit integer, passed on to PropertyService.RemoveProperty. */
  function DeletePropertyCommand(s: State, tokens: seq<string>): (o: Outcome)
  {
    if |tokens| != 1 then Outcome(s, [IncorrectArguments(DeletePropertyUsage)])
    else match ParseInt32(tokens[0])
      case None => Outcome(s, [InvalidPropertyId])
      case Some(propertyId) =>
        var r := RemoveProperty(s.properties, s.nextPropertyId, propertyId);
        Outcome(s.(properties := r.properties, nextPropertyId := r.nextPropertyId),
                [r.message] + (if r.ok then [] else [RemovePropertyFailed]))
  }

  /** The words of print_props that take the next word as their value. */
  predicate IsFlag(t: string)
  {
    t == "-type" || t == "-minarea" || t == "-min_area" || t == "-maxarea" || t == "-max_area"
    || t == "-name" || t == "-address"
  }

  /** One flag and its value; a numeric value that does not parse leaves that filter as it was. */
  function ApplyFlag(f: Filters, flag: string, value: string): Filters
  {
    if flag == "-type" then f.(propertyType := Some(value))
    else if flag == "-minarea" || flag == "-min_area" then
      (match ParseInt32(value) case Some(n) => f.(minArea := Some(n)) case None => f)
    else if flag == "-maxarea" || flag == "-max_area" then
      (match ParseInt32(value) case Some(n) => f.(maxArea := Some(n)) case None => f)
    else if flag == "-name" then f.(name := Some(value))
    else if flag == "-address" then f.(address := Some(value))
    else f
  }

  /**
   * The filters the scan of HandlePrintProperties ends with when it reaches
   * position `i` holding `f`: a flag consumes the word after it, any other
   * word is skipped, and the last word is never looked at as a flag.
   */
  function ScanFrom(tokens: seq<string>, i: nat, f: Filters): Filters
    decreases |tokens| - i
  {
    if i + 1 >= |tokens| then f
    else if IsFlag(tokens[i]) then ScanFrom(tokens, i + 2, ApplyFlag(f, tokens[i], tokens[i + 1]))
    else ScanFrom(tokens, i + 1, f)
  }

  /** The filters print_props passes to DisplayProperties. */
  function ScanFilters(tokens: seq<string>): Filters
  {
    ScanFrom(tokens, 0, NoFilters)
  }

  /** The switch of ExecuteCommand on a command word that is not blank, given the words of its arguments. */
  function Dispatch(s: State, cmd: string, argWords: seq<string>, parsers: PriceParsers): (o: Outcome)
  {
    if cmd == "help" then Outcome(s, [HelpText])
    else if cmd == "add_owner" then AddOwnerCommand(s, argWords)
    else if cmd == "del_owner" then DeleteOwnerCommand(s, argWords)
    else if cmd == "add_prop" then AddPropertyCommand(s, argWords, parsers)
    else if cmd == "del_prop" then DeletePropertyCommand(s, argWords)
    else if cmd == "print_owners" then Outcome(s, OwnerReport(s.owners, s.properties))
    else if cmd == "print_props" then Outcome(s, PropertyReport(s.owners, s.properties, ScanFilters(argWords)))
    else Outcome(s, [UnknownCommand(cmd)])
  }

  /**
   * ExecuteCommand: the line is cut into the command word and the argument
   * string; a command word that is empty or white space does nothing; the
   * command word is matched exactly (case matters), and each handler splits
   * the argument string into words.
   */
  function Execute(s: State, line: string, parsers: PriceParsers): (o: Outcome)
  {
    var parts := ParseCommandLine(line);
    if IsBlank(parts.0) then Outcome(s, [])
    else Dispatch(s, parts.0, Tokens(parts.1), parsers)
  }

  /** RunFromFile: every line in order, the output of each line after that of the one before. */
  function Run(s: State, lines: seq<string>, parsers: PriceParsers): (o: Outcome)
    decreases |lines|
  {
    if lines == [] then Outcome(s, [])
    else
      var first := Execute(s, lines[0], parsers);
      var rest := Run(first.state, lines[1..], parsers);
      Outcome(rest.state, first.out + rest.out)
  }

  /** `line.Equals("exit", StringComparison.OrdinalIgnoreCase)`. */
  predicate IsExit(line: string)
  {
    EqualsIgnoreCase(line, "exit")
  }

  /**
   * The read loop of RunInteractive over the lines the console will deliver
   * (the end of the sequence is end of input): a prompt before every read,
   * and a stop at end of input or at "exit" in any case.
   */
  function Session(s: State, lines: seq<string>, parsers: PriceParsers): (o: Outcome)
    decreases |lines|
  {
    if lines == [] || IsExit(lines[0]) then Outcome(s, [Prompt])
    else
      var first := Execute(s, lines[0], parsers);
      var rest := Session(first.state, lines[1..], parsers);
      Outcome(rest.state, [Prompt] + first.out + rest.out)
  }

  /** RunInteractive: the banner and the help text, then the read loop. */
  function Interactive(s: State, lines: seq<string>, parsers: PriceParsers): (o: Outcome)
  {
    var session := Session(s, lines, parsers);
    Outcome(session.state, [EnterCommands, HelpText] + session.out)
  }
}
