# PropertyManager core in Dafny

A model of the command interpreter of PropertyManager and of the two in-memory
registries behind it. `OwnerService` holds the owner list and the owner id
counter. `PropertyService` holds the property list and the property id
counter. `CommandProcessor` reads one command line at a time, checks the
argument words, parses the numeric fields and calls the services.

The model has two layers.

- **Values.** `Registry` and `Interpreter` are functions on plain values. A
  `State` holds both lists and both counters. `Execute` takes a state and a
  line to a new state and the list of messages the line writes. `Run` does
  the same for the lines of a command file, and `Interactive` for a console
  session.
- **Objects.** `Services.OwnerService`, `Services.PropertyService`,
  `PropertyModels.PropertyModel` and `Processor.CommandProcessor` are classes
  with the source's mutable fields. Each of their methods is proved to change
  those fields exactly as the value-level function says, with one exception.
  `PropertyService.AddProperty` matches `Registry.AddProperty` only for a
  property object that is not already in the list. Its own contract still
  gives the new list and the new object in every case.
  `CommandProcessor.ExecuteCommand` ensures
  `Outcome(Current(), out) == Execute(old(Current()), line, parsers)`, where
  `Current()` reads the fields of both services.

The properties proved on the value layer are:

- the registry invariant is kept by every line: ids, national ids and phone
  numbers are unique, ids stay below their counters, and every property's
  owner exists;
- ids are never handed out twice;
- a counter moves only when an add of its kind succeeds, and then by one, so
  from fresh services the n-th owner (property) a command file adds gets id n;
- removing an owner removes its properties, and the other properties keep
  their order;
- the `print_props` filter is the conjunction of the supplied constraints;
- the flag scan applies flag/value pairs in order, and the last one wins;
- every refused command (wrong word count, bad number, unknown word, blank
  line) changes nothing;
- `add_prop` reports only the first field that does not parse;
- splitting a line obeys `Split`'s contract, and `int.TryParse` reads back
  what `int.ToString` writes.

Files:

- `wrappers.dfy` and `sequences.dfy`: `Option`, and order-preserving filtering
  (the value-level `RemoveAll` and `Where`).
- `text.dfy`: `Split(' ', RemoveEmptyEntries)`, `IsNullOrWhiteSpace`,
  `int.TryParse` and the ordinal case-insensitive comparison.
- `owner_model.dfy` and `property_model.dfy`: the two records.
- `output.dfy`: the console messages.
- `registry.dfy` and `registry_lemmas.dfy`: the service operations on values,
  and their properties.
- `interpreter.dfy`, `interpreter_lemmas.dfy`, `scan_lemmas.dfy` and
  `command_lines.dfy`: the command interpreter and its properties.
- `numbering.dfy`: how the two counters number what a command file adds.
- `services.dfy` and `processor.dfy`: the classes.
- `scenarios.dfy`: the command sequences of the unit tests.

Three behaviours of the code that are easy to miss, and that the model keeps:

- The line is not trimmed. `ParseCommandLine` splits on the space character
  only. A line of tabs is still a no-op, because its command word is white
  space. A tab before a command word makes the word unknown.
- `print_owners` and `help` take no arity check. Extra words after them are
  ignored.
- The owner-name lookup of a listed property gives `null` when no owner
  matches (`None` here). It does not give an empty string.

## Model

| member | source | states |
|---|---|---|
| OwnerModels.NewOwner | PropertyManager/models/OwnerModel.cs:11-17 | The constructor stores id, national id, name and phone number as given, for any strings (no format check). |
| PropertyModels.PropertyModel.constructor | models/PropertyModel.cs:21-30 | All seven arguments are stored as given. Null name, type or address stay null. The owner id is always set. |
| PropertyModels.Records | models/PropertyModel.cs:11-19 | The value view of a list of property objects has one record per object, in order, each holding that object's current fields. |
| PropertyModels.RecordsKeepWhere | PropertyManager/services/OwnerService.cs:34 | `RemoveAll` on the property objects does to their values what filtering the values does. |
| PropertyModels.KeepWhereKeepsAll | services/PropertyService.cs:30 | A `RemoveAll` that removes nothing leaves the very same list of references. |
| Sequences.FilterMembership | services/PropertyService.cs:46-55 | An element survives a `Where`/`RemoveAll` exactly when it was present and is kept. |
| Sequences.FilterAppend | PropertyManager/services/OwnerService.cs:34 | Filtering distributes over concatenation, so survivors keep their relative order. |
| Sequences.FilterShrinks | services/PropertyService.cs:30-32 | The filter drops something exactly when some element is rejected (`removed > 0`). |
| Sequences.FilterPairwise | PropertyManager/services/OwnerService.cs:34-35 | Removing elements keeps any pairwise relation, such as uniqueness, among the survivors. |
| Sequences.FilterKeepsEverything | services/PropertyService.cs:30 | A filter that rejects nothing returns its input. |
| Sequences.FilterAllKept | PropertyManager/services/OwnerService.cs:34-35 | Every survivor satisfies the keep predicate. |
| Registry.AddOwnerResult | PropertyManager/services/OwnerService.cs:12-28 | Accepted exactly when no owner has the national id and none has the phone number. Accepted: the owner is appended with the old counter as id, the counter goes up by one, and the success message names the owner and the id. Refused: both are unchanged, with the "already exists" message. |
| Registry.RemoveOwnerResult | PropertyManager/services/OwnerService.cs:30-42 | Succeeds exactly when some owner has the id. Success: every property of that owner and the owner itself are removed, and no remaining property or owner has the id. Failure: both lists are unchanged, with the "does not exist" message. |
| Registry.AddPropertyResult | services/PropertyService.cs:11-26 | Accepted exactly when some owner has the property's owner id. Accepted: the property is appended with the old counter as its id, and the counter goes up by one. Refused: the list and counter are unchanged, and the message names the missing owner id. |
| Registry.RemovePropertyResult | services/PropertyService.cs:28-40 | All properties with the id are removed, in order. The result is true exactly when one was there and the list got shorter. A miss leaves the list unchanged. The counter is never touched. |
| RegistryLemmas.AddOwnerKeepsConsistent | PropertyManager/services/OwnerService.cs:14-24 | AddOwner keeps ids, national ids and phone numbers unique, ids below the counter, and every property's owner present. |
| RegistryLemmas.RemoveOwnerKeepsConsistent | PropertyManager/services/OwnerService.cs:32-35 | RemoveOwner keeps the invariant. In particular, the cascade leaves no property without an owner. |
| RegistryLemmas.AddPropertyKeepsConsistent | services/PropertyService.cs:14-23 | AddProperty keeps property ids unique and below the counter, and every property's owner present. |
| RegistryLemmas.RemovePropertyKeepsConsistent | services/PropertyService.cs:30 | RemoveProperty keeps the invariant. |
| RegistryLemmas.RemoveOwnerCascade | PropertyManager/services/OwnerService.cs:34-35 | After a successful RemoveOwner, the remaining properties are exactly the old ones not held by the owner, in their old order. The remaining owners are exactly the others. The owner's property count is 0. |
| RegistryLemmas.CountOwnedByNone | PropertyManager/services/OwnerService.cs:48 | The count is 0 when no property has the owner id. |
| RegistryLemmas.CountOwnedByMultiplicity | PropertyManager/services/OwnerService.cs:48 | `Count(p => p.OwnerId == owner.Id)` is the number of occurrences of that id among the properties' owner ids. |
| RegistryLemmas.OwnerReportShape | PropertyManager/services/OwnerService.cs:44-58 | DisplayOwners writes one block per owner, in list order, each with that owner's property count. An empty owner list writes nothing. |
| RegistryLemmas.RemovePropertyKeepsOthers | services/PropertyService.cs:30-39 | The remaining properties are exactly those with another id. The call succeeds exactly when the list got shorter. |
| RegistryLemmas.MatchesEveryConstraint | services/PropertyService.cs:46-55 | A property is shown exactly when it satisfies every supplied constraint. An omitted or blank filter is ignored. The type match is exact. Name and address match up to case. Area bounds are inclusive. A null field fails a supplied filter. |
| RegistryLemmas.SelectWithoutFilters | services/PropertyService.cs:44-55 | With no filter supplied, every property is shown, in list order. |
| RegistryLemmas.SelectExactlyMatching | services/PropertyService.cs:46-55 | The shown set is exactly the matching properties, and the selection keeps list order. |
| RegistryLemmas.OwnerNameOfFirst | services/PropertyService.cs:59 | The owner name shown is that of the first owner with the id, or null when there is none. |
| RegistryLemmas.OwnerNameOfUnique | services/PropertyService.cs:59 | With unique owner ids, the name shown is that of the one owner with the id. |
| Services.OwnerService.constructor | PropertyManager/services/OwnerService.cs:7-10 | The service starts with an empty list and the counter at 1. |
| Services.OwnerService.AddOwner | PropertyManager/services/OwnerService.cs:12-28 | The new list, counter, result and message are those of `Registry.AddOwner` on the old list and counter. |
| Services.OwnerService.RemoveOwner | PropertyManager/services/OwnerService.cs:30-42 | The new owner list and the values of the shared property list are those of `Registry.RemoveOwner`. On success, the property list is the old list of references minus the owner's, changed in place. On failure, it is the same list. The counter is unchanged. |
| Services.OwnerService.DisplayOwners | PropertyManager/services/OwnerService.cs:44-58 | The foreach writes `Registry.OwnerReport` of the owners and the current values of the given properties. |
| Services.PropertyService.constructor | services/PropertyService.cs:7-9 | The service starts with an empty list and the counter at 1. |
| Services.PropertyService.AddProperty | services/PropertyService.cs:11-26 | The result, message and new counter are those of `Registry.AddProperty`. On success, the object itself is appended and its id is overwritten with the old counter. On failure, list and object are unchanged. |
| Services.PropertyService.RemoveProperty | services/PropertyService.cs:28-40 | The new values and result are those of `Registry.RemoveProperty`. On success, the list is the old references minus those with the id. On failure, it is the same list. |
| Services.PropertyService.DisplayProperties | services/PropertyService.cs:44-72 | The filter and the foreach write `Registry.PropertyReport`: one block per matching property, in order, with the owner name looked up in the given list. |
| Services.KeepWhereRemovesProperty | services/PropertyService.cs:30-32 | `RemoveAll` by id on the objects gives the values `Registry.RemoveProperty` gives. It shortens the list exactly when the call succeeds, and otherwise returns the same list. |
| Text.SkipSpacesSuffix | PropertyManager/core/CommandProcessor.cs:63 | Dropping leading separators leaves a suffix of the input. |
| Text.WordPrefix | PropertyManager/core/CommandProcessor.cs:63 | A word is a prefix without a space, ended by a space or by the end of the input. |
| Text.TokensJoinWords | PropertyManager/core/CommandProcessor.cs:72 | Splitting words joined by single spaces gives back the words. |
| Text.TokensSkipSpaces | PropertyManager/core/CommandProcessor.cs:72 | Leading spaces never change the tokens. |
| Text.CommandLineSplit | PropertyManager/core/CommandProcessor.cs:61-67 | The command word is the first token of the line, or empty when there is none. The argument string is an unsplit suffix of the line, and splitting it gives exactly the remaining tokens. |
| Text.ArgumentsAreSuffix | PropertyManager/core/CommandProcessor.cs:63-65 | The argument string is the tail of the line. |
| Text.BlankLineBlankCommand | PropertyManager/core/CommandProcessor.cs:20-22 | A blank line has a blank command word. |
| Text.ParseShowInt | PropertyManager/core/CommandProcessor.cs:136 | `int.TryParse` reads back every 32-bit value written in decimal, so `{ownerId}` in a command line parses to that id. |
| InterpreterLemmas.ExecuteWords | PropertyManager/core/CommandProcessor.cs:18-59 | A line does what its words say: nothing for no words or a blank first word, else the switch on the first word with the rest as arguments. |
| InterpreterLemmas.BlankLineDoesNothing | PropertyManager/core/CommandProcessor.cs:20-23 | An empty or white-space line changes nothing and writes nothing. |
| InterpreterLemmas.UnknownCommandIsReported | PropertyManager/core/CommandProcessor.cs:55-56 | An unknown command word is echoed in the unknown-command message, and nothing changes. |
| InterpreterLemmas.DispatchReadOnly | PropertyManager/core/CommandProcessor.cs:25-58 | Only the four updating commands can change a registry. |
| InterpreterLemmas.OnlyUpdatingCommandsChangeState | PropertyManager/core/CommandProcessor.cs:18-59 | A line that changes the state starts with add_owner, del_owner, add_prop or del_prop. |
| InterpreterLemmas.DispatchWrongArity | PropertyManager/core/CommandProcessor.cs:72-78 | An updating command with the wrong number of argument words writes its usage and changes nothing (3 for add_owner, 6 for add_prop, 1 for the deletions). |
| InterpreterLemmas.WrongArityIsRefused | PropertyManager/core/CommandProcessor.cs:72-78 | The same, for a whole line. |
| InterpreterLemmas.AddPropertyCommandFirstFailure | PropertyManager/core/CommandProcessor.cs:130-146 | add_prop checks the area, then the owner id, then the price. Only the first failure is reported, and nothing changes. |
| InterpreterLemmas.AddPropertyFirstFailure | PropertyManager/core/CommandProcessor.cs:130-146 | The same, for a whole line. |
| InterpreterLemmas.DispatchBadId | PropertyManager/core/CommandProcessor.cs:99-103 | A del_owner or del_prop id that does not parse is reported with the matching message, and nothing changes. |
| InterpreterLemmas.BadIdIsRefused | PropertyManager/core/CommandProcessor.cs:176-180 | The same, for a whole line. |
| InterpreterLemmas.DispatchKeepsValid | PropertyManager/core/CommandProcessor.cs:25-58 | Every command keeps the registry invariant. |
| InterpreterLemmas.ExecuteKeepsValid | PropertyManager/core/CommandProcessor.cs:18-59 | Every line keeps the registry invariant. |
| InterpreterLemmas.RunKeepsValid | PropertyManager/core/CommandProcessor.cs:275-281 | Every command file keeps the registry invariant. |
| InterpreterLemmas.RunFromStartIsValid | PropertyManager/core/CommandProcessor.cs:275-281 | From two fresh services, every command file leads to a state that satisfies the invariant. |
| InterpreterLemmas.SuccessorTransitive | PropertyManager/services/OwnerService.cs:10 | "Counters only grow, and new entries get ids from the range the counter passed" composes over steps. |
| InterpreterLemmas.DispatchSuccessor | PropertyManager/services/OwnerService.cs:23 | Every command leaves the counters no smaller. Every owner or property it adds has an id between the old and the new counter. |
| InterpreterLemmas.ExecuteSuccessor | services/PropertyService.cs:21 | The same, for one line. |
| InterpreterLemmas.RunSuccessor | PropertyManager/core/CommandProcessor.cs:275-281 | The same, for a whole command file. |
| InterpreterLemmas.RunNeverReusesIds | PropertyManager/services/OwnerService.cs:10 | Whatever a command file does, an owner or property found under an id that was in use is the one that had it. Ids are never reused. |
| Numbering.AddOwnerNumbered | PropertyManager/services/OwnerService.cs:12-27 | `add_owner` with three words moves the owner counter by one exactly when it writes "owner added", and that message carries the old counter value. A refused add moves no counter. The property counter never moves. |
| Numbering.AddPropertyNumbered | services/PropertyService.cs:11-25 | `add_prop` with six words moves the property counter by one exactly when it writes "property added", and that message carries the old counter value. A failure at any step moves no counter. The owner counter never moves. |
| Numbering.DeleteOwnerNumbered | PropertyManager/services/OwnerService.cs:30-42 | `del_owner` announces no id and moves neither counter, whether or not it succeeds. |
| Numbering.DeletePropertyNumbered | services/PropertyService.cs:28-40 | `del_prop` announces no id and moves neither counter, whether or not it succeeds. |
| Numbering.DispatchNumbered | PropertyManager/core/CommandProcessor.cs:25-58 | Every command moves each counter by at most one. A counter moves by one exactly when the command announces an id of that kind, the announced id is the old counter value, and only `add_owner` (`add_prop`) announces an owner (property) id. |
| Numbering.ExecuteNumbered | PropertyManager/core/CommandProcessor.cs:18-59 | The same, for one line. A blank line moves nothing. |
| Numbering.RunNumbered | PropertyManager/core/CommandProcessor.cs:275-281 | Over a whole command file, each counter ends as many places further as ids of its kind were announced. The announced ids are the counter's start value, the next one and so on, in the order they were written. |
| Numbering.RunFromStartNumbering | PropertyManager/services/OwnerService.cs:10-26 | From fresh services, the n-th "owner added" message of a command file carries owner id n. Likewise the n-th "property added" message carries property id n (services/PropertyService.cs:9-24). Each counter ends at one more than the number of successful adds of its kind. |
| InterpreterLemmas.RunAppend | PropertyManager/core/CommandProcessor.cs:277-280 | Running two files one after the other is running their concatenation. |
| InterpreterLemmas.RunOne | PropertyManager/core/CommandProcessor.cs:277-280 | A file of one line does what that line does. |
| InterpreterLemmas.SessionWithoutExit | PropertyManager/core/CommandProcessor.cs:262-272 | Without an exit line, a session changes the state as the file of its lines does. It writes one prompt per line read, plus one at end of input. |
| InterpreterLemmas.SessionStopsAtExit | PropertyManager/core/CommandProcessor.cs:268-269 | A session ignores everything after the first line that equals "exit" in any case. |
| InterpreterLemmas.InteractiveIsRunUntilExit | PropertyManager/core/CommandProcessor.cs:258-273 | An interactive session leaves the state that running the lines before its first exit as a file leaves. |
| ScanLemmas.ScanSkipsOtherWords | PropertyManager/core/CommandProcessor.cs:199-222 | A word that is not a flag is skipped. |
| ScanLemmas.ScanTakesValue | PropertyManager/core/CommandProcessor.cs:203-221 | A flag consumes the next word as its value, whatever that word is, and the scan resumes after it. |
| ScanLemmas.ScanIgnoresLoneWord | PropertyManager/core/CommandProcessor.cs:199 | For any non-empty list of words, a scan that reaches the last word stops there. The last word is never read as a flag, even when it is one. |
| ScanLemmas.ScanPairs | PropertyManager/core/CommandProcessor.cs:199-222 | Flag/value pairs are applied in order, and the scan then goes on with what follows. |
| ScanLemmas.ApplyAllLastWins | PropertyManager/core/CommandProcessor.cs:203-221 | Each filter ends with the value of its last flag. For an area bound, that is the last one whose value parses. A filter no flag names is left as it was. |
| ScanLemmas.ScanFiltersOfPairs | PropertyManager/core/CommandProcessor.cs:192-223 | The filters print_props passes on, for well-formed pairs and at most one stray word. |
| CommandLines.LineOfWords | PropertyManager/core/CommandProcessor.cs:20-25 | Only the words after the command word reach its handler, whatever the spacing. |
| CommandLines.JoinedLine | PropertyManager/core/CommandProcessor.cs:246-256 | A command written with single spaces, as the usage lines show it, splits back into its words. |
| CommandLines.AddOwnerLine | PropertyManager/core/CommandProcessor.cs:70-86 | `add_owner` with three words is OwnerService.AddOwner on them. |
| CommandLines.DeleteOwnerLine | PropertyManager/core/CommandProcessor.cs:89-110 | `del_owner` with an id that parses is OwnerService.RemoveOwner on the id. The failure line is added on a miss. |
| CommandLines.DispatchDeleteOwner | PropertyManager/core/CommandProcessor.cs:99-109 | The same, stated on the argument words. |
| CommandLines.AddPropertyLine | PropertyManager/core/CommandProcessor.cs:113-163 | `add_prop` whose numbers parse is PropertyService.AddProperty on a property with id 0 built from the words. The failure line is added on refusal. |
| CommandLines.DeletePropertyLine | PropertyManager/core/CommandProcessor.cs:166-187 | `del_prop` with an id that parses is PropertyService.RemoveProperty on the id. The failure line is added on a miss. |
| CommandLines.DispatchDeleteProperty | PropertyManager/core/CommandProcessor.cs:176-186 | The same, stated on the argument words. |
| CommandLines.PrintOwnersLine | PropertyManager/core/CommandProcessor.cs:47-49 | `print_owners` writes the owner report, ignores any further words and changes nothing. |
| CommandLines.DispatchPrintOwners | PropertyManager/core/CommandProcessor.cs:47-49 | The same, stated on the argument words. |
| CommandLines.PrintPropertiesLine | PropertyManager/core/CommandProcessor.cs:190-233 | `print_props` with flag/value pairs lists the properties that pass the filters the pairs set, with the last flag of each kind winning. It changes nothing. |
| CommandLines.PrintAllPropertiesLine | PropertyManager/core/CommandProcessor.cs:190-233 | `print_props` alone, or with one stray word, lists every property in order. |
| Processor.CommandProcessor.constructor | PropertyManager/core/CommandProcessor.cs:12-16 | The processor keeps the two services it is given. |
| Processor.CommandProcessor.ExecuteCommand | PropertyManager/core/CommandProcessor.cs:18-59 | The new values of both services and the messages written are those of `Execute` on the old values. |
| Processor.CommandProcessor.RunCommand | PropertyManager/core/CommandProcessor.cs:25-58 | The switch on a non-blank command word does what `Dispatch` says. |
| Processor.CommandProcessor.HandleAddOwner | PropertyManager/core/CommandProcessor.cs:70-86 | The handler does to the services what `AddOwnerCommand` says. |
| Processor.CommandProcessor.HandleDeleteOwner | PropertyManager/core/CommandProcessor.cs:89-110 | The handler does to the services what `DeleteOwnerCommand` says. |
| Processor.CommandProcessor.HandleAddProperty | PropertyManager/core/CommandProcessor.cs:113-163 | The handler does to the services what `AddPropertyCommand` says, with the property object it builds. |
| Processor.CommandProcessor.HandleDeleteProperty | PropertyManager/core/CommandProcessor.cs:166-187 | The handler does to the services what `DeletePropertyCommand` says. |
| Processor.CommandProcessor.HandlePrintProperties | PropertyManager/core/CommandProcessor.cs:190-233 | The scan loop, with its index that jumps over flag values, ends with `ScanFilters` of the words. It writes the property report for those filters. |
| Processor.CommandProcessor.RunFromFile | PropertyManager/core/CommandProcessor.cs:275-281 | Running the lines of a file does what `Run` says. |
| Processor.CommandProcessor.RunInteractive | PropertyManager/core/CommandProcessor.cs:258-273 | The read loop does what `Interactive` says: banner and help, a prompt before each read, a stop at end of input or at exit. |
| Processor.StepRun | PropertyManager/core/CommandProcessor.cs:277-280 | One more line of a file run extends both the state and the output. |
| Processor.StepSession | PropertyManager/core/CommandProcessor.cs:264-271 | One more non-exit line of a session writes a prompt and the line's output. |
| Scenarios.FirstOwnerGetsIdOne | PropertyManager.Tests/CoreTests/CommandProcessorTests.cs:93-114 | The first `add_owner` on fresh services creates the one owner with id 1, holding the given words. |
| Scenarios.DuplicateOwnerIsRefused | PropertyManager/services/OwnerService.cs:14-21 | After an owner is added, an `add_owner` with the same national id or phone number is refused and changes nothing. |
| Scenarios.DeleteOwnerTakesItsProperty | PropertyManager/services/OwnerService.cs:32-37 | Fresh services, add owner 1, add one of its properties, delete owner 1: both lists end empty. |
| Scenarios.TypeFilterScenario | PropertyManager.Tests/CoreTests/CommandProcessorTests.cs:204-232 | Start from services that hold an owner and no property. Add a rent listing and then a sale listing for it with two `add_prop` lines. Then `print_props -type rent` writes one block, for the rent listing, under its owner's name, and changes nothing. |

## Left out

- Console formatting: each line written is a `Message` value with the data it shows, not its text. The text of `ShowHelp` is the single message `HelpText`.
- Console and file I/O: `RunFromFile` takes the lines the file holds, and `RunInteractive` takes the lines the console will deliver, with end of input at their end. Output is the returned list of messages.
- Floating point: a price is an uninterpreted 32-bit pattern. The two culture-specific `float.TryParse` calls are parameters (`PriceParsers`), tried in the source's order.
- Registry.AddOwnerResult: the owner counter is an unbounded integer, so the 32-bit wrap-around of `_nextOwnerId++` after 2^31 additions is not modelled.
- Registry.AddPropertyResult: the property counter is an unbounded integer, so the 32-bit wrap-around of `_nextPropertyId++` is not modelled.
- Text.ParseInt32: models `int.TryParse` for ASCII digits, an optional sign and the surrounding white space. Culture-specific signs are not modelled. Neither are trailing NUL characters, nor non-ASCII digits, which the parser rejects anyway.
- Text.EqualsIgnoreCase: case folding covers ASCII letters only. The ordinal case-insensitive comparison also folds non-ASCII letters.
- The `_ownerService` field that `PropertyService` creates and never uses is not modelled.
- Services.OwnerService.RemoveOwner: the source takes the property list itself. The model takes the `PropertyService` whose list the only caller passes. A list not owned by a `PropertyService` is therefore not covered.
- Services.PropertyService.AddProperty: the agreement with `Registry.AddProperty` is stated only for an object not already in the list. If the list already holds it, the C# overwrites the id of that one shared object, so both entries show the new id. The value-level function would keep the old id in the first entry. The method's own contract gives the new list and the new object in that case too.
- `Program.cs`, `PropertyManager/Program.cs` and the prototype files under `core/`, `services/` and `models/` are not part of this model: they are start-up code, duplicates and prototypes that do not compile.
