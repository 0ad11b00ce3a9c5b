/**
 * The console lines the core writes, one constructor per message; the
 * formatting of each line is not modelled, only which message is written and
 * the values it shows.
 */
module Output {
  import opened Wrappers
  import opened OwnerModels
  import opened PropertyModels

  datatype Message =
    // OwnerService
    | OwnerExists                                               // "Owner cannot be added as it already exists."
    | OwnerAdded(ownerName: Option<string>, id: int)            // "Owner {Name} added successfully with ID {Id}!"
    | OwnerRemoved(id: int)                                     // "Owner {id} removed successfully!"
    | OwnerMissing(id: int)                                     // "Owner {id} does not exist."
    | OwnerBlock(owner: OwnerModel, propertiesOwned: nat)       // the block printed per owner by DisplayOwners
    // PropertyService
    | PropertyOwnerMissing(ownerId: Option<int>)                // "Property cannot be added. Owner with ID {id} does not exist."
    | PropertyAdded(id: int)                                    // "Property with ID {id} has been successfully added!"
    | PropertyRemoved(id: int)                                  // "Property {id} removed successfully!"
    | PropertyMissing(id: int)                                  // "Property with ID: {id} not found, please try again!"
    | PropertyBlock(property: PropertyRecord, ownerName: Option<string>)  // the block printed per property
    // CommandProcessor
    | EnterCommands                                             // "Enter commands (type 'exit' to quit):"
    | Prompt                                                    // "> ", written before each line is read
    | HelpText                                                  // the static command list
    | UnknownCommand(word: string)                              // "Unknown command '{cmd}'. Type 'help' to see available commands."
    | IncorrectArguments(usage: string)                         // "Incorrect command arguments." and the usage line
    | InvalidOwnerId                                            // "Invalid owner ID."
    | InvalidAreaValue                                          // "Invalid area value."
    | InvalidPriceValue                                         // "Invalid price value."
    | InvalidPropertyId                                         // "Invalid property ID."
    | RemoveOwnerFailed                                         // "Failed to remove owner. Owner not found."
    | AddPropertyFailed                                         // "Failed to add property."
    | RemovePropertyFailed                                      // "A property with this id has not been found."
}
