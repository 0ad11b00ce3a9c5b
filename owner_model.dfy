/** The owner record. */
module OwnerModels {
  import opened Wrappers

  /**
   * An owner. The string fields are declared nullable although the only
   * constructor takes non-null strings; the record is never mutated after
   * construction, so it is a value here.
   */
  datatype OwnerModel = OwnerModel(
    id: int,
    nationalId: Option<string>,
    name: Option<string>,
    phoneNumber: Option<string>)

  /**
   * The constructor: stores its four arguments as they are, with no check of
   * the format of the national id or the phone number.
   */
  function NewOwner(id: int, nationalId: string, name: string, phoneNumber: string): (o: OwnerModel)
    ensures o.id == id
    ensures o.nationalId == Some(nationalId) && o.name == Some(name) && o.phoneNumber == Some(phoneNumber)
  {
    OwnerModel(id, Some(nationalId), Some(name), Some(phoneNumber))
  }
}
