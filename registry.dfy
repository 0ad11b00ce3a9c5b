/**
 * The two registries on values: the owner list with its id counter
 * (OwnerService) and the property list with its id counter (PropertyService),
 * each operation as a function from the old lists and counters to the new
 * ones and the message it writes.
 */
module Registry {
  import opened Wrappers
  import opened Sequences
  import opened Text
  import opened OwnerModels
  import opened PropertyModels
  import opened Output

  // ---------------------------------------------------------------------------
  // Owners

  /** `_owners.Any(o => o.NationalId == nationalId || o.PhoneNumber == phoneNumber)`. */
  predicate Taken(owners: seq<OwnerModel>, nationalId: string, phoneNumber: string)
  {
    exists k :: 0 <= k < |owners| && (owners[k].nationalId == Some(nationalId) || owners[k].phoneNumber == Some(phoneNumber))
  }

  /** `owners.Any(o => o.Id == id)`, where a null id matches no owner. */
  predicate HasOwner(owners: seq<OwnerModel>, id: Option<int>)
  {
    exists k :: 0 <= k < |owners| && Some(owners[k].id) == id
  }

  /** The owner list and counter after an OwnerService call, with its result and message. */
  datatype OwnerUpdate = OwnerUpdate(owners: seq<OwnerModel>, nextOwnerId: int, ok: bool, message: Message)

  /**
   * OwnerService.AddOwner: refused when some owner already has the national id
   * or the phone number (either one is enough); otherwise one owner is appended
   * with the current counter value as its id, and the counter moves on by one.
   */
  function AddOwner(owners: seq<OwnerModel>, nextOwnerId: int, nationalId: string, name: string, phoneNumber: string): OwnerUpdate
  {
    if Taken(owners, nationalId, phoneNumber) then
      OwnerUpdate(owners, nextOwnerId, false, OwnerExists)
    else
      OwnerUpdate(owners + [NewOwner(nextOwnerId, nationalId, name, phoneNumber)], nextOwnerId + 1, true,
                  OwnerAdded(Some(name), nextOwnerId))
  }

  lemma AddOwnerResult(owners: seq<OwnerModel>, nextOwnerId: int, nationalId: string, name: string, phoneNumber: string)
    ensures var r := AddOwner(owners, nextOwnerId, nationalId, name, phoneNumber);
            && (r.ok <==> forall k :: 0 <= k < |owners| ==>
                            owners[k].nationalId != Some(nationalId) && owners[k].phoneNumber != Some(phoneNumber))
            && (r.ok ==> && r.owners == owners + [NewOwner(nextOwnerId, nationalId, name, phoneNumber)]
                         && r.nextOwnerId == nextOwnerId + 1
                         && r.message == OwnerAdded(Some(name), nextOwnerId))
            && (!r.ok ==> r.owners == owners && r.nextOwnerId == nextOwnerId && r.message == OwnerExists)
  {
  }

  /** Keeps an owner whose id is not `id`. */
  function IdIsNot(id: int): OwnerModel -> bool
  {
    (o: OwnerModel) => o.id != id
  }

  /** Keeps a property that `ownerId` does not own (a null owner id is owned by nobody). */
  function NotOwnedBy(ownerId: int): PropertyRecord -> bool
  {
    (p: PropertyRecord) => p.ownerId != Some(ownerId)
  }

  /** Both lists after OwnerService.RemoveOwner, with its result and message. */
  datatype CascadeUpdate = CascadeUpdate(owners: seq<OwnerModel>, properties: seq<PropertyRecord>, ok: bool, message: Message)

  /**
   * OwnerService.RemoveOwner: refused, with nothing changed, when no owner has
   * the id; otherwise every property that owner holds is removed from the given
   * property list, and then the owner itself.
   */
  function RemoveOwner(owners: seq<OwnerModel>, properties: seq<PropertyRecord>, ownerId: int): CascadeUpdate
  {
    if HasOwner(owners, Some(ownerId)) then
      CascadeUpdate(Filter(owners, IdIsNot(ownerId)), Filter(properties, NotOwnedBy(ownerId)), true, OwnerRemoved(ownerId))
    else
      CascadeUpdate(owners, properties, false, OwnerMissing(ownerId))
  }

  lemma RemoveOwnerResult(owners: seq<OwnerModel>, properties: seq<PropertyRecord>, ownerId: int)
    ensures var r := RemoveOwner(owners, properties, ownerId);
            && (r.ok <==> exists k :: 0 <= k < |owners| && owners[k].id == ownerId)
            && (!r.ok ==> r.owners == owners && r.properties == properties && r.message == OwnerMissing(ownerId))
            && (r.ok ==> && r.message == OwnerRemoved(ownerId)
                         && r.owners == Filter(owners, IdIsNot(ownerId))
                         && r.properties == Filter(properties, NotOwnedBy(ownerId)))
            && (r.ok ==> forall k :: 0 <= k < |r.properties| ==> r.properties[k].ownerId != Some(ownerId))
            && (r.ok ==> forall k :: 0 <= k < |r.owners| ==> r.owners[k].id != ownerId)
  {
    FilterAllKept(properties, NotOwnedBy(ownerId));
    FilterAllKept(owners, IdIsNot(ownerId));
  }

  /** `properties.Count(p => p.OwnerId == ownerId)`. */
  function CountOwnedBy(properties: seq<PropertyRecord>, ownerId: int): nat
  {
    if properties == [] then 0
    else (if properties[0].ownerId == Some(ownerId) then 1 else 0) + CountOwnedBy(properties[1..], ownerId)
  }

  /** What OwnerService.DisplayOwners writes: one block per owner, in list order, with its property count. */
  function OwnerReport(owners: seq<OwnerModel>, properties: seq<PropertyRecord>): seq<Message>
  {
    seq(|owners|, k requires 0 <= k < |owners| => OwnerBlock(owners[k], CountOwnedBy(properties, owners[k].id)))
  }

  // ---------------------------------------------------------------------------
  // Properties

  /** The property list and counter after a PropertyService call, with its result and message. */
  datatype PropertyUpdate = PropertyUpdate(properties: seq<PropertyRecord>, nextPropertyId: int, ok: bool, message: Message)

  /**
   * PropertyService.AddProperty: refused, with nothing changed, when no owner
   * has the property's owner id; otherwise the property gets the current
   * counter value as its id and is appended, and the counter moves on by one.
   */
  function AddProperty(properties: seq<PropertyRecord>, nextPropertyId: int, owners: seq<OwnerModel>, draft: PropertyRecord): PropertyUpdate
  {
    if !HasOwner(owners, draft.ownerId) then
      PropertyUpdate(properties, nextPropertyId, false, PropertyOwnerMissing(draft.ownerId))
    else
      PropertyUpdate(properties + [draft.(propertyId := nextPropertyId)], nextPropertyId + 1, true,
                     PropertyAdded(nextPropertyId))
  }

  lemma AddPropertyResult(properties: seq<PropertyRecord>, nextPropertyId: int, owners: seq<OwnerModel>, draft: PropertyRecord)
    ensures var r := AddProperty(properties, nextPropertyId, owners, draft);
            && (r.ok <==> exists k :: 0 <= k < |owners| && Some(owners[k].id) == draft.ownerId)
            && (r.ok ==> && r.properties == properties + [draft.(propertyId := nextPropertyId)]
                         && r.nextPropertyId == nextPropertyId + 1
                         && r.message == PropertyAdded(nextPropertyId))
            && (!r.ok ==> && r.properties == properties && r.nextPropertyId == nextPropertyId
                          && r.message == PropertyOwnerMissing(draft.ownerId))
  {
  }

  /** Keeps a property whose id is not `id`. */
  function PropertyIdIsNot(id: int): PropertyRecord -> bool
  {
    (p: PropertyRecord) => p.propertyId != id
  }

  /**
   * PropertyService.RemoveProperty: removes every property with the id, and
   * succeeds exactly when at least one was removed; the counter is untouched.
   */
  function RemoveProperty(properties: seq<PropertyRecord>, nextPropertyId: int, propertyId: int): PropertyUpdate
  {
    var kept := Filter(properties, PropertyIdIsNot(propertyId));
    if |kept| < |properties| then
      PropertyUpdate(kept, nextPropertyId, true, PropertyRemoved(propertyId))
    else
      PropertyUpdate(properties, nextPropertyId, false, PropertyMissing(propertyId))
  }

  lemma RemovePropertyResult(properties: seq<PropertyRecord>, nextPropertyId: int, propertyId: int)
    ensures var r := RemoveProperty(properties, nextPropertyId, propertyId);
            && (r.ok <==> exists k :: 0 <= k < |properties| && properties[k].propertyId == propertyId)
            && (r.ok <==> |r.properties| < |properties|)
            && r.properties == Filter(properties, PropertyIdIsNot(propertyId))
            && r.nextPropertyId == nextPropertyId
            && (forall k :: 0 <= k < |r.properties| ==> r.properties[k].propertyId != propertyId)
            && (!r.ok ==> r.properties == properties && r.message == PropertyMissing(propertyId))
            && (r.ok ==> r.message == PropertyRemoved(propertyId))
  {
    FilterShrinks(properties, PropertyIdIsNot(propertyId));
    FilterAllKept(properties, PropertyIdIsNot(propertyId));
    if |Filter(properties, PropertyIdIsNot(propertyId))| == |properties| {
      FilterKeepsEverything(properties, PropertyIdIsNot(propertyId));
    }
  }

  /** The optional arguments of DisplayProperties; None is an omitted argument. */
  datatype Filters = Filters(
    propertyType: Option<string>,
    minArea: Option<int>,
    maxArea: Option<int>,
    name: Option<string>,
    address: Option<string>)

  const NoFilters := Filters(None, None, None, None, None)

  /**
   * The `Where` predicate of DisplayProperties: a conjunction of the supplied
   * filters. A null or whitespace-only string filter is ignored; the type must
   * match exactly and the name and address up to case; a null field fails a
   * supplied filter; the area bounds are inclusive.
   */
  predicate Matches(p: PropertyRecord, f: Filters)
  {
    && (IsNullOrWhiteSpace(f.propertyType) || (p.propertyType.Some? && p.propertyType.value == f.propertyType.value))
    && (f.minArea.None? || p.area >= f.minArea.value)
    && (f.maxArea.None? || p.area <= f.maxArea.value)
    && (IsNullOrWhiteSpace(f.name) || (p.name.Some? && EqualsIgnoreCase(p.name.value, f.name.value)))
    && (IsNullOrWhiteSpace(f.address) || (p.address.Some? && EqualsIgnoreCase(p.address.value, f.address.value)))
  }

  function Matching(f: Filters): PropertyRecord -> bool
  {
    (p: PropertyRecord) => Matches(p, f)
  }

  /** `_properties.Where(...).ToList()`. */
  function Select(properties: seq<PropertyRecord>, f: Filters): seq<PropertyRecord>
  {
    Filter(properties, Matching(f))
  }

  /** `owners.FirstOrDefault(o => o.Id == ownerId)?.Name`. */
  function OwnerNameOf(owners: seq<OwnerModel>, ownerId: Option<int>): Option<string>
  {
    if owners == [] then None
    else if Some(owners[0].id) == ownerId then owners[0].name
    else OwnerNameOf(owners[1..], ownerId)
  }

  /** What DisplayProperties writes: one block per selected property, in list order, with its owner's name. */
  function PropertyReport(owners: seq<OwnerModel>, properties: seq<PropertyRecord>, f: Filters): seq<Message>
  {
    var selected := Select(properties, f);
    seq(|selected|, k requires 0 <= k < |selected| => PropertyBlock(selected[k], OwnerNameOf(owners, selected[k].ownerId)))
  }

  // ---------------------------------------------------------------------------
  // The invariant the two registries keep together

  /** No two owners share an id, a national id or a phone number. */
  predicate OwnersApart(a: OwnerModel, b: OwnerModel)
  {
    a.id != b.id && a.nationalId != b.nationalId && a.phoneNumber != b.phoneNumber
  }

  predicate PropertiesApart(a: PropertyRecord, b: PropertyRecord)
  {
    a.propertyId != b.propertyId
  }

  /**
   * Uniqueness of owner ids, national ids and phone numbers and of property ids;
   * every id below its counter (which starts at 1); every property's owner alive.
   */
  ghost predicate Consistent(owners: seq<OwnerModel>, nextOwnerId: int, properties: seq<PropertyRecord>, nextPropertyId: int)
  {
    && 1 <= nextOwnerId && 1 <= nextPropertyId
    && Pairwise(owners, OwnersApart)
    && (forall k :: 0 <= k < |owners| ==> 1 <= owners[k].id < nextOwnerId)
    && Pairwise(properties, PropertiesApart)
    && (forall k :: 0 <= k < |properties| ==> 1 <= properties[k].propertyId < nextPropertyId)
    && (forall k :: 0 <= k < |properties| ==> HasOwner(owners, properties[k].ownerId))
  }
}
