/**
 * OwnerService and PropertyService: the two objects that hold the mutable
 * lists, each method proved against the function of the Registry module that
 * says what it does to the values.
 */
module Services {
  import opened Wrappers
  import opened Sequences
  import opened OwnerModels
  import opened PropertyModels
  import opened Output
  import Registry

  /** The owner list and the auto-increment counter for owner ids. */
  class OwnerService {
    var owners: seq<OwnerModel>
    var nextOwnerId: int

    /** An empty list; the first owner gets id 1. */
    constructor ()
      ensures owners == [] && nextOwnerId == 1
    {
      owners := [];
      nextOwnerId := 1;
    }

    /** Adds an owner unless its national id or phone number is already registered. */
    method AddOwner(nationalId: string, name: string, phoneNumber: string) returns (ok: bool, message: Message)
      modifies this
      ensures var r := Registry.AddOwner(old(owners), old(nextOwnerId), nationalId, name, phoneNumber);
              && ok == r.ok && message == r.message
              && owners == r.owners && nextOwnerId == r.nextOwnerId
    {
      if Registry.Taken(owners, nationalId, phoneNumber) {
        return false, OwnerExists;
      }
      var owner := NewOwner(nextOwnerId, nationalId, name, phoneNumber);
      nextOwnerId := nextOwnerId + 1;
      owners := owners + [owner];
      return true, OwnerAdded(owner.name, owner.id);
    }

    /**
     * Removes an existing owner together with every property it holds in the
     * given service's list, which is changed in place; the property objects
     * themselves are left as they are.
     */
    method RemoveOwner(ownerId: int, propertyService: PropertyService) returns (ok: bool, message: Message)
      modifies this, propertyService`properties
      ensures var r := Registry.RemoveOwner(old(owners), old(Records(propertyService.properties)), ownerId);
              && ok == r.ok && message == r.message
              && owners == r.owners && Records(propertyService.properties) == r.properties
      ensures ok ==> propertyService.properties == KeepWhere(old(propertyService.properties), Registry.NotOwnedBy(ownerId))
      ensures !ok ==> propertyService.properties == old(propertyService.properties)
      ensures nextOwnerId == old(nextOwnerId)
    {
      if Registry.HasOwner(owners, Some(ownerId)) {
        ghost var r := Registry.RemoveOwner(owners, Records(propertyService.properties), ownerId);
        var kept := KeepWhere(propertyService.properties, Registry.NotOwnedBy(ownerId));
        RecordsKeepWhere(propertyService.properties, Registry.NotOwnedBy(ownerId));
        assert Records(kept) == r.properties;
        propertyService.properties := kept;
        assert Records(propertyService.properties) == r.properties;
        owners := Filter(owners, Registry.IdIsNot(ownerId));
        return true, OwnerRemoved(ownerId);
      }
      return false, OwnerMissing(ownerId);
    }

    /** One block per owner, in list order, with the number of the given properties it holds. */
    method DisplayOwners(properties: seq<PropertyModel>) returns (out: seq<Message>)
      ensures out == Registry.OwnerReport(owners, Records(properties))
    {
      out := [];
      var i := 0;
      while i < |owners|
        invariant 0 <= i <= |owners|
        invariant |out| == i
        invariant forall k :: 0 <= k < i ==> out[k] == OwnerBlock(owners[k], Registry.CountOwnedBy(Records(properties), owners[k].id))
      {
        var owner := owners[i];
        var count := Registry.CountOwnedBy(Records(properties), owner.id);
        out := out + [OwnerBlock(owner, count)];
        i := i + 1;
      }
    }
  }

  /** The property list and the auto-increment counter for property ids. */
  class PropertyService {
    var properties: seq<PropertyModel>
    var nextPropertyId: int

    /** An empty list; the first property gets id 1. */
    constructor ()
      ensures properties == [] && nextPropertyId == 1
    {
      properties := [];
      nextPropertyId := 1;
    }

    /**
     * Appends the given object, after overwriting its id with the counter,
     * when some owner of the given service has its owner id.
     */
    method AddProperty(property: PropertyModel, ownerService: OwnerService) returns (ok: bool, message: Message)
      modifies this, property
      ensures var r := Registry.AddProperty(old(Records(properties)), old(nextPropertyId), ownerService.owners, old(property.Record()));
              && ok == r.ok && message == r.message && nextPropertyId == r.nextPropertyId
              && (property !in old(properties) ==> Records(properties) == r.properties)
      ensures properties == if ok then old(properties) + [property] else old(properties)
      ensures property.Record() == if ok then old(property.Record()).(propertyId := old(nextPropertyId)) else old(property.Record())
    {
      if !Registry.HasOwner(ownerService.owners, property.ownerId) {
        return false, PropertyOwnerMissing(property.ownerId);
      }
      property.propertyId := nextPropertyId;
      nextPropertyId := nextPropertyId + 1;
      properties := properties + [property];
      RecordsAppend(old(properties), [property]);
      return true, PropertyAdded(property.propertyId);
    }

    /** Removes every property with the id; succeeds when at least one went. */
    method RemoveProperty(propertyId: int) returns (ok: bool, message: Message)
      modifies this
      ensures var r := Registry.RemoveProperty(old(Records(properties)), old(nextPropertyId), propertyId);
              && ok == r.ok && message == r.message
              && Records(properties) == r.properties && nextPropertyId == r.nextPropertyId
      ensures ok ==> properties == KeepWhere(old(properties), Registry.PropertyIdIsNot(propertyId))
      ensures !ok ==> properties == old(properties)
    {
      var kept := KeepWhere(properties, Registry.PropertyIdIsNot(propertyId));
      KeepWhereRemovesProperty(properties, nextPropertyId, propertyId);
      var removed := |properties| - |kept|;
      properties := kept;
      if removed > 0 {
        return true, PropertyRemoved(propertyId);
      }
      return false, PropertyMissing(propertyId);
    }

    /**
     * One block per property that passes the filters, in list order, with the
     * name of the first of the given owners that has its owner id.
     */
    method DisplayProperties(owners: seq<OwnerModel>, f: Registry.Filters) returns (out: seq<Message>)
      ensures out == Registry.PropertyReport(owners, Records(properties), f)
    {
      var filtered := KeepWhere(properties, Registry.Matching(f));
      RecordsKeepWhere(properties, Registry.Matching(f));
      ghost var selected := Registry.Select(Records(properties), f);
      assert Records(filtered) == selected;
      out := [];
      var i := 0;
      while i < |filtered|
        invariant 0 <= i <= |filtered|
        invariant |out| == i
        invariant forall k :: 0 <= k < i ==>
                    out[k] == PropertyBlock(selected[k], Registry.OwnerNameOf(owners, selected[k].ownerId))
      {
        var property := filtered[i];
        assert property.Record() == selected[i];
        var ownerName := Registry.OwnerNameOf(owners, property.ownerId);
        out := out + [PropertyBlock(property.Record(), ownerName)];
        i := i + 1;
      }
    }
  }

  /** RemoveAll on the property objects does to their values what Registry.RemoveProperty says. */
  lemma KeepWhereRemovesProperty(ps: seq<PropertyModel>, nextPropertyId: int, propertyId: int)
    ensures var r := Registry.RemoveProperty(Records(ps), nextPropertyId, propertyId);
            var kept := KeepWhere(ps, Registry.PropertyIdIsNot(propertyId));
            && Records(kept) == r.properties
            && (r.ok <==> |kept| < |ps|)
            && (!r.ok ==> kept == ps)
  {
    var kept := KeepWhere(ps, Registry.PropertyIdIsNot(propertyId));
    RecordsKeepWhere(ps, Registry.PropertyIdIsNot(propertyId));
    if |kept| == |ps| {
      KeepWhereKeepsAll(ps, Registry.PropertyIdIsNot(propertyId));
    }
  }
}
