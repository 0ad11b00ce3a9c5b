/** What the registry operations promise, beyond a single call. */
module RegistryLemmas {
  import opened Wrappers
  import opened Sequences
  import opened Text
  import opened OwnerModels
  import opened PropertyModels
  import opened Output
  import opened Registry

  // ---------------------------------------------------------------------------
  // The invariant is kept by every operation

  lemma AddOwnerKeepsConsistent(owners: seq<OwnerModel>, nextOwnerId: int, properties: seq<PropertyRecord>,
                                nextPropertyId: int, nationalId: string, name: string, phoneNumber: string)
    requires Consistent(owners, nextOwnerId, properties, nextPropertyId)
    ensures var r := AddOwner(owners, nextOwnerId, nationalId, name, phoneNumber);
            Consistent(r.owners, r.nextOwnerId, properties, nextPropertyId)
  {
    var r := AddOwner(owners, nextOwnerId, nationalId, name, phoneNumber);
    if r.ok {
      var o := NewOwner(nextOwnerId, nationalId, name, phoneNumber);
      var os := r.owners;
      assert os == owners + [o];
      forall i, j | 0 <= i < j < |os| ensures OwnersApart(os[i], os[j]) {
        if j == |owners| {
          assert os[i] == owners[i] && os[j] == o;
        } else {
          assert os[i] == owners[i] && os[j] == owners[j];
        }
      }
      forall k | 0 <= k < |properties| ensures HasOwner(os, properties[k].ownerId) {
        var m :| 0 <= m < |owners| && Some(owners[m].id) == properties[k].ownerId;
        assert os[m] == owners[m];
      }
    }
  }

  lemma RemoveOwnerKeepsConsistent(owners: seq<OwnerModel>, nextOwnerId: int, properties: seq<PropertyRecord>,
                                   nextPropertyId: int, ownerId: int)
    requires Consistent(owners, nextOwnerId, properties, nextPropertyId)
    ensures var r := RemoveOwner(owners, properties, ownerId);
            Consistent(r.owners, nextOwnerId, r.properties, nextPropertyId)
  {
    var r := RemoveOwner(owners, properties, ownerId);
    if r.ok {
      var os, ps := r.owners, r.properties;
      assert os == Filter(owners, IdIsNot(ownerId)) && ps == Filter(properties, NotOwnedBy(ownerId));
      FilterPairwise(owners, IdIsNot(ownerId), OwnersApart);
      FilterPairwise(properties, NotOwnedBy(ownerId), PropertiesApart);
      forall k | 0 <= k < |os| ensures 1 <= os[k].id < nextOwnerId {
        FilterMembership(owners, IdIsNot(ownerId), os[k]);
      }
      forall k | 0 <= k < |ps|
        ensures 1 <= ps[k].propertyId < nextPropertyId && HasOwner(os, ps[k].ownerId)
      {
        var p := ps[k];
        FilterMembership(properties, NotOwnedBy(ownerId), p);
        var i :| 0 <= i < |properties| && properties[i] == p;
        var m :| 0 <= m < |owners| && Some(owners[m].id) == p.ownerId;
        FilterMembership(owners, IdIsNot(ownerId), owners[m]);
        var n :| 0 <= n < |os| && os[n] == owners[m];
      }
    }
  }

  lemma AddPropertyKeepsConsistent(owners: seq<OwnerModel>, nextOwnerId: int, properties: seq<PropertyRecord>,
                                   nextPropertyId: int, draft: PropertyRecord)
    requires Consistent(owners, nextOwnerId, properties, nextPropertyId)
    ensures var r := AddProperty(properties, nextPropertyId, owners, draft);
            Consistent(owners, nextOwnerId, r.properties, r.nextPropertyId)
  {
    var r := AddProperty(properties, nextPropertyId, owners, draft);
    if r.ok {
      var p := draft.(propertyId := nextPropertyId);
      var ps := r.properties;
      assert ps == properties + [p];
      forall i, j | 0 <= i < j < |ps| ensures PropertiesApart(ps[i], ps[j]) {
        assert ps[i] == properties[i];
        if j < |properties| { assert ps[j] == properties[j]; }
      }
      forall k | 0 <= k < |ps| ensures 1 <= ps[k].propertyId < r.nextPropertyId && HasOwner(owners, ps[k].ownerId) {
        if k < |properties| { assert ps[k] == properties[k]; }
      }
    }
  }

  lemma RemovePropertyKeepsConsistent(owners: seq<OwnerModel>, nextOwnerId: int, properties: seq<PropertyRecord>,
                                      nextPropertyId: int, propertyId: int)
    requires Consistent(owners, nextOwnerId, properties, nextPropertyId)
    ensures var r := RemoveProperty(properties, nextPropertyId, propertyId);
            Consistent(owners, nextOwnerId, r.properties, r.nextPropertyId)
  {
    var r := RemoveProperty(properties, nextPropertyId, propertyId);
    var ps := r.properties;
    if r.ok {
      assert ps == Filter(properties, PropertyIdIsNot(propertyId));
      FilterPairwise(properties, PropertyIdIsNot(propertyId), PropertiesApart);
      forall k | 0 <= k < |ps| ensures 1 <= ps[k].propertyId < nextPropertyId && HasOwner(owners, ps[k].ownerId) {
        FilterMembership(properties, PropertyIdIsNot(propertyId), ps[k]);
      }
    }
  }

  // ---------------------------------------------------------------------------
  // The cascade of RemoveOwner

  /**
   * A successful RemoveOwner keeps exactly the properties the owner did not
   * hold, in their original order, and exactly the other owners.
   */
  lemma RemoveOwnerCascade(owners: seq<OwnerModel>, properties: seq<PropertyRecord>, ownerId: int)
    ensures var r := RemoveOwner(owners, properties, ownerId);
            r.ok ==>
              && (forall p :: p in r.properties <==> p in properties && p.ownerId != Some(ownerId))
              && (forall o :: o in r.owners <==> o in owners && o.id != ownerId)
              && CountOwnedBy(r.properties, ownerId) == 0
              && (forall a, b :: properties == a + b ==>
                    r.properties == Filter(a, NotOwnedBy(ownerId)) + Filter(b, NotOwnedBy(ownerId)))
  {
    var r := RemoveOwner(owners, properties, ownerId);
    if r.ok {
      forall p ensures p in r.properties <==> p in properties && p.ownerId != Some(ownerId) {
        FilterMembership(properties, NotOwnedBy(ownerId), p);
      }
      forall o ensures o in r.owners <==> o in owners && o.id != ownerId {
        FilterMembership(owners, IdIsNot(ownerId), o);
      }
      CountOwnedByNone(r.properties, ownerId);
      forall a, b | properties == a + b
        ensures r.properties == Filter(a, NotOwnedBy(ownerId)) + Filter(b, NotOwnedBy(ownerId))
      {
        FilterAppend(a, b, NotOwnedBy(ownerId));
      }
    }
  }

  lemma {:induction false} CountOwnedByNone(properties: seq<PropertyRecord>, ownerId: int)
    requires forall k :: 0 <= k < |properties| ==> properties[k].ownerId != Some(ownerId)
    ensures CountOwnedBy(properties, ownerId) == 0
  {
    if properties != [] {
      CountOwnedByNone(properties[1..], ownerId);
    }
  }

  // ---------------------------------------------------------------------------
  // Counting the properties of an owner

  /** The owner ids of a property list, in order. */
  function OwnerIds(properties: seq<PropertyRecord>): (ids: seq<Option<int>>)
    ensures |ids| == |properties|
    ensures forall k :: 0 <= k < |properties| ==> ids[k] == properties[k].ownerId
  {
    seq(|properties|, k requires 0 <= k < |properties| => properties[k].ownerId)
  }

  /** The count DisplayOwners shows is the number of occurrences of the owner's id among the properties. */
  lemma {:induction false} CountOwnedByMultiplicity(properties: seq<PropertyRecord>, ownerId: int)
    ensures CountOwnedBy(properties, ownerId) == multiset(OwnerIds(properties))[Some(ownerId)]
  {
    if properties != [] {
      CountOwnedByMultiplicity(properties[1..], ownerId);
      assert OwnerIds(properties) == [properties[0].ownerId] + OwnerIds(properties[1..]);
    }
  }

  /** The report on an empty owner list is empty; otherwise it has one block per owner, in order. */
  lemma OwnerReportShape(owners: seq<OwnerModel>, properties: seq<PropertyRecord>)
    ensures var out := OwnerReport(owners, properties);
            && |out| == |owners|
            && forall k :: 0 <= k < |owners| ==>
                 out[k] == OwnerBlock(owners[k], multiset(OwnerIds(properties))[Some(owners[k].id)])
  {
    forall k | 0 <= k < |owners| {
      CountOwnedByMultiplicity(properties, owners[k].id);
    }
  }

  // ---------------------------------------------------------------------------
  // RemoveProperty

  /** A successful RemoveProperty keeps exactly the properties with another id, in order. */
  lemma RemovePropertyKeepsOthers(properties: seq<PropertyRecord>, nextPropertyId: int, propertyId: int)
    ensures var r := RemoveProperty(properties, nextPropertyId, propertyId);
            && (forall p :: p in r.properties <==> p in properties && p.propertyId != propertyId)
            && (|r.properties| < |properties| <==> r.ok)
  {
    var r := RemoveProperty(properties, nextPropertyId, propertyId);
    RemovePropertyResult(properties, nextPropertyId, propertyId);
    forall p ensures p in r.properties <==> p in properties && p.propertyId != propertyId {
      FilterMembership(properties, PropertyIdIsNot(propertyId), p);
    }
    FilterShrinks(properties, PropertyIdIsNot(propertyId));
  }

  // ---------------------------------------------------------------------------
  // The filter of DisplayProperties

  /** One supplied filter, as a constraint on a property. */
  datatype Constraint =
    | TypeIs(propertyType: string)
    | AreaAtLeast(bound: int)
    | AreaAtMost(bound: int)
    | NameIs(name: string)
    | AddressIs(address: string)

  predicate Satisfies(p: PropertyRecord, c: Constraint)
  {
    match c
    case TypeIs(t) => p.propertyType == Some(t)
    case AreaAtLeast(n) => n <= p.area
    case AreaAtMost(n) => p.area <= n
    case NameIs(s) => p.name.Some? && EqualsIgnoreCase(p.name.value, s)
    case AddressIs(s) => p.address.Some? && EqualsIgnoreCase(p.address.value, s)
  }

  /** The constraints the supplied filters impose: nothing for an omitted or blank one. */
  function Constraints(f: Filters): seq<Constraint>
  {
    (if IsNullOrWhiteSpace(f.propertyType) then [] else [TypeIs(f.propertyType.value)])
    + (if f.minArea.None? then [] else [AreaAtLeast(f.minArea.value)])
    + (if f.maxArea.None? then [] else [AreaAtMost(f.maxArea.value)])
    + (if IsNullOrWhiteSpace(f.name) then [] else [NameIs(f.name.value)])
    + (if IsNullOrWhiteSpace(f.address) then [] else [AddressIs(f.address.value)])
  }

  /** A property is displayed exactly when it satisfies every constraint the supplied filters impose. */
  lemma MatchesEveryConstraint(p: PropertyRecord, f: Filters)
    ensures Matches(p, f) <==> forall c :: c in Constraints(f) ==> Satisfies(p, c)
  {
    var cs := Constraints(f);
    if Matches(p, f) {
      forall c | c in cs ensures Satisfies(p, c) {}
    } else {
      if !(IsNullOrWhiteSpace(f.propertyType) || (p.propertyType.Some? && p.propertyType.value == f.propertyType.value)) {
        assert TypeIs(f.propertyType.value) in cs && !Satisfies(p, TypeIs(f.propertyType.value));
      } else if !(f.minArea.None? || p.area >= f.minArea.value) {
        assert AreaAtLeast(f.minArea.value) in cs;
      } else if !(f.maxArea.None? || p.area <= f.maxArea.value) {
        assert AreaAtMost(f.maxArea.value) in cs;
      } else if !(IsNullOrWhiteSpace(f.name) || (p.name.Some? && EqualsIgnoreCase(p.name.value, f.name.value))) {
        assert NameIs(f.name.value) in cs;
      } else {
        assert AddressIs(f.address.value) in cs;
      }
    }
  }

  /** With no filter supplied every property is displayed, in list order. */
  lemma SelectWithoutFilters(properties: seq<PropertyRecord>)
    ensures Select(properties, NoFilters) == properties
  {
    FilterKeepsEverything(properties, Matching(NoFilters));
  }

  /** The displayed properties are exactly the matching ones, and the selection keeps list order. */
  lemma SelectExactlyMatching(properties: seq<PropertyRecord>, f: Filters)
    ensures forall p :: p in Select(properties, f) <==> p in properties && Matches(p, f)
    ensures forall a, b :: properties == a + b ==> Select(properties, f) == Select(a, f) + Select(b, f)
  {
    forall p ensures p in Select(properties, f) <==> p in properties && Matches(p, f) {
      FilterMembership(properties, Matching(f), p);
    }
    forall a, b | properties == a + b ensures Select(properties, f) == Select(a, f) + Select(b, f) {
      FilterAppend(a, b, Matching(f));
    }
  }

  // ---------------------------------------------------------------------------
  // The owner name shown beside a property

  /** The name shown is that of the first owner with the id, and null when there is none. */
  lemma {:induction false} OwnerNameOfFirst(owners: seq<OwnerModel>, ownerId: Option<int>)
    ensures (forall k :: 0 <= k < |owners| ==> Some(owners[k].id) != ownerId) ==> OwnerNameOf(owners, ownerId) == None
    ensures forall k :: 0 <= k < |owners| && Some(owners[k].id) == ownerId
                        && (forall j :: 0 <= j < k ==> Some(owners[j].id) != ownerId)
                        ==> OwnerNameOf(owners, ownerId) == owners[k].name
  {
    if owners != [] {
      var tail := owners[1..];
      OwnerNameOfFirst(tail, ownerId);
      forall k | 0 <= k < |owners| && Some(owners[k].id) == ownerId
                 && (forall j :: 0 <= j < k ==> Some(owners[j].id) != ownerId)
        ensures OwnerNameOf(owners, ownerId) == owners[k].name
      {
        if k > 0 {
          assert owners[k] == tail[k - 1];
          forall j | 0 <= j < k - 1 ensures Some(tail[j].id) != ownerId {
            assert tail[j] == owners[j + 1];
          }
        }
      }
      if forall k :: 0 <= k < |owners| ==> Some(owners[k].id) != ownerId {
        forall k | 0 <= k < |tail| ensures Some(tail[k].id) != ownerId {
          assert tail[k] == owners[k + 1];
        }
      }
    }
  }

  /** With unique owner ids, the name shown is that of the one owner with the id. */
  lemma OwnerNameOfUnique(owners: seq<OwnerModel>, k: int)
    requires Pairwise(owners, OwnersApart)
    requires 0 <= k < |owners|
    ensures OwnerNameOf(owners, Some(owners[k].id)) == owners[k].name
  {
    forall j | 0 <= j < k ensures Some(owners[j].id) != Some(owners[k].id) {
      assert OwnersApart(owners[j], owners[k]);
    }
    OwnerNameOfFirst(owners, Some(owners[k].id));
  }
}
