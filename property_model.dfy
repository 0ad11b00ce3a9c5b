/** The property listing: a mutable object, and the value it holds at a moment. */
module PropertyModels {
  import opened Wrappers
  import Sequences

  /** A `float` is kept as its IEEE-754 single-precision bit pattern and never interpreted. */
  type Float32 = bv32

  /** The fields of a property object at one moment. */
  datatype PropertyRecord = PropertyRecord(
    propertyId: int,
    name: Option<string>,
    price: Float32,
    propertyType: Option<string>,
    area: int,
    address: Option<string>,
    ownerId: Option<int>)

  /**
   * A property. Every field is settable; the registry overwrites `propertyId`
   * when it inserts the object. `ownerId` has a nullable type, but the
   * constructor always sets it.
   */
  class PropertyModel {
    var propertyId: int
    var name: Option<string>
    var price: Float32
    var propertyType: Option<string>
    var area: int
    var address: Option<string>
    var ownerId: Option<int>

    /** Stores the seven arguments as they are. */
    constructor (id: int, name: Option<string>, price: Float32, propertyType: Option<string>,
                 area: int, address: Option<string>, ownerId: int)
      ensures this.propertyId == id && this.name == name && this.price == price
      ensures this.propertyType == propertyType && this.area == area && this.address == address
      ensures this.ownerId == Some(ownerId)
    {
      this.propertyId := id;
      this.name := name;
      this.price := price;
      this.propertyType := propertyType;
      this.area := area;
      this.address := address;
      this.ownerId := Some(ownerId);
    }

    /** The current field values. */
    function Record(): PropertyRecord
      reads this
    {
      PropertyRecord(propertyId, name, price, propertyType, area, address, ownerId)
    }
  }

  /** The current values of a list of property objects, in list order. */
  function Records(ps: seq<PropertyModel>): (rs: seq<PropertyRecord>)
    reads ps
    ensures |rs| == |ps|
    ensures forall k :: 0 <= k < |ps| ==> rs[k] == ps[k].Record()
  {
    if ps == [] then [] else [ps[0].Record()] + Records(ps[1..])
  }

  /**
   * `list.RemoveAll(p => !keep(p))` on a list of objects, deciding on each
   * object's current values: the surviving references in their original order.
   */
  function KeepWhere(ps: seq<PropertyModel>, keep: PropertyRecord -> bool): (r: seq<PropertyModel>)
    reads ps
    ensures |r| <= |ps|
    ensures forall k :: 0 <= k < |r| ==> r[k] in ps
  {
    if ps == [] then [] else (if keep(ps[0].Record()) then [ps[0]] else []) + KeepWhere(ps[1..], keep)
  }

  /** Removing objects in place has the same effect on the values as filtering them. */
  lemma {:induction false} RecordsKeepWhere(ps: seq<PropertyModel>, keep: PropertyRecord -> bool)
    ensures Records(KeepWhere(ps, keep)) == Sequences.Filter(Records(ps), keep)
  {
    if ps != [] {
      RecordsKeepWhere(ps[1..], keep);
      var head := if keep(ps[0].Record()) then [ps[0]] else [];
      assert ps == [ps[0]] + ps[1..];
      assert Records(ps)[1..] == Records(ps[1..]);
    }
  }

  /** Removing nothing leaves the very same list. */
  lemma {:induction false} KeepWhereKeepsAll(ps: seq<PropertyModel>, keep: PropertyRecord -> bool)
    requires |KeepWhere(ps, keep)| == |ps|
    ensures KeepWhere(ps, keep) == ps
  {
    if ps != [] {
      assert keep(ps[0].Record());
      KeepWhereKeepsAll(ps[1..], keep);
      assert ps == [ps[0]] + ps[1..];
    }
  }

  /** The value view of a concatenation, for proofs whose context is too large to find it unaided. */
  lemma RecordsAppend(a: seq<PropertyModel>, b: seq<PropertyModel>)
    ensures Records(a + b) == Records(a) + Records(b)
  {
  }
}
