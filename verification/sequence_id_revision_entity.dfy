/** The revision entity whose numbers come from a database sequence: a 32-bit
    revision number and a 64-bit timestamp, compared and hashed on both. Java's
    `int` and `long` are `bv32` and `bv64`, so arithmetic wraps around. */
module SequenceIdRevision {

  /** A Java reference as `equals` sees it. */
  datatype JavaObject = Null | RevisionEntityRef(entity: SequenceIdRevisionEntity) | OtherObject(n: nat)

  /** `(int) (timestamp ^ (timestamp >>> 32))`: the low half of the timestamp
      combined with its high half, truncated to 32 bits. */
  function FoldedTimestamp(timestamp: bv64): (folded: bv32)
  {
    ((timestamp ^ (timestamp >> 32)) & 0xFFFF_FFFF) as bv32
  }


  /** `hashCode` of an entity with these fields: `31 * id + folded timestamp`, in
      32-bit wrap-around arithmetic. */
  function Hash(id: bv32, timestamp: bv64): (h: bv32)
  {
    31 * id + FoldedTimestamp(timestamp)
  }

  class SequenceIdRevisionEntity {
    var id: bv32
    var timestamp: bv64

    constructor ()
      ensures id == 0 && timestamp == 0
    {
      id := 0;
      timestamp := 0;
    }

    function GetId(): (r: bv32)
      reads this
      ensures r == id
    {
      id
    }

    method SetId(id: bv32)
      modifies this
      ensures GetId() == id && GetTimestamp() == old(GetTimestamp())
    {
      this.id := id;
    }

    function GetTimestamp(): (r: bv64)
      reads this
      ensures r == timestamp
    {
      timestamp
    }

    method SetTimestamp(timestamp: bv64)
      modifies this
      ensures GetTimestamp() == timestamp && GetId() == old(GetId())
    {
      this.timestamp := timestamp;
    }

    /** `equals`: the same object, or another revision entity with the same id and
        timestamp; never null or an object of another class. */
    function Equals(o: JavaObject): (r: bool)
      reads this, if o.RevisionEntityRef? then {o.entity} else {}
      ensures !o.RevisionEntityRef? ==> !r
      ensures o.RevisionEntityRef? ==> (r <==> id == o.entity.id && timestamp == o.entity.timestamp)
    {
      if o.RevisionEntityRef? && o.entity == this then true
      else if !o.RevisionEntityRef? then false
      else
        var that := o.entity;
        id == that.id && timestamp == that.timestamp
    }

    /** `hashCode`: the hash of the entity's current id and timestamp, so entities
        that are equal hash alike (`EqualsImpliesSameHash`). */
    function HashCode(): (h: bv32)
      reads this
      ensures h == Hash(GetId(), GetTimestamp())
    {
      Hash(id, timestamp)
    }
  }

  /** `equals` is reflexive. */
  lemma EqualsReflexive(e: SequenceIdRevisionEntity)
    ensures e.Equals(RevisionEntityRef(e))
  {
  }

  /** `equals` is symmetric between revision entities. */
  lemma EqualsSymmetric(a: SequenceIdRevisionEntity, b: SequenceIdRevisionEntity)
    ensures a.Equals(RevisionEntityRef(b)) == b.Equals(RevisionEntityRef(a))
  {
  }

  /** Equal entities have equal hash codes. */
  lemma EqualsImpliesSameHash(a: SequenceIdRevisionEntity, b: SequenceIdRevisionEntity)
    requires a.Equals(RevisionEntityRef(b))
    ensures a.HashCode() == b.HashCode()
  {
  }

  /** The low and the high half of a timestamp. */
  function Low(timestamp: bv64): (low: bv32)
  {
    (timestamp & 0xFFFF_FFFF) as bv32
  }

  function High(timestamp: bv64): (high: bv32)
  {
    (timestamp >> 32) as bv32
  }

  /** The folded timestamp is the exclusive or of its two halves. */
  lemma FoldedTimestampHalves(timestamp: bv64)
    ensures FoldedTimestamp(timestamp) == Low(timestamp) ^ High(timestamp)
  {
  }

  /** Swapping the two halves of the timestamp does not change its fold, and so
      not the hash: the halves are combined symmetrically. */
  lemma FoldIgnoresHalfOrder(timestamp: bv64)
    ensures FoldedTimestamp((timestamp << 32) | (timestamp >> 32)) == FoldedTimestamp(timestamp)
  {
    var swapped := (timestamp << 32) | (timestamp >> 32);
    FoldedTimestampHalves(timestamp);
    FoldedTimestampHalves(swapped);
    assert Low(swapped) == High(timestamp) && High(swapped) == Low(timestamp);
  }

  /** A timestamp that fits in 32 bits folds to itself. */
  lemma FoldOfShortTimestamp(timestamp: bv64)
    requires timestamp < 0x1_0000_0000
    ensures FoldedTimestamp(timestamp) == timestamp as bv32
  {
    FoldedTimestampHalves(timestamp);
    assert High(timestamp) == 0;
  }
}
