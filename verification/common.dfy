/** Values shared by the whole model: the revision type stored with every audit row,
    the objects held in the untyped `Map<String, Object>` data maps, and that data map
    itself, which the mappers fill in place. */
module Common {

  /** org.hibernate.envers.RevisionType: the kind of change an audit row records. */
  datatype RevisionType = ADD | MOD | DEL

  /** org.hibernate.envers.RelationTargetAuditMode. */
  datatype RelationTargetAuditMode = AUDITED | NOT_AUDITED

  /** An object stored in a data map or in an entity's property vector. The model only
      needs to tell values apart, so an object that is none of the listed kinds is a
      reference `Ref(n)` to the n-th opaque object. */
  datatype Value =
    | Null
    | Bool(b: bool)
    | Int(i: int)
    | Str(s: string)
    | RevType(t: RevisionType)
    | Ref(n: nat)

  /** A `java.util.Map<String, Object>` owned by one caller and filled in place by
      mappers and work units. */
  class DataMap {
    var entries: map<string, Value>

    constructor ()
      ensures entries == map[]
    {
      entries := map[];
    }

    /** `Map.put`: the key now maps to the value; every other entry is as before. */
    method Put(key: string, value: Value)
      modifies this
      ensures entries == old(entries)[key := value]
      ensures forall k :: k in old(entries) && k != key ==> k in entries && entries[k] == old(entries)[k]
    {
      entries := entries[key := value];
    }

    /** `Map.putAll`: later entries win over earlier ones. */
    method PutAll(other: map<string, Value>)
      modifies this
      ensures entries == old(entries) + other
      ensures entries.Keys == old(entries).Keys + other.Keys
    {
      entries := entries + other;
    }
  }
}
