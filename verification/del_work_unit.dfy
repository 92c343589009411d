/** The delete work unit (DelWorkUnit.java): the row of the work-unit merge matrix
    whose existing unit is a delete, the double dispatch that reaches it, and the data
    a delete writes to the audit table. */
module WorkUnits {
  import opened Wrappers
  import opened Common

  /** The five kinds of audit work unit of the merge matrix. Only the delete unit's own
      fields are part of this model; for the other kinds the model keeps the entity
      name and id, since their classes are not part of this model. */
  datatype AuditWorkUnit =
    | AddWorkUnit(entityName: string, id: Value)
    | ModWorkUnit(entityName: string, id: Value)
    | DelWorkUnit(entityName: string, id: Value, state: seq<Value>, propertyNames: seq<string>)
    | CollectionChangeWorkUnit(entityName: string, id: Value)
    | FakeBidirectionalRelationWorkUnit(entityName: string, id: Value)

  /** The units the Java class DelWorkUnit describes. */
  type DelUnit = u: AuditWorkUnit | u.DelWorkUnit? witness DelWorkUnit("", Null, [], [])

  /** The constructor: the state vector is kept as given and the property names are
      those the entity persister reports. */
  function NewDelWorkUnit(entityName: string, id: Value, persisterPropertyNames: seq<string>, state: seq<Value>): (u: DelUnit)
    ensures u.entityName == entityName && u.id == id
    ensures u.state == state && u.propertyNames == persisterPropertyNames
  {
    DelWorkUnit(entityName, id, state, persisterPropertyNames)
  }

  /** The revision type the constructor hands to the base class. */
  function RevisionTypeOf(u: DelUnit): (t: RevisionType)
    ensures t == DEL
  {
    DEL
  }

  /** `DelWorkUnit.containsWork`: a delete always has something to write. */
  function ContainsWork(u: DelUnit): (r: bool)
    ensures r
  {
    true
  }

  /** `first.merge(second)` where `first` is the earlier delete: a later insert or
      update cancels the delete (Java `null`, here `None`); a later delete, collection
      change or fake bidirectional change leaves the earlier delete as the result. */
  function Merge(first: DelUnit, second: AuditWorkUnit): (r: Option<AuditWorkUnit>)
    ensures r.None? <==> second.AddWorkUnit? || second.ModWorkUnit?
    ensures r.Some? ==> r.value == first
  {
    match second
    case AddWorkUnit(_, _) => None
    case ModWorkUnit(_, _) => None
    case DelWorkUnit(_, _, _, _) => Some(first)
    case CollectionChangeWorkUnit(_, _) => Some(first)
    case FakeBidirectionalRelationWorkUnit(_, _) => Some(first)
  }

  /** `second.dispatch(first)`, the second half of the double dispatch: the visitor
      `first` (the earlier unit) merges with `second` as its argument. When `first` is a
      delete that is the row above; the rows where `first` is of another kind are not
      part of this model and are supplied as `otherRows`. */
  function Dispatch(second: DelUnit, first: AuditWorkUnit,
                    otherRows: (AuditWorkUnit, AuditWorkUnit) -> Option<AuditWorkUnit>): (r: Option<AuditWorkUnit>)
    ensures first.DelWorkUnit? ==> r == Some(first)
    ensures !first.DelWorkUnit? ==> r == otherRows(first, second)
  {
    if first.DelWorkUnit? then Merge(first, second) else otherRows(first, second)
  }

  /** `generateData`: a new map receives the id and revision entries written by the
      base class (`fillDataWithId`, not part of this model, given as `idEntries`); when
      store-data-at-delete is on, the entity's property mapper then adds the property
      entries, receiving the delete's one state vector as both the new and the old
      state (`propertyMapper`, not part of this model). */
  method GenerateData(u: DelUnit, storeDataAtDelete: bool, idEntries: map<string, Value>,
                      propertyMapper: (seq<string>, seq<Value>, seq<Value>) -> map<string, Value>)
    returns (data: DataMap)
    ensures fresh(data)
    ensures storeDataAtDelete ==> data.entries == idEntries + propertyMapper(u.propertyNames, u.state, u.state)
    ensures !storeDataAtDelete ==> data.entries == idEntries
    ensures idEntries.Keys <= data.entries.Keys
  {
    data := new DataMap();
    data.PutAll(idEntries);
    if storeDataAtDelete {
      data.PutAll(propertyMapper(u.propertyNames, u.state, u.state));
    }
  }
}
