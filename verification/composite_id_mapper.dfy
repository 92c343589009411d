/** The mapper of a composite identifier: one single-property mapper per id
    property, kept in registration order, and the reconstruction of an id object
    from a data map, all or nothing. */
module CompositeIdMapping {
  import opened Wrappers
  import opened Common

  /** The description of one id property; two descriptions are the same key when
      they are equal. */
  datatype PropertyData = PropertyData(name: string, beanName: string)

  /** The mapper of a single id property. */
  datatype SingleIdMapper = SingleIdMapper(propertyData: PropertyData)

  /** The exception raised when the id class cannot be instantiated. */
  datatype AuditException = CannotInstantiate(compositeIdClass: string)

  /** A new instance of the composite id class; `mapped` lists the properties the
      mappers have filled in, in order. */
  class IdInstance {
    var mapped: seq<PropertyData>

    constructor ()
      ensures mapped == []
    {
      mapped := [];
    }

    method Fill(p: PropertyData)
      modifies this
      ensures mapped == old(mapped) + [p]
    {
      mapped := mapped + [p];
    }
  }

  /** The properties in `keys` are pairwise different. */
  ghost predicate Distinct(keys: seq<PropertyData>)
  {
    forall i, j :: 0 <= i < j < |keys| ==> keys[i] != keys[j]
  }

  class CompositeIdMapper {
    const compositeIdClass: string
    /** The insertion order of the linked hash map `ids`. */
    var order: seq<PropertyData>
    var ids: map<PropertyData, SingleIdMapper>

    /** `order` lists each key of `ids` once, and each key maps to its own mapper. */
    ghost predicate Valid()
      reads this
    {
      Distinct(order) && (forall p :: p in ids <==> p in order)
      && forall p :: p in ids ==> ids[p].propertyData == p
    }

    constructor (compositeIdClass: string)
      ensures Valid() && this.compositeIdClass == compositeIdClass && order == [] && ids == map[]
    {
      this.compositeIdClass := compositeIdClass;
      order := [];
      ids := map[];
    }

    /** The mappers in the order they run. */
    function Mappers(): (mappers: seq<SingleIdMapper>)
      reads this
      requires Valid()
      ensures |mappers| == |order| && forall i :: 0 <= i < |order| ==> mappers[i] == SingleIdMapper(order[i])
    {
      seq(|order|, i requires 0 <= i < |order| && order[i] in ids reads this => ids[order[i]])
    }

    /** `add`: one mapper per property; adding a property again replaces its mapper
        and keeps its place. */
    method Add(propertyData: PropertyData)
      requires Valid()
      modifies this
      ensures Valid()
      ensures ids == old(ids)[propertyData := SingleIdMapper(propertyData)]
      ensures order == if propertyData in old(ids) then old(order) else old(order) + [propertyData]
    {
      if propertyData !in ids {
        order := order + [propertyData];
      }
      ids := ids[propertyData := SingleIdMapper(propertyData)];
    }

    /** `mapToIdFromMap`: no data gives null; a class that cannot be instantiated
        raises; otherwise the mappers run in order on a new instance and the first
        that fails makes the result null, else the filled instance is returned.
        `mapToEntityFromMap` is the single mapper's verdict on the data and
        `instantiable` whether the id class has a usable default constructor. */
    method MapToIdFromMap(data: Option<map<string, Value>>, instantiable: bool,
                          mapToEntityFromMap: (SingleIdMapper, map<string, Value>) -> bool)
      returns (r: Result<Option<IdInstance>, AuditException>)
      requires Valid()
      ensures data.None? ==> r == Success(None)
      ensures data.Some? && !instantiable ==> r == Failure(CannotInstantiate(compositeIdClass))
      ensures data.Some? && instantiable ==> r.Success?
      ensures data.Some? && instantiable ==>
                (r.value.None? <==> exists i :: 0 <= i < |order| && !mapToEntityFromMap(ids[order[i]], data.value))
      ensures r.Success? && r.value.Some? ==> fresh(r.value.value) && r.value.value.mapped == order
    {
      if data.None? {
        return Success(None);
      }
      if !instantiable {
        return Failure(CannotInstantiate(compositeIdClass));
      }
      var ret := new IdInstance();
      var mappers := Mappers();
      for i := 0 to |mappers|
        invariant fresh(ret) && ret.mapped == order[..i]
        invariant forall j :: 0 <= j < i ==> mapToEntityFromMap(ids[order[j]], data.value)
      {
        var mapper := mappers[i];
        if !mapToEntityFromMap(mapper, data.value) {
          return Success(None);
        }
        ret.Fill(mapper.propertyData);
        assert order[..i + 1] == order[..i] + [order[i]];
      }
      assert order[..|mappers|] == order;
      return Success(Some(ret));
    }
  }
}
