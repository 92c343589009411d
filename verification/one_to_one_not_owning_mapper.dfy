/** The mapper of the not-owning side of a one-to-one relation. Its side holds no
    column, so it records a modification only when the relation is changed as a
    collection, and never from the entity's own state. */
module OneToOneNotOwning {
  import opened Common

  /** The parts of the mapped property's description the mapper reads. */
  datatype PropertyData = PropertyData(name: string, usingModifiedFlag: bool, modifiedFlagPropertyName: string)

  /** The entries a change of the collection named `collectionPropertyName` writes:
      none when the property has no modified flag, otherwise its flag, set exactly
      when the changed collection is this property. */
  function CollectionChangeFlags(propertyData: PropertyData, collectionPropertyName: string): (flags: map<string, Value>)
    ensures flags.Keys <= {propertyData.modifiedFlagPropertyName}
    ensures !propertyData.usingModifiedFlag <==> flags == map[]
    ensures propertyData.usingModifiedFlag ==>
              flags[propertyData.modifiedFlagPropertyName] == Bool(collectionPropertyName == propertyData.name)
  {
    if propertyData.usingModifiedFlag then
      var flags := map[propertyData.modifiedFlagPropertyName := Bool(collectionPropertyName == propertyData.name)];
      assert propertyData.modifiedFlagPropertyName in flags;
      flags
    else
      map[]
  }

  class OneToOneNotOwningMapper {
    const notOwningEntityName: string
    const owningEntityName: string
    const owningReferencePropertyName: string
    const propertyData: PropertyData

    constructor (notOwningEntityName: string, owningEntityName: string, owningReferencePropertyName: string,
                 propertyData: PropertyData)
      ensures this.notOwningEntityName == notOwningEntityName && this.owningEntityName == owningEntityName
      ensures this.owningReferencePropertyName == owningReferencePropertyName && this.propertyData == propertyData
    {
      this.notOwningEntityName := notOwningEntityName;
      this.owningEntityName := owningEntityName;
      this.owningReferencePropertyName := owningReferencePropertyName;
      this.propertyData := propertyData;
    }

    /** `mapModifiedFlagsToMapFromEntity`: the entity's state says nothing about the
        not-owning side, so the data map is left as it is. */
    method MapModifiedFlagsToMapFromEntity(data: DataMap, newObj: Value, oldObj: Value)
      modifies data
      ensures data.entries == old(data.entries)
    {
    }

    /** `mapModifiedFlagsToMapForCollectionChange`: writes at most the property's
        modified flag, true exactly when the changed collection is this property, and
        leaves every other entry as it was. */
    method MapModifiedFlagsToMapForCollectionChange(collectionPropertyName: string, data: DataMap)
      modifies data
      ensures data.entries == old(data.entries) + CollectionChangeFlags(propertyData, collectionPropertyName)
      ensures !propertyData.usingModifiedFlag ==> data.entries == old(data.entries)
      ensures forall k :: k in old(data.entries) && k != propertyData.modifiedFlagPropertyName ==>
                k in data.entries && data.entries[k] == old(data.entries)[k]
    {
      if propertyData.usingModifiedFlag {
        data.Put(propertyData.modifiedFlagPropertyName, Bool(collectionPropertyName == propertyData.name));
      }
    }
  }
}
