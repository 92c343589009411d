/** Helpers shared by the audit criteria (CriteriaTools.java): relation checks and the
    rewriting of property paths onto the audit entity's `originalId` component. */
module CriteriaTools {
  import opened Wrappers
  import opened EntitiesMetadata

  /** `AuditId.IDENTIFIER_PLACEHOLDER`, the name under which criteria refer to the
      entity identifier. */
  const IDENTIFIER_PLACEHOLDER := "$$id$$"

  /** The exceptions the query code raises; all but `NotAValidAssociation` (an
      `IllegalArgumentException`) are `AuditException`s. */
  datatype QueryError =
    | RelationCriterionNotAllowed
    | UnsupportedRelationInQueries(entityName: string, propertyName: string)
    | NotAValidAssociation(propertyName: string, ownerEntityName: string)
    | NonAuditedTarget(relationType: RelationType)
    | UnsupportedRelationType(relationType: RelationType)
  {
    predicate IsAuditException() { !NotAValidAssociation? }
  }

  /** The four relation types queries can traverse. */
  predicate SupportedInQueries(t: RelationType)
  {
    t == TO_ONE || t == TO_MANY_MIDDLE || t == TO_MANY_NOT_OWNING || t == TO_MANY_MIDDLE_NOT_OWNING
  }

  predicate StartsWith(s: string, prefix: string)
  {
    |prefix| <= |s| && s[..|prefix|] == prefix
  }

  /** Java's string concatenation of a possibly-null string. */
  function NullableString(s: Option<string>): string
  {
    if s.Some? then s.value else "null"
  }

  /** `checkPropertyNotARelation`: raises exactly when the audited entity's property
      is a relation. */
  function CheckPropertyNotARelation(meta: Metadata, entityName: string, propertyName: string): (error: Option<QueryError>)
    requires entityName in meta.versioned
    ensures error.Some? <==> (entityName, propertyName) in meta.relations
    ensures error.Some? ==> error.value.IsAuditException()
  {
    if (entityName, propertyName) in meta.relations then Some(RelationCriterionNotAllowed) else None
  }

  /** `getRelatedEntity`: no description gives `null`; a description of one of the four
      supported types comes back unchanged; any other type raises. */
  function GetRelatedEntity(meta: Metadata, entityName: string, propertyName: string): (r: Result<Option<RelationDescription>, QueryError>)
    ensures (entityName, propertyName) !in meta.relations ==> r == Success(None)
    ensures r.Success? && r.value.Some? ==>
              (entityName, propertyName) in meta.relations && r.value.value == meta.relations[(entityName, propertyName)]
    ensures r.Failure? <==>
              (entityName, propertyName) in meta.relations && !SupportedInQueries(meta.relations[(entityName, propertyName)].relationType)
    ensures r.Failure? ==> r.error == UnsupportedRelationInQueries(entityName, propertyName)
    ensures r.Success? && r.value.Some? ==> SupportedInQueries(r.value.value.relationType)
  {
    if (entityName, propertyName) !in meta.relations then Success(None)
    else
      var desc := meta.relations[(entityName, propertyName)];
      if SupportedInQueries(desc.relationType) then Success(Some(desc))
      else Failure(UnsupportedRelationInQueries(entityName, propertyName))
  }

  /** `CriteriaTools.getComponent`, as a lookup in the metadata value: the component
      description registered for the property, if any. */
  function GetComponent(meta: Metadata, entityName: string, propertyName: string): Option<ComponentDescription>
  {
    if (entityName, propertyName) in meta.components then Some(meta.components[(entityName, propertyName)]) else None
  }

  /** `identifierPropertyNames`: the single identifier property, else the property
      names of an embedded id, else nothing. */
  function IdentifierPropertyNames(persister: PersisterInfo): (names: seq<string>)
    ensures persister.identifierPropertyName.Some? ==> names == [persister.identifierPropertyName.value]
    ensures persister.identifierPropertyName.None? && persister.identifierType.EmbeddedComponentType? ==>
              names == persister.identifierType.propertyNames
    ensures persister.identifierPropertyName.None? && persister.identifierType.OtherIdentifierType? ==> names == []
  {
    if persister.identifierPropertyName.Some? then [persister.identifierPropertyName.value]
    else if persister.identifierType.EmbeddedComponentType? then persister.identifierType.propertyNames
    else []
  }

  /** The case of `determinePropertyName` that searches for an identifier prefix: the
      name is neither the placeholder nor an identifier property. */
  predicate SearchesPrefixes(propertyName: Option<string>, names: seq<string>)
  {
    propertyName.Some? && propertyName.value != IDENTIFIER_PLACEHOLDER && propertyName.value !in names
  }

  /** `determinePropertyName`: the placeholder becomes `originalId.<identifier
      property>`; an identifier property `p` becomes `originalId.p`; a name starting
      with `idProp.` for some identifier property has that identifier replaced by
      `originalId`, the first such identifier property in order deciding; every other
      name, `null` included, comes back unchanged. */
  method DeterminePropertyName(originalIdPropertyName: string, persister: PersisterInfo, propertyName: Option<string>)
    returns (r: Option<string>)
    ensures propertyName == Some(IDENTIFIER_PLACEHOLDER) ==>
              r == Some(originalIdPropertyName + "." + NullableString(persister.identifierPropertyName))
    ensures propertyName.None? ==> r == None
    ensures propertyName.Some? && propertyName.value != IDENTIFIER_PLACEHOLDER
            && propertyName.value in IdentifierPropertyNames(persister) ==>
              r == Some(originalIdPropertyName + "." + propertyName.value)
    ensures var names := IdentifierPropertyNames(persister);
            SearchesPrefixes(propertyName, names) && (forall k :: 0 <= k < |names| ==> !StartsWith(propertyName.value, names[k] + ".")) ==>
              r == propertyName
    ensures var names := IdentifierPropertyNames(persister);
            forall k :: SearchesPrefixes(propertyName, names) && 0 <= k < |names| && StartsWith(propertyName.value, names[k] + ".")
                        && (forall j :: 0 <= j < k ==> !StartsWith(propertyName.value, names[j] + ".")) ==>
              r == Some(originalIdPropertyName + propertyName.value[|names[k]|..])
  {
    r := propertyName;
    if propertyName == Some(IDENTIFIER_PLACEHOLDER) {
      r := Some(originalIdPropertyName + "." + NullableString(persister.identifierPropertyName));
    } else {
      var names := IdentifierPropertyNames(persister);
      if propertyName.Some? && propertyName.value in names {
        r := Some(originalIdPropertyName + "." + propertyName.value);
      } else if propertyName.Some? {
        var p := propertyName.value;
        for i := 0 to |names|
          invariant forall j :: 0 <= j < i ==> !StartsWith(p, names[j] + ".")
          invariant r == propertyName
        {
          if StartsWith(p, names[i] + ".") {
            r := Some(originalIdPropertyName + p[|names[i]|..]);
            break;
          }
        }
      }
    }
  }
}
