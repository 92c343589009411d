/** The per-entity metadata the query code looks up: relation and component
    descriptions, which entities are audited, and what the session factory knows about
    an entity's identifier. The classes behind these lookups (EntitiesConfigurations,
    RelationDescription, ComponentDescription, the entity persister) are not part of
    this model; they are represented by the values below. */
module EntitiesMetadata {
  import opened Wrappers

  /** org.hibernate.envers.internal.entities.RelationType. */
  datatype RelationType =
    | TO_ONE
    | TO_ONE_NOT_OWNING
    | TO_MANY_NOT_OWNING
    | TO_MANY_MIDDLE
    | TO_MANY_MIDDLE_NOT_OWNING

  /** A `MiddleIdData`, which the query code passes along without looking inside:
      one held by a relation or component description, or the one built for an
      audited target entity. */
  datatype MiddleIdDataRef = MiddleIdData(name: string) | TargetIdData(entityName: string)

  /** An id mapper, which the query code only asks to add id-equality conditions:
      one held by a relation description, the mapper of an (audited or not audited)
      entity, or the prefixed or original mapper of a `MiddleIdData`. */
  datatype IdMapperRef =
    | IdMapper(name: string)
    | EntityIdMapper(entityName: string, audited: bool)
    | PrefixedMapper(data: MiddleIdDataRef)
    | OriginalMapper(data: MiddleIdDataRef)

  /** What a relation description offers to the query code. */
  datatype RelationDescription = RelationDescription(
    relationType: RelationType,
    toEntityName: string,
    auditMiddleEntityName: string,
    idMapper: IdMapperRef,
    referencingIdData: MiddleIdDataRef,
    referencedIdData: MiddleIdDataRef)

  datatype ComponentType = ONE | MANY

  /** What a component description offers to the query code. */
  datatype ComponentDescription = ComponentDescription(
    componentType: ComponentType,
    propertyName: string,
    auditMiddleEntityName: string,
    middleIdData: MiddleIdDataRef)

  /** The type of an entity's identifier, as far as the query code distinguishes it. */
  datatype IdentifierType = EmbeddedComponentType(propertyNames: seq<string>) | OtherIdentifierType

  /** The entity persister's identifier property name (`None` for Java `null`) and
      identifier type. */
  datatype PersisterInfo = PersisterInfo(identifierPropertyName: Option<string>, identifierType: IdentifierType)

  /** The metadata the query code consults. `relations` and `components` are keyed by
      (entity name, property name); `componentPrefix` stands for
      `CriteriaTools.determineComponentPropertyPrefix`, computed from the owner's entity
      name and the component property its alias was registered with. */
  datatype Metadata = Metadata(
    versioned: set<string>,
    relations: map<(string, string), RelationDescription>,
    components: map<(string, string), ComponentDescription>,
    persisters: map<string, PersisterInfo>,
    componentPrefix: (string, Option<string>) -> string)
}
