# Hibernate Envers core, modelled in Dafny

This project models a set of sequential pieces of Hibernate Envers, the auditing
module of Hibernate ORM, and proves what they promise.

- **Delete work unit** (`WorkUnits`). This is the row of the work-unit merge matrix
  where the earlier unit is a delete. It covers the double dispatch that reaches that
  row and the data a delete writes to the audit table.
- **Association queries** (`AssociationQuery`, `AssociationQueryProperties`,
  `QueryRecording`, `CriteriaTools`, `EntitiesMetadata`).
  - A tree of joins hangs off an audit query.
  - Each node registers its alias in maps shared by the whole query.
  - Child traversals are memoised by association name.
  - Compilation adds each node's joins and revision restrictions, then its criteria,
    then its children. The first exception, from a join, a criterion or a child,
    ends it.
  - The query builder is a recording of the calls made on it (`Step`s), with its
    alias and group counters.
  - The compilation is also a pure function (`Compile`). The imperative methods are
    proved to append exactly its steps, and the lemmas state the shape of those steps.
- **Configuration and naming** (`EnversConfiguration`, `RevisionNumberPropertyName`,
  `LegacyModifiedColumnNaming`, `PropertyAuditing`). This covers the defaults of every
  setting, audit entity and table names, revision paths, the track-entities override,
  the correlated-subquery operator and the modified-flag column name.
- **Component audited-property decision** (`ComponentAuditedProperties`). This is the
  prioritised decision of `checkAudited`, stated as a function and proved against the
  loop that implements it.
- **Small in-place structures**:
  - the foreign-key column list (`BootKey`);
  - the composite-id mapper (`CompositeIdMapping`);
  - the sequence-based revision entity, with 32/64-bit hash arithmetic
    (`SequenceIdRevision`);
  - the not-owning one-to-one mapper (`OneToOneNotOwning`).

Java `null` results become `Option.None`. Exceptions become `Result.Failure` or an
error field. A `Map<String, Object>` that a method fills for its caller is the
`Common.DataMap` class.

## Model

| member | source | states |
|---|---|---|
| WorkUnits.NewDelWorkUnit | src/main/java/org/hibernate/envers/synchronization/work/DelWorkUnit.java:41-47 | the unit keeps the given state vector and takes its property names from the persister |
| WorkUnits.RevisionTypeOf | src/main/java/org/hibernate/envers/synchronization/work/DelWorkUnit.java:43 | a delete unit always carries revision type DEL |
| WorkUnits.ContainsWork | src/main/java/org/hibernate/envers/synchronization/work/DelWorkUnit.java:49-51 | a delete unit always has work |
| WorkUnits.Merge | src/main/java/org/hibernate/envers/synchronization/work/DelWorkUnit.java:65-83 | no result exactly when the later unit is an add or a modification; otherwise the result is the earlier delete, unchanged |
| WorkUnits.Dispatch | src/main/java/org/hibernate/envers/synchronization/work/DelWorkUnit.java:85-87 | the dispatched unit is the argument of the earlier unit's merge: an earlier delete keeps itself, and any other earlier unit decides through its own row |
| WorkUnits.GenerateData | src/main/java/org/hibernate/envers/synchronization/work/DelWorkUnit.java:53-62 | the id and revision entries are always present; property entries are added only when store-data-at-delete is on, with the one state vector as both new and old state |
| CriteriaTools.CheckPropertyNotARelation | src/main/java/org/hibernate/envers/query/criteria/internal/CriteriaTools.java:30-40 | raises an AuditException exactly when the property is a relation |
| CriteriaTools.GetRelatedEntity | src/main/java/org/hibernate/envers/query/criteria/internal/CriteriaTools.java:42-67 | no description gives null; one of the four supported types is returned unchanged; any other type raises, naming entity and property |
| CriteriaTools.IdentifierPropertyNames | src/main/java/org/hibernate/envers/query/criteria/internal/CriteriaTools.java:128-141 | a singleton for a simple id, the component's names for an embedded id, empty otherwise |
| CriteriaTools.DeterminePropertyName | src/main/java/org/hibernate/envers/query/criteria/internal/CriteriaTools.java:90-121 | the placeholder and identifier names are moved under `originalId`; a name with an identifier prefix has the first matching prefix replaced by `originalId`; every other name, null included, is returned unchanged |
| EnversConfiguration.ResolveCorrelatedSubqueryOperator | src/main/java/org/hibernate/envers/configuration/Configuration.java:342-347 | `in` exactly when the dialect property names the HSQL dialect, `=` otherwise |
| EnversConfiguration.Configuration.constructor | src/main/java/org/hibernate/envers/configuration/Configuration.java:98-171 | each field holds its setting or that setting's default; the revision paths are derived from the original-id and revision field names |
| EnversConfiguration.Configuration.IsTrackEntitiesChanged | src/main/java/org/hibernate/envers/configuration/Configuration.java:186-188 | tracking is on when the override or the setting is on |
| EnversConfiguration.Configuration.SetTrackEntitiesChanged | src/main/java/org/hibernate/envers/configuration/Configuration.java:190-192 | the override can switch tracking on, but setting it to false gives back the configured value |
| EnversConfiguration.Configuration.GetRevisionPropertyPath | src/main/java/org/hibernate/envers/configuration/Configuration.java:265-267 | the path is `originalId.REV.` followed by the property, under the configured names |
| EnversConfiguration.Configuration.AddCustomAuditTableName | src/main/java/org/hibernate/envers/configuration/Configuration.java:288-290 | registers or replaces one entity's table name and leaves the others; afterwards the lookup returns it |
| EnversConfiguration.Configuration.GetAuditTableName | src/main/java/org/hibernate/envers/configuration/Configuration.java:300-306 | a registered custom name wins; otherwise the name is prefix + table + suffix, and nothing is registered |
| EnversConfiguration.DefaultFlags | src/main/java/org/hibernate/envers/configuration/Configuration.java:114-138 | with nothing set: native id on, identifier reuse off, collection revisions on, store-at-delete, tracking and modified flags off, revision type `byte`, operator `=`, no end-timestamp column |
| EnversConfiguration.DefaultAuditEntityName | src/main/java/org/hibernate/envers/configuration/Configuration.java:284-286 | with default prefix and suffix the audit entity name is the entity name + `_AUD`, e.g. `SimpleEntity_AUD` |
| EnversConfiguration.Configuration.GetAuditEntityName | src/main/java/org/hibernate/envers/configuration/Configuration.java:284-286 | the name is the audit table prefix, then the entity name, then the audit table suffix, for any prefix and suffix |
| EnversConfiguration.AuditEntityNameInjective | src/main/java/org/hibernate/envers/configuration/Configuration.java:284-286 | different entities have different audit entity names |
| EnversConfiguration.RevisionEndTimestampName | src/main/java/org/hibernate/envers/configuration/Configuration.java:145-158 | the end-timestamp column has a name exactly when the timestamp is stored; by default that name is `REVEND_TSTMP` |
| EnversConfiguration.RevisionNumberPathIsIdPath | src/main/java/org/hibernate/envers/configuration/Configuration.java:165-166 | the revision number path is `originalId.REV.id`, the revision property path of `id` |
| RevisionNumberPropertyName.Get | src/main/java/org/hibernate/envers/query/internal/property/RevisionNumberPropertyName.java:19-21 | the configuration's revision number path: it starts with the original-id name and a dot, and ends with `.id` |
| RevisionNumberPropertyName.DefaultRevisionNumberPath | src/main/java/org/hibernate/envers/query/internal/property/RevisionNumberPropertyName.java:20 | under the default names the result is `originalId.REV.id` |
| QueryRecording.GeneratedAliasInjective | src/main/java/org/hibernate/envers/query/internal/impl/AuditAssociationQueryImpl.java:86 | aliases generated from different counter values differ |
| AssociationQuery.ResolveAssociation | src/main/java/org/hibernate/envers/query/internal/impl/AuditAssociationQueryImpl.java:88-113 | an IllegalArgumentException exactly when the prefixed property is neither a relation nor a component; an AuditException exactly for an unsupported relation |
| AssociationQuery.AuditAssociationQuery.Create | src/main/java/org/hibernate/envers/query/internal/impl/AuditAssociationQueryImpl.java:67-127 | the user's alias, or a fresh generated one; the alias maps to the relation's target or, for a component, to the owner, and a component also records its property name; a new where-group is opened; on failure the maps and steps are untouched |
| AssociationQuery.AuditAssociationQuery.TraverseRelation | src/main/java/org/hibernate/envers/query/internal/impl/AuditAssociationQueryImpl.java:155-177 | a repeated association name returns the memoised child and changes nothing; a new name appends one fresh child to the list and the map |
| AssociationQuery.AuditAssociationQuery.Add | src/main/java/org/hibernate/envers/query/internal/impl/AuditAssociationQueryImpl.java:180-183 | criteria are kept in insertion order |
| AssociationQuery.AuditAssociationQuery.AddCriterionsToQuery | src/main/java/org/hibernate/envers/query/internal/impl/AuditAssociationQueryImpl.java:285-308 | appends exactly the compilation of the node's subtree and returns its exception |
| AssociationQuery.AuditAssociationQuery.AddLevelJoin | src/main/java/org/hibernate/envers/query/internal/impl/AuditAssociationQueryImpl.java:286-291 | the relation's join when there is a relation, else the component's join |
| AssociationQuery.AuditAssociationQuery.AddOwnCriteria | src/main/java/org/hibernate/envers/query/internal/impl/AuditAssociationQueryImpl.java:293-303 | one criterion step per criterion, in order, each on the node's alias and where-group, up to the first criterion that raises; that exception is returned |
| AssociationQuery.AuditAssociationQuery.AddChildrenToQuery | src/main/java/org/hibernate/envers/query/internal/impl/AuditAssociationQueryImpl.java:305-307 | the children's compilations in insertion order, stopping at the first exception |
| AssociationQuery.AuditAssociationQuery.AddOwnAndChildren | src/main/java/org/hibernate/envers/query/internal/impl/AuditAssociationQueryImpl.java:293-307 | the node's criteria; a criterion's exception ends it there, otherwise its children's compilations follow |
| AssociationQuery.AuditAssociationQuery.CreateEntityJoin | src/main/java/org/hibernate/envers/query/internal/impl/AuditAssociationQueryImpl.java:310-484 | appends exactly the relation's join specification and raises exactly its exception |
| AssociationQuery.AuditAssociationQuery.CreateComponentJoin | src/main/java/org/hibernate/envers/query/internal/impl/AuditAssociationQueryImpl.java:486-563 | appends exactly the component's join specification and never raises |
| AssociationQuery.AuditAssociationQuery.JoinToOne | src/main/java/org/hibernate/envers/query/internal/impl/AuditAssociationQueryImpl.java:319-341 | one join with the owner reference equal to the target id, under `originalId` when the target is audited |
| AssociationQuery.AuditAssociationQuery.JoinToManyNotOwning | src/main/java/org/hibernate/envers/query/internal/impl/AuditAssociationQueryImpl.java:352-361 | one join with the owner's original id equal to the target's reference |
| AssociationQuery.AuditAssociationQuery.JoinMiddleTable | src/main/java/org/hibernate/envers/query/internal/impl/AuditAssociationQueryImpl.java:375-412 | a generated middle alias, the middle join then the target join, the middle where-group, and the two id conditions |
| AssociationQuery.AuditAssociationQuery.RestrictMiddleRevision | src/main/java/org/hibernate/envers/query/internal/impl/AuditAssociationQueryImpl.java:414-442 | the middle rows valid at the revision, then the `!= DEL` filter, each null-guarded for a LEFT join |
| AssociationQuery.AuditAssociationQuery.JoinThroughMiddle | src/main/java/org/hibernate/envers/query/internal/impl/AuditAssociationQueryImpl.java:363-443 | the middle-table joins followed by the middle-row restrictions |
| AssociationQuery.AuditAssociationQuery.RestrictTargetRevision | src/main/java/org/hibernate/envers/query/internal/impl/AuditAssociationQueryImpl.java:454-483 | the target rows valid at the revision, under a fresh subquery alias |
| AssociationQuery.AuditAssociationQuery.WrapForLeftJoin | src/main/java/org/hibernate/envers/query/internal/impl/AuditAssociationQueryImpl.java:415-420 | for a LEFT join opens `OR(path is null, AND(...))` and returns the AND group; otherwise returns the parent group |
| AssociationQuery.AuditAssociationQuery.FilterDeleted | src/main/java/org/hibernate/envers/query/internal/impl/AuditAssociationQueryImpl.java:437-442 | the `!= DEL` filter, inside `OR(path is null, ...)` for a LEFT join |
| AssociationQuery.AliasMaps.PutEntityAlias | src/main/java/org/hibernate/envers/query/internal/impl/AuditAssociationQueryImpl.java:121 | the alias maps to the entity and every other alias is kept |
| AssociationQuery.AliasMaps.PutComponentAlias | src/main/java/org/hibernate/envers/query/internal/impl/AuditAssociationQueryImpl.java:118 | the alias maps to the component property and every other alias is kept |
| AssociationQuery.CriteriaSteps | src/main/java/org/hibernate/envers/query/internal/impl/AuditAssociationQueryImpl.java:293-303 | one step per criterion, in order |
| AssociationQuery.FirstRaising | src/main/java/org/hibernate/envers/query/internal/impl/AuditAssociationQueryImpl.java:293-303 | every criterion before the result succeeds, and the one at the result raises unless all criteria were passed |
| AssociationQuery.CriteriaRun | src/main/java/org/hibernate/envers/query/internal/impl/AuditAssociationQueryImpl.java:293-303 | the criteria's steps in order, up to the first one that raises; its exception, or none exactly when no criterion raises |
| AssociationQueryProperties.CompileOrder | src/main/java/org/hibernate/envers/query/internal/impl/AuditAssociationQueryImpl.java:285-303 | a node's join comes first; unless it raised, its criteria follow in insertion order up to the first that raises, whose exception then ends the compilation |
| AssociationQueryProperties.CompileChildrenLast | src/main/java/org/hibernate/envers/query/internal/impl/AuditAssociationQueryImpl.java:305-307 | when neither the join nor a criterion raised, the compilation ends with exactly the children's compilations, which decide the counters and the exception |
| AssociationQueryProperties.CompileExceptions | src/main/java/org/hibernate/envers/query/internal/impl/AuditAssociationQueryImpl.java:285-308 | every exception that stops a compilation is an AuditException from a relation join or the exception of one of the tree's criteria |
| AssociationQueryProperties.ChildrenCompileExceptions | src/main/java/org/hibernate/envers/query/internal/impl/AuditAssociationQueryImpl.java:305-307 | the same for the children's compilations |
| AssociationQueryProperties.EntityJoinErrors | src/main/java/org/hibernate/envers/query/internal/impl/AuditAssociationQueryImpl.java:342-451 | raises exactly for TO_MANY_NOT_OWNING or TO_MANY_MIDDLE_NOT_OWNING to a non-audited target, or an unsupported relation type; an exception adds no steps |
| AssociationQueryProperties.RelationJoinShape | src/main/java/org/hibernate/envers/query/internal/impl/AuditAssociationQueryImpl.java:319-452 | without an exception, two joins for a middle-table relation, otherwise one, and no target restriction |
| AssociationQueryProperties.EntityJoinJoins | src/main/java/org/hibernate/envers/query/internal/impl/AuditAssociationQueryImpl.java:310-484 | the whole entity join adds two joins through a middle table, otherwise one |
| AssociationQueryProperties.EntityJoinTargetRestriction | src/main/java/org/hibernate/envers/query/internal/impl/AuditAssociationQueryImpl.java:454-483 | the target's revision restriction is added if and only if the target is audited, null-guarded for a LEFT join |
| AssociationQueryProperties.TargetRestrictionShape | src/main/java/org/hibernate/envers/query/internal/impl/AuditAssociationQueryImpl.java:454-483 | no join; a target restriction in the query's where-group, wrapped as `OR(null test, AND(...))` for a LEFT join |
| AssociationQueryProperties.SingleJoinShape | src/main/java/org/hibernate/envers/query/internal/impl/AuditAssociationQueryImpl.java:319-361 | TO_ONE and TO_MANY_NOT_OWNING add one join followed by its id condition |
| AssociationQueryProperties.MiddleJoinJoins | src/main/java/org/hibernate/envers/query/internal/impl/AuditAssociationQueryImpl.java:375-412 | exactly two joins, the middle table under a fresh alias and then the target |
| AssociationQueryProperties.MiddleJoinFilters | src/main/java/org/hibernate/envers/query/internal/impl/AuditAssociationQueryImpl.java:414-442 | the middle rows are restricted to the revision and always filtered to revision type `!= DEL` |
| AssociationQueryProperties.MiddleJoinGuarded | src/main/java/org/hibernate/envers/query/internal/impl/AuditAssociationQueryImpl.java:414-442 | for a LEFT join every middle restriction sits in an OR group with a null test |
| AssociationQueryProperties.MiddleRevisionRestrictionContents | src/main/java/org/hibernate/envers/query/internal/impl/AuditAssociationQueryImpl.java:414-442 | no join and no target restriction; one revision restriction and the `!= DEL` filter |
| AssociationQueryProperties.MiddleRevisionRestrictionGuarded | src/main/java/org/hibernate/envers/query/internal/impl/AuditAssociationQueryImpl.java:414-442 | for a LEFT join both middle restrictions are null-guarded |
| AssociationQueryProperties.MiddleRevisionRestrictionInner | src/main/java/org/hibernate/envers/query/internal/impl/AuditAssociationQueryImpl.java:414-442 | without a LEFT join both middle restrictions go straight into the middle group |
| AssociationQueryProperties.LeftWrapShape | src/main/java/org/hibernate/envers/query/internal/impl/AuditAssociationQueryImpl.java:415-420 | the LEFT-join wrapping is `OR(null test, AND(...))`, and no wrapping otherwise |
| AssociationQueryProperties.DelFilterShape | src/main/java/org/hibernate/envers/query/internal/impl/AuditAssociationQueryImpl.java:437-442 | the deleted-row filter and, for a LEFT join, its null alternative |
| AssociationQueryProperties.ComponentCollectionJoinCount | src/main/java/org/hibernate/envers/query/internal/impl/AuditAssociationQueryImpl.java:489-539 | a component collection joins only its middle table |
| AssociationQueryProperties.ComponentJoinJoins | src/main/java/org/hibernate/envers/query/internal/impl/AuditAssociationQueryImpl.java:486-563 | a component never raises and adds exactly one join |
| AssociationQueryProperties.ComponentJoinFilters | src/main/java/org/hibernate/envers/query/internal/impl/AuditAssociationQueryImpl.java:509-538 | a component collection filters its middle rows to the revision and to revision type `!= DEL` |
| ComponentAuditedProperties.ComponentAuditedPropertiesReader.IsClassHierarchyTraversalNeeded | src/main/java/org/hibernate/envers/configuration/internal/metadata/reader/ComponentAuditedPropertiesReader.java:52-55 | traversal is always needed for components |
| ComponentAuditedProperties.ComponentAuditedPropertiesReader.CheckAudited | src/main/java/org/hibernate/envers/configuration/internal/metadata/reader/ComponentAuditedPropertiesReader.java:58-130 | the result is the priority decision; an explicit `@Audited` also sets the audit mode, the flag use and the derived flag name, and sets the explicit name only when non-empty; otherwise the property data is untouched |
| ComponentAuditedProperties.FirstPropertyOverride | src/main/java/org/hibernate/envers/configuration/internal/metadata/reader/ComponentAuditedPropertiesReader.java:83-105 | a result only when an applicable override names the property, none when none does |
| ComponentAuditedProperties.FirstPropertyOverrideAt | src/main/java/org/hibernate/envers/configuration/internal/metadata/reader/ComponentAuditedPropertiesReader.java:83-105 | the first applicable override naming the property gives the result |
| ComponentAuditedProperties.FirstNamingOverrideDecides | src/main/java/org/hibernate/envers/configuration/internal/metadata/reader/ComponentAuditedPropertiesReader.java:83-104 | without `@Audited`, the first applicable override naming the property decides the result |
| ComponentAuditedProperties.InapplicableOverrideIgnored | src/main/java/org/hibernate/envers/configuration/internal/metadata/reader/ComponentAuditedPropertiesReader.java:84-86 | an override for `void` or for another class does not change the decision |
| ComponentAuditedProperties.FirstPropertyOverrideSkips | src/main/java/org/hibernate/envers/configuration/internal/metadata/reader/ComponentAuditedPropertiesReader.java:84-86 | the same for the property-level override search |
| ComponentAuditedProperties.NotAuditedSignalWins | src/main/java/org/hibernate/envers/configuration/internal/metadata/reader/ComponentAuditedPropertiesReader.java:108-115 | a class-level not-audited override gives false whatever audited signals are present |
| ComponentAuditedProperties.DefaultDecision | src/main/java/org/hibernate/envers/configuration/internal/metadata/reader/ComponentAuditedPropertiesReader.java:118-129 | with no overrides: a class-level `@Audited` gives true, else a mapped superclass gives false, else true |
| PropertyAuditing.ModifiedColumnName | src/main/java/org/hibernate/envers/configuration/internal/metadata/reader/ComponentAuditedPropertiesReader.java:69 | the derived flag name is the property name followed by the suffix |
| LegacyModifiedColumnNaming.AddModifiedColumns | src/main/java/org/hibernate/envers/boot/internal/LegacyModifiedColumnNamingStrategy.java:29-42 | exactly one attribute is appended; it carries the explicit name verbatim when one was given, else the derived name |
| SequenceIdRevision.SequenceIdRevisionEntity.SetId | src/main/java/org/hibernate/envers/enhanced/SequenceIdRevisionEntity.java:47-53 | `getId` returns what was set and the timestamp is unchanged |
| SequenceIdRevision.SequenceIdRevisionEntity.SetTimestamp | src/main/java/org/hibernate/envers/enhanced/SequenceIdRevisionEntity.java:60-67 | `getTimestamp` returns what was set and the id is unchanged |
| SequenceIdRevision.SequenceIdRevisionEntity.Equals | src/main/java/org/hibernate/envers/enhanced/SequenceIdRevisionEntity.java:70-80 | false for null and other classes; for revision entities, true exactly when ids and timestamps are equal |
| SequenceIdRevision.EqualsReflexive | src/main/java/org/hibernate/envers/enhanced/SequenceIdRevisionEntity.java:70-72 | every entity equals itself |
| SequenceIdRevision.EqualsSymmetric | src/main/java/org/hibernate/envers/enhanced/SequenceIdRevisionEntity.java:78-79 | equality between revision entities is symmetric |
| SequenceIdRevision.EqualsImpliesSameHash | src/main/java/org/hibernate/envers/enhanced/SequenceIdRevisionEntity.java:82-87 | equal entities have equal 32-bit hash codes |
| SequenceIdRevision.SequenceIdRevisionEntity.GetId | src/main/java/org/hibernate/envers/enhanced/SequenceIdRevisionEntity.java:47-49 | returns the stored id, the value `SetId` last wrote |
| SequenceIdRevision.SequenceIdRevisionEntity.GetTimestamp | src/main/java/org/hibernate/envers/enhanced/SequenceIdRevisionEntity.java:60-62 | returns the stored timestamp, the value `SetTimestamp` last wrote |
| SequenceIdRevision.SequenceIdRevisionEntity.HashCode | src/main/java/org/hibernate/envers/enhanced/SequenceIdRevisionEntity.java:82-87 | the 32-bit hash of the entity's current id and timestamp, so equal entities hash alike (`EqualsImpliesSameHash`); the timestamp enters as its folded halves (`FoldedTimestampHalves`) |
| SequenceIdRevision.FoldedTimestampHalves | src/main/java/org/hibernate/envers/enhanced/SequenceIdRevisionEntity.java:85 | the folded timestamp is the exclusive or of its low and high halves |
| SequenceIdRevision.FoldIgnoresHalfOrder | src/main/java/org/hibernate/envers/enhanced/SequenceIdRevisionEntity.java:85 | swapping the two halves of the timestamp leaves the fold unchanged |
| SequenceIdRevision.FoldOfShortTimestamp | src/main/java/org/hibernate/envers/enhanced/SequenceIdRevisionEntity.java:85 | a timestamp below 2^32 folds to itself |
| CompositeIdMapping.CompositeIdMapper.constructor | src/main/java/org/hibernate/envers/internal/entities/mapper/id/AbstractCompositeIdMapper.java:24-27 | a new mapper has no id mappers |
| CompositeIdMapping.CompositeIdMapper.Add | src/main/java/org/hibernate/envers/internal/entities/mapper/id/AbstractCompositeIdMapper.java:30-32 | one mapper per property; re-adding replaces it and keeps its place in the order |
| CompositeIdMapping.CompositeIdMapper.Mappers | src/main/java/org/hibernate/envers/internal/entities/mapper/id/AbstractCompositeIdMapper.java:48 | the mappers run in registration order, one per property |
| CompositeIdMapping.CompositeIdMapper.MapToIdFromMap | src/main/java/org/hibernate/envers/internal/entities/mapper/id/AbstractCompositeIdMapper.java:35-55 | null data gives null; an id class that cannot be instantiated raises; otherwise null exactly when some mapper fails, else a fresh instance filled by every mapper in order |
| BootKey.Key.constructor | src/main/java/org/hibernate/envers/boot/model/Key.java:23-25 | a new key has no columns |
| BootKey.Key.Copy | src/main/java/org/hibernate/envers/boot/model/Key.java:27-32 | the same number of columns, each a new, distinct copy of the original's column at the same position |
| BootKey.Key.AddColumn | src/main/java/org/hibernate/envers/boot/model/Key.java:40-43 | appends at the end and keeps the earlier columns |
| BootKey.Key.DeepCopy | src/main/java/org/hibernate/envers/boot/model/Key.java:46-48 | a new key whose columns are new copies of this key's columns |
| BootKey.AppendToDeepCopy | src/main/java/org/hibernate/envers/boot/model/Key.java:27-48 | appending to a deep copy leaves the original's column list and columns unchanged |
| BootKey.Bindings | src/main/java/org/hibernate/envers/boot/model/Key.java:51-57 | one built column per column, in order |
| BootKey.Key.Build | src/main/java/org/hibernate/envers/boot/model/Key.java:51-57 | the built key holds exactly the columns' bindings, in order |
| OneToOneNotOwning.CollectionChangeFlags | src/main/java/org/hibernate/envers/entities/mapper/relation/OneToOneNotOwningMapper.java:63-67 | nothing without a modified flag; otherwise only the flag key, true exactly when the changed collection is this property |
| OneToOneNotOwning.OneToOneNotOwningMapper.constructor | src/main/java/org/hibernate/envers/entities/mapper/relation/OneToOneNotOwningMapper.java:43-47 | keeps both entity names, the owning reference property and the property data as given |
| OneToOneNotOwning.OneToOneNotOwningMapper.MapModifiedFlagsToMapForCollectionChange | src/main/java/org/hibernate/envers/entities/mapper/relation/OneToOneNotOwningMapper.java:63-67 | writes at most the flag key; every other entry is unchanged, and with the flag disabled the map is unchanged |
| OneToOneNotOwning.OneToOneNotOwningMapper.MapModifiedFlagsToMapFromEntity | src/main/java/org/hibernate/envers/entities/mapper/relation/OneToOneNotOwningMapper.java:59-60 | the data map is never changed |

## Left out

- The query builder, `Parameters`, `IdMapper.addIdsEqualToQuery`, the audit strategy's restriction methods and `AuditCriterion.addToQuery` are not part of this model. Their calls are recorded as opaque `Step`s, not as SQL.
- `AuditCriterion.addToQuery` is one `Criterion` step when it succeeds. Whether it raises, and which exception, is an input of the model (`CriterionRef.raises`). A criterion that raises is taken to add no step before raising.
- The format of generated aliases (`_e` followed by a counter) is assumed, since `QueryBuilder` is not part of this model. Only its injectivity is used.
- The `RelationType` values beyond the four supported ones, and `AuditId.IDENTIFIER_PLACEHOLDER` (`$$id$$`), are assumed, since those classes are not part of this model.
- `CriteriaTools.getComponent` and `determineComponentPropertyPrefix` are not part of this model. They are lookups in the metadata value (`EntitiesMetadata.Metadata`).
- `getResultList`, `getSingleResult`, the delegating setters, `up`, `addProjection`, `addOrder` and `registerProjection` of association queries only forward to the parent query or to classes not part of this model.
- The merge-matrix rows whose earlier unit is not a delete, and the accumulator that interprets a null merge, are not part of this model. `Dispatch` takes those rows as a parameter.
- `fillDataWithId` and the entity's property mapper are parameters of `GenerateData`.
- Reflective resolution in `Configuration` (revision listener, modified-column naming strategy, audit strategy, `RevisionInfoConfiguration`) is class loading. Its outcome is the opaque `Resolved` value. Parsing of properties in `ConfigurationProperties` is also left out: settings arrive already parsed.
- `ModifiedColumnNameResolver.getName` is not part of this model. It is taken to be property name + suffix (`PropertyAuditing.ModifiedColumnName`).
- `checkUsingModifiedFlag`, `isOverriddenAudited` and `isOverriddenNotAudited` are annotation reads, so they are inputs of `CheckAudited`. `PropertyAuditingData.isModifiedFlagNameExplicitlySpecified` is taken to test whether an explicit name was set.
- `createModifiedFlagAttribute` is reduced to the column name it receives.
- `Column` and its `build` are not part of this model. Only a column's name is kept.
- `SingleIdMapper.mapToEntityFromMap` and the id class's default constructor are parameters of `MapToIdFromMap` (a verdict function and an `instantiable` flag).
- CompositeIdMapping.CompositeIdMapper.MapToIdFromMap: does not state that the mappers after the first failing one are not run, because the partly filled instance is discarded and nothing outside it can observe the difference.
- `SequenceIdRevisionEntity.getRevisionDate` and `toString` are date formatting. `equals` treats subclasses as revision entities only through the `RevisionEntityRef` case.
- `OneToOneNotOwningMapper.queryForReferencedEntity` issues an audit query through the reader.
- `EntityTools`, `OrderedSequenceGenerator`, `ModifiedFlagPropertyName`, `DefaultTrackingModifiedEntitiesRevisionEntity` and `EnversBootLogger` are session I/O, database structures, one-line wrappers around classes not part of this model, JPA mapping and logging.
- The test classes are used only as evidence for defaults such as `SimpleEntity_AUD`.
