/** The Envers configuration (Configuration.java): defaults for every setting, the
    names derived from them, the audit entity and table names, the track-entities
    override and the choice of correlated-subquery operator. */
module EnversConfiguration {
  import opened Wrappers

  const OPERATOR_IN := "in"
  const OPERATOR_EQUALS := "="

  const DEFAULT_PREFIX := ""
  const DEFAULT_SUFFIX := "_AUD"
  const DEFAULT_MODIFIED_FLAG_SUFFIX := "_MOD"
  const DEFAULT_ORIGINAL_ID := "originalId"
  const DEFAULT_REV_FIELD := "REV"
  const DEFAULT_REVTYPE_FIELD := "REVTYPE"
  const DEFAULT_REVTYPE_TYPE := "byte"
  const DEFAULT_REVEND_FIELD := "REVEND"
  const DEFAULT_REV_TSTMP_FIELD := "REVEND_TSTMP"
  const DEFAULT_SETORDINAL_FIELD := "SETORDINAL"

  /** The class name of the HSQL dialect, compared with the dialect property. */
  const HSQL_DIALECT := "org.hibernate.dialect.HSQLDialect"

  /** The Envers settings as the configuration properties supply them, one per
      `EnversSettings` key, `None` where the property is unset. Values arrive already
      parsed; the parsing in `ConfigurationHelper` is not part of this model. */
  datatype Settings = Settings(
    defaultCatalog: Option<string>,
    defaultSchema: Option<string>,
    dialect: Option<string>,
    modifiedFlagSuffix: Option<string>,
    useRevisionEntityWithNativeId: Option<bool>,
    allowIdentifierReuse: Option<bool>,
    revisionOnCollectionChange: Option<bool>,
    doNotAuditOptimisticLockingField: Option<bool>,
    storeDataAtDelete: Option<bool>,
    cascadeDeleteRevision: Option<bool>,
    trackEntitiesChangedInRevision: Option<bool>,
    globalWithModifiedFlag: Option<bool>,
    findByRevisionExactMatch: Option<bool>,
    auditTablePrefix: Option<string>,
    auditTableSuffix: Option<string>,
    originalIdPropName: Option<string>,
    revisionFieldName: Option<string>,
    revisionTypeFieldName: Option<string>,
    validityEndRevFieldName: Option<string>,
    storeRevendTimestamp: Option<bool>,
    revendTimestampFieldName: Option<string>,
    embeddableSetOrdinalFieldName: Option<string>)

  /** No property set at all. */
  const Unset := Settings(None, None, None, None, None, None, None, None, None, None, None,
                          None, None, None, None, None, None, None, None, None, None, None)

  /** What the reflective resolution of the revision listener, the modified-column
      naming strategy and the audit strategy produced; class loading and the service
      registry are not part of this model, so these are opaque names. */
  datatype Resolved = Resolved(revisionListenerClass: Option<string>, modifiedColumnNamingStrategy: string, auditStrategy: string)

  /** A string setting with its default. */
  function StringOr(setting: Option<string>, default: string): string
  {
    if setting.Some? then setting.value else default
  }

  /** A boolean setting with its default. */
  function BoolOr(setting: Option<bool>, default: bool): bool
  {
    if setting.Some? then setting.value else default
  }

  /** `resolveCorrelatedSubqueryOperator`: "in" exactly when the dialect property names
      the HSQL dialect, "=" otherwise (also when it is unset). */
  function ResolveCorrelatedSubqueryOperator(dialect: Option<string>): (op: string)
    ensures op == OPERATOR_IN <==> dialect == Some(HSQL_DIALECT)
    ensures op == OPERATOR_IN || op == OPERATOR_EQUALS
  {
    if dialect == Some(HSQL_DIALECT) then OPERATOR_IN else OPERATOR_EQUALS
  }

  class Configuration {
    const defaultCatalogName: Option<string>
    const defaultSchemaName: Option<string>
    const modifiedFlagsSuffix: string
    const correlatedSubqueryOperator: string

    const revisionListenerClass: Option<string>
    const auditStrategy: string
    const modifiedColumnNamingStrategy: string

    const nativeIdEnabled: bool
    const allowIdentifierReuse: bool
    const generateRevisionsForCollections: bool
    const doNotAuditOptimisticLockingField: bool
    const storeDeleteData: bool
    const cascadeDeleteRevision: bool
    const modifiedFlagsEnabled: bool
    const modifiedFlagsDefined: bool
    const findByRevisionExactMatch: bool

    const trackEntitiesChanged: bool
    var trackEntitiesOverride: bool

    const auditTablePrefix: string
    const auditTableSuffix: string
    const originalIdPropertyName: string
    const revisionFieldName: string
    const revisionNumberPath: string
    const revisionPropertyBasePath: string
    const revisionTypePropertyName: string
    const revisionTypePropertyType: string
    const revisionEndFieldName: string
    const revisionEndTimestampFieldName: Option<string>
    const embeddableSetOrdinalPropertyName: string
    const revisionEndTimestampEnabled: bool

    var customAuditTableNames: map<string, string>

    /** The derived fields agree with the ones they are built from. */
    predicate Valid()
    {
      && revisionPropertyBasePath == originalIdPropertyName + "." + revisionFieldName + "."
      && revisionNumberPath == revisionPropertyBasePath + "id"
      && revisionTypePropertyType == DEFAULT_REVTYPE_TYPE
      && (revisionEndTimestampFieldName.None? <==> !revisionEndTimestampEnabled)
    }

    /** Every final field holds the setting or, where it is unset, its default. */
    predicate BuiltFrom(s: Settings)
    {
      && Valid()
      && defaultCatalogName == s.defaultCatalog
      && defaultSchemaName == s.defaultSchema
      && correlatedSubqueryOperator == ResolveCorrelatedSubqueryOperator(s.dialect)
      && modifiedFlagsSuffix == StringOr(s.modifiedFlagSuffix, DEFAULT_MODIFIED_FLAG_SUFFIX)
      && nativeIdEnabled == BoolOr(s.useRevisionEntityWithNativeId, true)
      && allowIdentifierReuse == BoolOr(s.allowIdentifierReuse, false)
      && generateRevisionsForCollections == BoolOr(s.revisionOnCollectionChange, true)
      && doNotAuditOptimisticLockingField == BoolOr(s.doNotAuditOptimisticLockingField, true)
      && storeDeleteData == BoolOr(s.storeDataAtDelete, false)
      && cascadeDeleteRevision == BoolOr(s.cascadeDeleteRevision, false)
      && trackEntitiesChanged == BoolOr(s.trackEntitiesChangedInRevision, false)
      && modifiedFlagsDefined == s.globalWithModifiedFlag.Some?
      && modifiedFlagsEnabled == BoolOr(s.globalWithModifiedFlag, false)
      && findByRevisionExactMatch == BoolOr(s.findByRevisionExactMatch, false)
      && auditTablePrefix == StringOr(s.auditTablePrefix, DEFAULT_PREFIX)
      && auditTableSuffix == StringOr(s.auditTableSuffix, DEFAULT_SUFFIX)
      && originalIdPropertyName == StringOr(s.originalIdPropName, DEFAULT_ORIGINAL_ID)
      && revisionFieldName == StringOr(s.revisionFieldName, DEFAULT_REV_FIELD)
      && revisionTypePropertyName == StringOr(s.revisionTypeFieldName, DEFAULT_REVTYPE_FIELD)
      && revisionEndFieldName == StringOr(s.validityEndRevFieldName, DEFAULT_REVEND_FIELD)
      && revisionEndTimestampEnabled == BoolOr(s.storeRevendTimestamp, false)
      && revisionEndTimestampFieldName ==
           (if revisionEndTimestampEnabled then Some(StringOr(s.revendTimestampFieldName, DEFAULT_REV_TSTMP_FIELD)) else None)
      && embeddableSetOrdinalPropertyName == StringOr(s.embeddableSetOrdinalFieldName, DEFAULT_SETORDINAL_FIELD)
    }

    constructor (s: Settings, resolved: Resolved)
      ensures BuiltFrom(s)
      ensures revisionListenerClass == resolved.revisionListenerClass
      ensures modifiedColumnNamingStrategy == resolved.modifiedColumnNamingStrategy
      ensures auditStrategy == resolved.auditStrategy
      ensures !trackEntitiesOverride && customAuditTableNames == map[]
    {
      defaultCatalogName := s.defaultCatalog;
      defaultSchemaName := s.defaultSchema;
      correlatedSubqueryOperator := ResolveCorrelatedSubqueryOperator(s.dialect);
      modifiedFlagsSuffix := StringOr(s.modifiedFlagSuffix, DEFAULT_MODIFIED_FLAG_SUFFIX);
      revisionListenerClass := resolved.revisionListenerClass;
      modifiedColumnNamingStrategy := resolved.modifiedColumnNamingStrategy;
      auditStrategy := resolved.auditStrategy;
      nativeIdEnabled := BoolOr(s.useRevisionEntityWithNativeId, true);
      allowIdentifierReuse := BoolOr(s.allowIdentifierReuse, false);
      generateRevisionsForCollections := BoolOr(s.revisionOnCollectionChange, true);
      doNotAuditOptimisticLockingField := BoolOr(s.doNotAuditOptimisticLockingField, true);
      storeDeleteData := BoolOr(s.storeDataAtDelete, false);
      cascadeDeleteRevision := BoolOr(s.cascadeDeleteRevision, false);
      trackEntitiesChanged := BoolOr(s.trackEntitiesChangedInRevision, false);
      modifiedFlagsDefined := s.globalWithModifiedFlag.Some?;
      modifiedFlagsEnabled := BoolOr(s.globalWithModifiedFlag, false);
      findByRevisionExactMatch := BoolOr(s.findByRevisionExactMatch, false);
      auditTablePrefix := StringOr(s.auditTablePrefix, DEFAULT_PREFIX);
      auditTableSuffix := StringOr(s.auditTableSuffix, DEFAULT_SUFFIX);
      originalIdPropertyName := StringOr(s.originalIdPropName, DEFAULT_ORIGINAL_ID);
      revisionFieldName := StringOr(s.revisionFieldName, DEFAULT_REV_FIELD);
      revisionTypePropertyName := StringOr(s.revisionTypeFieldName, DEFAULT_REVTYPE_FIELD);
      revisionTypePropertyType := DEFAULT_REVTYPE_TYPE;
      revisionEndFieldName := StringOr(s.validityEndRevFieldName, DEFAULT_REVEND_FIELD);
      var endTimestampEnabled := BoolOr(s.storeRevendTimestamp, false);
      revisionEndTimestampEnabled := endTimestampEnabled;
      if endTimestampEnabled {
        revisionEndTimestampFieldName := Some(StringOr(s.revendTimestampFieldName, DEFAULT_REV_TSTMP_FIELD));
      } else {
        revisionEndTimestampFieldName := None;
      }
      embeddableSetOrdinalPropertyName := StringOr(s.embeddableSetOrdinalFieldName, DEFAULT_SETORDINAL_FIELD);
      var basePath := StringOr(s.originalIdPropName, DEFAULT_ORIGINAL_ID) + "." + StringOr(s.revisionFieldName, DEFAULT_REV_FIELD) + ".";
      revisionPropertyBasePath := basePath;
      revisionNumberPath := basePath + "id";
      trackEntitiesOverride := false;
      customAuditTableNames := map[];
    }

    /** `isTrackEntitiesChanged`: on when either the override or the setting is on. */
    function IsTrackEntitiesChanged(): (r: bool)
      reads this`trackEntitiesOverride
      ensures r == (trackEntitiesOverride || trackEntitiesChanged)
    {
      if trackEntitiesOverride then trackEntitiesOverride else trackEntitiesChanged
    }

    /** `setTrackEntitiesChanged`: sets the override. Setting it to false gives back the
        configured value, so the override can switch tracking on but never off. */
    method SetTrackEntitiesChanged(trackEntities: bool)
      modifies this`trackEntitiesOverride
      ensures trackEntitiesOverride == trackEntities
      ensures trackEntities ==> IsTrackEntitiesChanged()
      ensures !trackEntities ==> IsTrackEntitiesChanged() == trackEntitiesChanged
    {
      trackEntitiesOverride := trackEntities;
    }

    /** `getRevisionPropertyPath`: the path of a property of the revision entity as seen
        from an audit entity, `originalId.REV.<property>` under the default names. */
    function GetRevisionPropertyPath(propertyName: string): (path: string)
      requires Valid()
      ensures path == originalIdPropertyName + "." + revisionFieldName + "." + propertyName
    {
      revisionPropertyBasePath + propertyName
    }

    /** `getAuditEntityName`: the audit table prefix, then the entity name, then the
        audit table suffix. */
    function GetAuditEntityName(entityName: string): (name: string)
      ensures |name| == |auditTablePrefix| + |entityName| + |auditTableSuffix|
      ensures name[..|auditTablePrefix|] == auditTablePrefix
      ensures name[|auditTablePrefix|..|auditTablePrefix| + |entityName|] == entityName
      ensures name[|auditTablePrefix| + |entityName|..] == auditTableSuffix
    {
      auditTablePrefix + entityName + auditTableSuffix
    }

    /** `addCustomAuditTableName`: registers (or replaces) the audit table name of an
        entity; other registrations stay as they were. */
    method AddCustomAuditTableName(entityName: string, tableName: string)
      modifies this`customAuditTableNames
      ensures customAuditTableNames == old(customAuditTableNames)[entityName := tableName]
      ensures forall anyTable :: GetAuditTableName(entityName, anyTable) == tableName
    {
      customAuditTableNames := customAuditTableNames[entityName := tableName];
    }

    /** `getAuditTableName`: a registered custom name wins; otherwise the table name is
        prefixed and suffixed like an entity name (and, being a function, the lookup
        registers nothing). */
    function GetAuditTableName(entityName: string, tableName: string): (name: string)
      reads this`customAuditTableNames
      ensures entityName in customAuditTableNames ==> name == customAuditTableNames[entityName]
      ensures entityName !in customAuditTableNames ==> name == auditTablePrefix + tableName + auditTableSuffix
    {
      if entityName in customAuditTableNames then customAuditTableNames[entityName] else GetAuditEntityName(tableName)
    }
  }

  /** With no property set, every flag takes its documented default and the revision
      type column is a byte. */
  lemma DefaultFlags(c: Configuration)
    requires c.BuiltFrom(Unset)
    ensures c.nativeIdEnabled && !c.allowIdentifierReuse && c.generateRevisionsForCollections
    ensures !c.storeDeleteData && !c.trackEntitiesChanged && !c.modifiedFlagsEnabled && !c.modifiedFlagsDefined
    ensures c.doNotAuditOptimisticLockingField && !c.cascadeDeleteRevision && !c.findByRevisionExactMatch
    ensures c.revisionTypePropertyType == "byte"
    ensures c.correlatedSubqueryOperator == "="
    ensures c.revisionEndTimestampFieldName == None
  {
  }

  /** With prefix and suffix unset, the audit entity of `SimpleEntity` is
      `SimpleEntity_AUD`, and in general the name is the entity name followed by `_AUD`. */
  lemma DefaultAuditEntityName(c: Configuration, entityName: string)
    requires c.BuiltFrom(Unset)
    ensures c.GetAuditEntityName(entityName) == entityName + "_AUD"
    ensures c.GetAuditEntityName("SimpleEntity") == "SimpleEntity_AUD"
  {
  }

  /** Different entities have different audit entities, whatever the prefix and
      suffix. */
  lemma AuditEntityNameInjective(c: Configuration, a: string, b: string)
    requires c.GetAuditEntityName(a) == c.GetAuditEntityName(b)
    ensures a == b
  {
    var p := |c.auditTablePrefix|;
    var na := c.GetAuditEntityName(a);
    assert |a| == |b|;
    assert a == na[p..p + |a|];
  }

  /** The revision-end timestamp column has a name exactly when the timestamp is stored;
      unless set otherwise that name is `REVEND_TSTMP`. */
  lemma RevisionEndTimestampName(c: Configuration, s: Settings)
    requires c.BuiltFrom(s)
    ensures c.revisionEndTimestampFieldName.None? <==> !c.revisionEndTimestampEnabled
    ensures c.revisionEndTimestampEnabled && s.revendTimestampFieldName.None? ==>
              c.revisionEndTimestampFieldName == Some("REVEND_TSTMP")
  {
  }

  /** The revision number path is the revision property path of the revision entity's
      `id` property. */
  lemma RevisionNumberPathIsIdPath(c: Configuration)
    requires c.Valid()
    ensures c.revisionNumberPath == c.GetRevisionPropertyPath("id")
    ensures c.revisionNumberPath == c.originalIdPropertyName + "." + c.revisionFieldName + ".id"
  {
  }
}
