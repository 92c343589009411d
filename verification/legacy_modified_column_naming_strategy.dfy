/** The default naming of modified-flag columns: an explicitly given column name is
    used as it is, otherwise the name derived from the property name and the
    modified-flag suffix. */
module LegacyModifiedColumnNaming {
  import opened Wrappers
  import opened Common
  import opened PropertyAuditing

  /** An attribute of a mapping; the modified-flag attribute is known by its
      column name. */
  datatype Attribute = ModifiedFlagAttribute(columnName: Option<string>)

  /** A mapping that attributes are added to, in order. */
  class AttributeContainer {
    var attributes: seq<Attribute>

    constructor ()
      ensures attributes == []
    {
      attributes := [];
    }

    method AddAttribute(a: Attribute)
      modifies this
      ensures attributes == old(attributes) + [a]
    {
      attributes := attributes + [a];
    }
  }

  /** `addModifiedColumns`: adds exactly one modified-flag attribute after the
      mapping's other attributes, named by the explicitly given column name when
      there is one (as it is, no suffix appended) and otherwise by the derived
      modified-flag name. */
  method AddModifiedColumns(mapping: AttributeContainer, propertyAuditingData: PropertyAuditingData)
    modifies mapping
    ensures |mapping.attributes| == |old(mapping.attributes)| + 1
    ensures mapping.attributes[..|old(mapping.attributes)|] == old(mapping.attributes)
    ensures var added := mapping.attributes[|old(mapping.attributes)|];
            && (propertyAuditingData.IsModifiedFlagNameExplicitlySpecified() ==>
                  added.columnName == propertyAuditingData.explicitModifiedFlagName)
            && (!propertyAuditingData.IsModifiedFlagNameExplicitlySpecified() ==>
                  added.columnName == propertyAuditingData.modifiedFlagName)
  {
    var columnName: Option<string>;
    if propertyAuditingData.IsModifiedFlagNameExplicitlySpecified() {
      columnName := propertyAuditingData.explicitModifiedFlagName;
    } else {
      columnName := propertyAuditingData.modifiedFlagName;
    }
    mapping.AddAttribute(ModifiedFlagAttribute(columnName));
  }
}
