/** The per-property auditing settings that the metadata readers fill in and the
    modified-column naming strategies read. */
module PropertyAuditing {
  import opened Wrappers
  import opened Common

  /** The modified-flag column name derived from a property name: the property
      name followed by the configured suffix. */
  function ModifiedColumnName(propertyName: string, suffix: string): (name: string)
    ensures |name| == |propertyName| + |suffix|
    ensures name[..|propertyName|] == propertyName && name[|propertyName|..] == suffix
  {
    propertyName + suffix
  }

  /** The mutable auditing data of one property. */
  class PropertyAuditingData {
    var relationTargetAuditMode: RelationTargetAuditMode
    var usingModifiedFlag: bool
    var modifiedFlagName: Option<string>
    var explicitModifiedFlagName: Option<string>

    constructor ()
      ensures relationTargetAuditMode == AUDITED && !usingModifiedFlag
      ensures modifiedFlagName.None? && explicitModifiedFlagName.None?
    {
      relationTargetAuditMode := AUDITED;
      usingModifiedFlag := false;
      modifiedFlagName := None;
      explicitModifiedFlagName := None;
    }

    /** A modified-flag column name was given explicitly. */
    predicate IsModifiedFlagNameExplicitlySpecified()
      reads this
    {
      explicitModifiedFlagName.Some?
    }
  }
}
