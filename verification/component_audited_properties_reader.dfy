/** The reader of the audited properties of a component (an embeddable): whether
    each property is audited, decided from the annotations and the audit overrides
    of the component, in a fixed order of priority. Annotations are plain inputs. */
module ComponentAuditedProperties {
  import opened Wrappers
  import opened Common
  import opened PropertyAuditing

  /** An `@Audited` annotation. */
  datatype Audited = Audited(targetAuditMode: RelationTargetAuditMode, modifiedColumnName: string)

  /** An `@AuditOverride` of the component: `forClass` is `None` for the default
      `void.class`, an empty `name` overrides the whole class. */
  datatype AuditOverrideData = AuditOverrideData(forClass: Option<string>, name: string, isAudited: bool)

  /** What the reader knows about the class that declares a property. */
  datatype DeclaringClass = DeclaringClass(name: string, overriddenNotAudited: bool, overriddenAudited: bool,
                                           mappedSuperclass: bool)

  /** What the reader knows about a property. */
  datatype Property = Property(name: string, audited: Option<Audited>, declaringClass: DeclaringClass,
                               overriddenNotAudited: bool, overriddenAudited: bool)

  /** The override applies to the class that declares the property. */
  predicate Applies(o: AuditOverrideData, cls: DeclaringClass)
  {
    o.forClass.Some? && o.forClass.value == cls.name
  }

  /** The first override that applies to the declaring class and names the
      property: its `isAudited`, if there is one. */
  function FirstPropertyOverride(overrides: seq<AuditOverrideData>, p: Property): (r: Option<bool>)
    ensures r.Some? ==> exists j :: 0 <= j < |overrides| && Applies(overrides[j], p.declaringClass)
                                    && overrides[j].name == p.name && overrides[j].isAudited == r.value
    ensures r.None? ==> forall j :: 0 <= j < |overrides| ==> !(Applies(overrides[j], p.declaringClass) && overrides[j].name == p.name)
  {
    if overrides == [] then None
    else if Applies(overrides[0], p.declaringClass) && overrides[0].name == p.name then Some(overrides[0].isAudited)
    else
      var r := FirstPropertyOverride(overrides[1..], p);
      assert forall j :: 1 <= j < |overrides| ==> overrides[j] == overrides[1..][j - 1];
      r
  }

  /** Some override of the whole declaring class says `isAudited == audited`. */
  predicate ClassOverride(overrides: seq<AuditOverrideData>, cls: DeclaringClass, audited: bool)
  {
    exists j :: 0 <= j < |overrides| && Applies(overrides[j], cls) && overrides[j].name == "" && overrides[j].isAudited == audited
  }

  /** Whether a component property is audited: an `@Audited` on the property wins;
      then the first override naming it; then any not-audited signal; then any
      audited signal; then an `@Audited` on the component; then a
      `@MappedSuperclass` declaring class is not audited; otherwise it is. */
  function AuditDecision(overrides: seq<AuditOverrideData>, p: Property, allClassAudited: Option<Audited>): (audited: bool)
  {
    var cls := p.declaringClass;
    if p.audited.Some? then true
    else match FirstPropertyOverride(overrides, p)
      case Some(decided) => decided
      case None =>
        if ClassOverride(overrides, cls, false) || p.overriddenNotAudited || cls.overriddenNotAudited then false
        else if ClassOverride(overrides, cls, true) || p.overriddenAudited || cls.overriddenAudited then true
        else if allClassAudited.Some? then true
        else !cls.mappedSuperclass
  }

  class ComponentAuditedPropertiesReader {
    /** The audit overrides of the component being read. */
    const auditingOverrides: seq<AuditOverrideData>

    constructor (auditingOverrides: seq<AuditOverrideData>)
      ensures this.auditingOverrides == auditingOverrides
    {
      this.auditingOverrides := auditingOverrides;
    }

    /** `ComponentAuditedPropertiesReader.isClassHierarchyTraversalNeeded`: the
        hierarchy of a component is always traversed, whatever its class-level
        annotation. */
    function IsClassHierarchyTraversalNeeded(allClassAudited: Option<Audited>): (needed: bool)
      ensures needed
    {
      true
    }

    /** `checkAudited`: whether `property` is audited. An `@Audited` on the property
        also fills in `propertyData`; `checkUsingModifiedFlag` is the reader's
        decision on the annotation's modified flag. */
    method CheckAudited(property: Property, propertyData: PropertyAuditingData, propertyName: string,
                        allClassAudited: Option<Audited>, modifiedFlagSuffix: string,
                        checkUsingModifiedFlag: Audited -> bool)
      returns (audited: bool)
      modifies propertyData
      ensures audited == AuditDecision(auditingOverrides, property, allClassAudited)
      ensures property.audited.Some? ==>
                var aud := property.audited.value;
                && propertyData.relationTargetAuditMode == aud.targetAuditMode
                && propertyData.usingModifiedFlag == checkUsingModifiedFlag(aud)
                && propertyData.modifiedFlagName == Some(ModifiedColumnName(propertyName, modifiedFlagSuffix))
                && propertyData.explicitModifiedFlagName ==
                     if aud.modifiedColumnName != "" then Some(aud.modifiedColumnName) else old(propertyData.explicitModifiedFlagName)
      ensures property.audited.None? ==> unchanged(propertyData)
    {
      if property.audited.Some? {
        var aud := property.audited.value;
        propertyData.relationTargetAuditMode := aud.targetAuditMode;
        propertyData.usingModifiedFlag := checkUsingModifiedFlag(aud);
        propertyData.modifiedFlagName := Some(ModifiedColumnName(propertyName, modifiedFlagSuffix));
        if aud.modifiedColumnName != "" {
          propertyData.explicitModifiedFlagName := Some(aud.modifiedColumnName);
        }
        return true;
      }
      var declaringClass := property.declaringClass;
      var classAuditedOverride := false;
      var classNotAuditedOverride := false;
      for i := 0 to |auditingOverrides|
        invariant unchanged(propertyData)
        invariant FirstPropertyOverride(auditingOverrides, property) == FirstPropertyOverride(auditingOverrides[i..], property)
        invariant classNotAuditedOverride == ClassOverride(auditingOverrides[..i], declaringClass, false)
        invariant classAuditedOverride == ClassOverride(auditingOverrides[..i], declaringClass, true)
      {
        var auditOverride := auditingOverrides[i];
        assert auditingOverrides[..i + 1] == auditingOverrides[..i] + [auditOverride];
        assert auditingOverrides[i..][1..] == auditingOverrides[i + 1..];
        if auditOverride.forClass.Some? {
          var className := auditOverride.forClass.value;
          if declaringClass.name == className {
            if !auditOverride.isAudited {
              if auditOverride.name == "" {
                classNotAuditedOverride := true;
              }
              if property.name == auditOverride.name {
                return false;
              }
            } else {
              if auditOverride.name == "" {
                classAuditedOverride := true;
              }
              if property.name == auditOverride.name {
                return true;
              }
            }
          }
        }
        ClassOverrideAppend(auditingOverrides[..i], auditOverride, declaringClass);
      }
      assert auditingOverrides[..|auditingOverrides|] == auditingOverrides;
      if classNotAuditedOverride || property.overriddenNotAudited || declaringClass.overriddenNotAudited {
        return false;
      }
      if classAuditedOverride || property.overriddenAudited || declaringClass.overriddenAudited {
        return true;
      }
      if allClassAudited.Some? {
        return true;
      }
      if declaringClass.mappedSuperclass {
        return false;
      }
      return true;
    }
  }

  /** One more override adds a class override exactly when it is one. */
  lemma ClassOverrideAppend(overrides: seq<AuditOverrideData>, o: AuditOverrideData, cls: DeclaringClass)
    ensures forall audited: bool ::
              ClassOverride(overrides + [o], cls, audited) <==>
                ClassOverride(overrides, cls, audited) || (Applies(o, cls) && o.name == "" && o.isAudited == audited)
  {
    var all := overrides + [o];
    forall audited: bool
      ensures ClassOverride(all, cls, audited) <==>
                ClassOverride(overrides, cls, audited) || (Applies(o, cls) && o.name == "" && o.isAudited == audited)
    {
      if ClassOverride(overrides, cls, audited) {
        var j :| 0 <= j < |overrides| && Applies(overrides[j], cls) && overrides[j].name == "" && overrides[j].isAudited == audited;
        assert all[j] == overrides[j];
      }
      if Applies(o, cls) && o.name == "" && o.isAudited == audited {
        assert all[|overrides|] == o;
      }
      if ClassOverride(all, cls, audited) {
        var j :| 0 <= j < |all| && Applies(all[j], cls) && all[j].name == "" && all[j].isAudited == audited;
        if j < |overrides| {
          assert all[j] == overrides[j];
        }
      }
    }
  }

  /** The first override that applies to the declaring class and names the
      property decides, whatever the overrides after it say. */
  lemma {:induction false} FirstNamingOverrideDecides(overrides: seq<AuditOverrideData>, p: Property, allClassAudited: Option<Audited>, j: nat)
    requires p.audited.None?
    requires j < |overrides| && Applies(overrides[j], p.declaringClass) && overrides[j].name == p.name
    requires forall k :: 0 <= k < j ==> !(Applies(overrides[k], p.declaringClass) && overrides[k].name == p.name)
    ensures AuditDecision(overrides, p, allClassAudited) == overrides[j].isAudited
  {
    FirstPropertyOverrideAt(overrides, p, j);
  }

  lemma {:induction false} FirstPropertyOverrideAt(overrides: seq<AuditOverrideData>, p: Property, j: nat)
    requires j < |overrides| && Applies(overrides[j], p.declaringClass) && overrides[j].name == p.name
    requires forall k :: 0 <= k < j ==> !(Applies(overrides[k], p.declaringClass) && overrides[k].name == p.name)
    ensures FirstPropertyOverride(overrides, p) == Some(overrides[j].isAudited)
    decreases j
  {
    if j > 0 {
      assert !(Applies(overrides[0], p.declaringClass) && overrides[0].name == p.name);
      FirstPropertyOverrideAt(overrides[1..], p, j - 1);
    }
  }

  /** An override that does not apply to the declaring class (one for `void.class`
      or for another class) never changes the decision. */
  lemma {:induction false} InapplicableOverrideIgnored(before: seq<AuditOverrideData>, o: AuditOverrideData, after: seq<AuditOverrideData>,
                                                       p: Property, allClassAudited: Option<Audited>)
    requires !Applies(o, p.declaringClass)
    ensures AuditDecision(before + [o] + after, p, allClassAudited) == AuditDecision(before + after, p, allClassAudited)
  {
    FirstPropertyOverrideSkips(before, o, after, p);
    var cls := p.declaringClass;
    var with := before + [o] + after;
    var without := before + after;
    forall audited: bool
      ensures ClassOverride(with, cls, audited) == ClassOverride(without, cls, audited)
    {
      if ClassOverride(with, cls, audited) {
        var j :| 0 <= j < |with| && Applies(with[j], cls) && with[j].name == "" && with[j].isAudited == audited;
        if j < |before| {
          assert without[j] == with[j];
        } else {
          assert j > |before| && without[j - 1] == with[j];
        }
      }
      if ClassOverride(without, cls, audited) {
        var j :| 0 <= j < |without| && Applies(without[j], cls) && without[j].name == "" && without[j].isAudited == audited;
        if j < |before| {
          assert with[j] == without[j];
        } else {
          assert with[j + 1] == without[j];
        }
      }
    }
  }

  lemma {:induction false} FirstPropertyOverrideSkips(before: seq<AuditOverrideData>, o: AuditOverrideData, after: seq<AuditOverrideData>, p: Property)
    requires !Applies(o, p.declaringClass)
    ensures FirstPropertyOverride(before + [o] + after, p) == FirstPropertyOverride(before + after, p)
    decreases |before|
  {
    if before == [] {
      assert before + [o] + after == [o] + after;
      assert ([o] + after)[1..] == after;
      assert before + after == after;
    } else {
      assert (before + [o] + after)[0] == before[0] && (before + after)[0] == before[0];
      assert (before + [o] + after)[1..] == before[1..] + [o] + after;
      assert (before + after)[1..] == before[1..] + after;
      FirstPropertyOverrideSkips(before[1..], o, after, p);
    }
  }

  /** When no `@Audited` is on the property and no override names it, any
      not-audited signal makes the property not audited, whatever audited signals
      there are. */
  lemma NotAuditedSignalWins(overrides: seq<AuditOverrideData>, p: Property, allClassAudited: Option<Audited>, j: nat)
    requires p.audited.None?
    requires forall k :: 0 <= k < |overrides| ==> !(Applies(overrides[k], p.declaringClass) && overrides[k].name == p.name)
    requires j < |overrides| && Applies(overrides[j], p.declaringClass) && overrides[j].name == "" && !overrides[j].isAudited
    ensures !AuditDecision(overrides, p, allClassAudited)
  {
    assert ClassOverride(overrides, p.declaringClass, false);
  }

  /** Without overrides and override signals, a component-level `@Audited` makes
      the property audited; otherwise a property declared in a
      `@MappedSuperclass` is not audited and any other property is. */
  lemma DefaultDecision(p: Property, allClassAudited: Option<Audited>)
    requires p.audited.None? && !p.overriddenNotAudited && !p.overriddenAudited
    requires !p.declaringClass.overriddenNotAudited && !p.declaringClass.overriddenAudited
    ensures AuditDecision([], p, allClassAudited) == (allClassAudited.Some? || !p.declaringClass.mappedSuperclass)
  {
  }
}
