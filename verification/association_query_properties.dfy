/** What the joins of an association query look like: the exceptions of
    `createEntityJoin`, the joins each relation kind adds, the OR groups that keep a
    LEFT join's missing rows, the target's revision restriction, and the order in
    which a tree of association queries is compiled. */
module AssociationQueryProperties {
  import opened Wrappers
  import opened Common
  import opened EntitiesMetadata
  import opened CriteriaTools
  import opened QueryRecording
  import opened EnversConfiguration
  import opened AssociationQuery

  /** The number of joins among `steps`. */
  function JoinCount(steps: seq<Step>): (n: nat)
    ensures n <= |steps|
    ensures n == 0 <==> forall i :: 0 <= i < |steps| ==> !steps[i].Join?
  {
    if steps == [] then 0
    else (if steps[0].Join? then 1 else 0) + JoinCount(steps[1..])
  }

  lemma {:induction false} JoinCountAppend(a: seq<Step>, b: seq<Step>)
    ensures JoinCount(a + b) == JoinCount(a) + JoinCount(b)
    decreases |a|
  {
    if a == [] {
      assert a + b == b;
    } else {
      assert (a + b)[1..] == a[1..] + b;
      JoinCountAppend(a[1..], b);
    }
  }

  /** Group `or` is opened under `root` as `OR(<path> is null, ...)`. */
  ghost predicate NullAlternative(steps: seq<Step>, root: nat, or: nat, path: string)
  {
    SubParameters(root, OR, or) in steps
    && (NullRestriction(or, path, true) in steps || NullRestriction(or, path, false) in steps)
  }

  /** A restriction in `group` also lets through rows whose `path` is null: the
      group is an `OR(<path> is null, ...)` under `root`, or an AND group inside one. */
  ghost predicate NullGuarded(steps: seq<Step>, root: nat, group: nat, path: string)
  {
    NullAlternative(steps, root, group, path)
    || exists or :: SubParameters(or, AND, group) in steps && NullAlternative(steps, root, or, path)
  }

  /** The null test of an `OR(<path> is null, ...)` group at positions `o` and `n`
      guards that group, and an AND group opened inside it at `a`. */
  lemma NullGuardedAt(steps: seq<Step>, o: nat, n: nat, a: nat, root: nat, or: nat, path: string, addAlias: bool)
    requires o < |steps| && n < |steps| && steps[o] == SubParameters(root, OR, or) && steps[n] == NullRestriction(or, path, addAlias)
    ensures NullGuarded(steps, root, or, path)
    ensures a < |steps| && steps[a].SubParameters? && steps[a].parent == or && steps[a].connective == AND ==>
              NullGuarded(steps, root, steps[a].group, path)
  {
    assert NullAlternative(steps, root, or, path);
    if a < |steps| && steps[a].SubParameters? && steps[a].parent == or && steps[a].connective == AND {
      assert SubParameters(or, AND, steps[a].group) in steps;
    }
  }

  /** Appending steps before or after keeps a group null-guarded. */
  lemma NullGuardedGrows(a: seq<Step>, b: seq<Step>, c: seq<Step>, root: nat, group: nat, path: string)
    requires NullGuarded(b, root, group, path)
    ensures NullGuarded(a + b + c, root, group, path)
  {
    var all := a + b + c;
    forall x | x in b
      ensures x in all
    {
      var i :| 0 <= i < |b| && b[i] == x;
      assert all[|a| + i] == x;
    }
    if !NullAlternative(b, root, group, path) {
      var or :| SubParameters(or, AND, group) in b && NullAlternative(b, root, or, path);
      assert SubParameters(or, AND, group) in all && NullAlternative(all, root, or, path);
    }
  }

  /** `steps` filters out rows whose `path` is DEL. */
  ghost predicate FiltersDeleted(steps: seq<Step>, path: string, addAlias: bool)
  {
    exists i :: 0 <= i < |steps| && steps[i].WhereWithParam? && steps[i].propertyName == path && steps[i].addAlias == addAlias
                && steps[i].op == "!=" && steps[i].value == DEL
  }

  /** The steps hold no join and no revision restriction of the audit strategy. */
  ghost predicate OnlyGroups(steps: seq<Step>)
  {
    forall i :: 0 <= i < |steps| ==> steps[i].SubParameters? || steps[i].NullRestriction?
  }

  /** Every revision restriction of the audit strategy in `steps` and every
      `!= DEL` filter is null-guarded under `root`. */
  ghost predicate RestrictionsGuarded(steps: seq<Step>, root: nat, revPath: string, delPath: string)
  {
    forall i :: StepGuarded(steps, i, root, revPath, delPath)
  }

  /** The `i`-th step, if it is a revision restriction or a `!= DEL` filter, is
      null-guarded under `root`. */
  ghost predicate StepGuarded(steps: seq<Step>, i: int, root: nat, revPath: string, delPath: string)
  {
    0 <= i < |steps| ==>
      && (steps[i].AssociationAtRevision? ==> NullGuarded(steps, root, steps[i].group, revPath))
      && (steps[i].WhereWithParam? ==> NullGuarded(steps, root, steps[i].group, delPath))
  }

  /** Steps that hold neither restrictions of the audit strategy nor filters keep
      the restrictions after them guarded. */
  lemma RestrictionsGuardedAfter(a: seq<Step>, b: seq<Step>, root: nat, revPath: string, delPath: string)
    requires forall i :: 0 <= i < |a| ==> !a[i].AssociationAtRevision? && !a[i].WhereWithParam?
    requires RestrictionsGuarded(b, root, revPath, delPath)
    ensures RestrictionsGuarded(a + b, root, revPath, delPath)
  {
    var all := a + b;
    forall i
      ensures StepGuarded(all, i, root, revPath, delPath)
    {
      if 0 <= i < |all| && (all[i].AssociationAtRevision? || all[i].WhereWithParam?) {
        assert all[i] == b[i - |a|];
        assert StepGuarded(b, i - |a|, root, revPath, delPath);
        NullGuardedGrows(a, b, [], root, all[i].group, if all[i].AssociationAtRevision? then revPath else delPath);
        assert a + b + [] == all;
      }
    }
  }

  lemma FiltersDeletedGrows(a: seq<Step>, b: seq<Step>, c: seq<Step>, path: string, addAlias: bool)
    requires FiltersDeleted(b, path, addAlias)
    ensures FiltersDeleted(a + b + c, path, addAlias)
  {
    var k :| 0 <= k < |b| && b[k].WhereWithParam? && b[k].propertyName == path && b[k].addAlias == addAlias
             && b[k].op == "!=" && b[k].value == DEL;
    assert (a + b + c)[|a| + k] == b[k];
  }

  /** For a LEFT join, a restriction goes into a new AND group inside a new
      `OR(<path> is null, ...)` under `parent`; otherwise straight into `parent`. */
  lemma LeftWrapShape(joinType: JoinType, parent: nat, nullPath: string, g: nat)
    ensures var w := LeftWrap(joinType, parent, nullPath, g);
            OnlyGroups(w.steps) && g <= w.nextGroup
            && (joinType == LEFT ==> NullGuarded(w.steps, parent, w.use, nullPath) && g <= w.use < w.nextGroup)
            && (joinType != LEFT ==> w.steps == [] && w.use == parent && w.nextGroup == g)
  {
    var w := LeftWrap(joinType, parent, nullPath, g);
    if joinType == LEFT {
      NullGuardedAt(w.steps, 0, 1, 2, parent, g, nullPath, true);
    }
  }

  /** The filter on deleted rows: for a LEFT join in a new `OR(<path> is null, ...)`
      under the middle group, otherwise in `current`. */
  lemma DelFilterShape(joinType: JoinType, middle: nat, current: nat, path: string, addAlias: bool, g: nat)
    ensures var d := DelFilter(joinType, middle, current, path, addAlias, g);
            FiltersDeleted(d.steps, path, addAlias) && g <= d.nextGroup
            && (forall i :: 0 <= i < |d.steps| ==> d.steps[i].SubParameters? || d.steps[i].NullRestriction? || d.steps[i].WhereWithParam?)
            && (joinType == LEFT ==>
                  forall i :: 0 <= i < |d.steps| && d.steps[i].WhereWithParam? ==> NullGuarded(d.steps, middle, d.steps[i].group, path))
            && (joinType != LEFT ==> forall i :: 0 <= i < |d.steps| ==> d.steps[i].WhereWithParam? && d.steps[i].group == current)
  {
    var d := DelFilter(joinType, middle, current, path, addAlias, g);
    if joinType == LEFT {
      NullGuardedAt(d.steps, 0, 1, 0, middle, g, path, addAlias);
      assert d.steps[2].WhereWithParam?;
    } else {
      assert d.steps[0].WhereWithParam?;
    }
  }

  /** The restrictions on a middle table's rows hold no join and no target
      restriction, but a restriction to the revision and a filter
      `<delPath> != DEL`. */
  lemma MiddleRevisionRestrictionContents(cfg: Configuration, joinType: JoinType, idData: MiddleIdDataRef, middleEntityName: string,
                                          middleAlias: string, delPath: string, addAlias: bool, middle: nat, g: nat)
    ensures var r := MiddleRevisionRestriction(cfg, joinType, idData, middleEntityName, middleAlias, delPath, addAlias, middle, g);
            (forall i :: 0 <= i < |r.steps| ==> !r.steps[i].Join? && !r.steps[i].EntityAtRevision?)
            && (exists i :: 0 <= i < |r.steps| && r.steps[i].AssociationAtRevision?)
            && FiltersDeleted(r.steps, delPath, addAlias)
  {
    var revPath := cfg.revisionNumberPath;
    var w := LeftWrap(joinType, middle, revPath, g);
    var at := AssociationAtRevision(w.use, revPath, cfg.revisionEndFieldName, idData, middleEntityName,
                                    middleAlias + "." + cfg.originalIdPropertyName, cfg.originalIdPropertyName, middleAlias);
    var d := DelFilter(joinType, middle, w.use, delPath, addAlias, w.nextGroup);
    var r := MiddleRevisionRestriction(cfg, joinType, idData, middleEntityName, middleAlias, delPath, addAlias, middle, g);
    assert r.steps == w.steps + [at] + d.steps;
    LeftWrapShape(joinType, middle, revPath, g);
    DelFilterShape(joinType, middle, w.use, delPath, addAlias, w.nextGroup);
    assert r.steps[|w.steps|] == at;
    FiltersDeletedGrows(w.steps + [at], d.steps, [], delPath, addAlias);
    assert w.steps + [at] + d.steps + [] == r.steps;
    forall i | 0 <= i < |r.steps|
      ensures !r.steps[i].Join? && !r.steps[i].EntityAtRevision?
    {
      if i < |w.steps| {
        assert r.steps[i] == w.steps[i];
      } else if i > |w.steps| {
        assert r.steps[i] == d.steps[i - |w.steps| - 1];
      }
    }
  }

  /** For a LEFT join both restrictions on a middle table's rows are null-guarded
      under the middle group. */
  lemma MiddleRevisionRestrictionGuarded(cfg: Configuration, joinType: JoinType, idData: MiddleIdDataRef, middleEntityName: string,
                                         middleAlias: string, delPath: string, addAlias: bool, middle: nat, g: nat)
    requires joinType == LEFT
    ensures var r := MiddleRevisionRestriction(cfg, joinType, idData, middleEntityName, middleAlias, delPath, addAlias, middle, g);
            RestrictionsGuarded(r.steps, middle, cfg.revisionNumberPath, delPath)
  {
    var revPath := cfg.revisionNumberPath;
    var r := MiddleRevisionRestriction(cfg, joinType, idData, middleEntityName, middleAlias, delPath, addAlias, middle, g);
    var at := AssociationAtRevision(g + 1, revPath, cfg.revisionEndFieldName, idData, middleEntityName,
                                    middleAlias + "." + cfg.originalIdPropertyName, cfg.originalIdPropertyName, middleAlias);
    assert r.steps == LeftMiddleSteps(at, middle, g, revPath, delPath, addAlias);
    LeftMiddleStepsGuarded(at, middle, g, revPath, delPath, addAlias);
  }

  /** The restrictions on a middle table's rows under a LEFT join, `at` being the
      restriction to the revision. */
  function LeftMiddleSteps(at: Step, middle: nat, g: nat, revPath: string, delPath: string, addAlias: bool): seq<Step>
  {
    [SubParameters(middle, OR, g), NullRestriction(g, revPath, true), SubParameters(g, AND, g + 1), at,
     SubParameters(middle, OR, g + 2), NullRestriction(g + 2, delPath, addAlias), WhereWithParam(g + 2, delPath, addAlias, "!=", DEL)]
  }

  lemma LeftMiddleStepsGuarded(at: Step, middle: nat, g: nat, revPath: string, delPath: string, addAlias: bool)
    requires at.AssociationAtRevision? && at.group == g + 1
    ensures RestrictionsGuarded(LeftMiddleSteps(at, middle, g, revPath, delPath, addAlias), middle, revPath, delPath)
  {
    var steps := LeftMiddleSteps(at, middle, g, revPath, delPath, addAlias);
    NullGuardedAt(steps, 0, 1, 2, middle, g, revPath, true);
    NullGuardedAt(steps, 4, 5, 0, middle, g + 2, delPath, addAlias);
    forall i
      ensures StepGuarded(steps, i, middle, revPath, delPath)
    {
      if 0 <= i < |steps| && i != 3 && i != 6 {
        assert !steps[i].AssociationAtRevision? && !steps[i].WhereWithParam?;
      }
    }
  }

  /** Without a LEFT join both restrictions on a middle table's rows go straight
      into the middle group, and no group is opened. */
  lemma MiddleRevisionRestrictionInner(cfg: Configuration, joinType: JoinType, idData: MiddleIdDataRef, middleEntityName: string,
                                       middleAlias: string, delPath: string, addAlias: bool, middle: nat, g: nat)
    requires joinType != LEFT
    ensures var r := MiddleRevisionRestriction(cfg, joinType, idData, middleEntityName, middleAlias, delPath, addAlias, middle, g);
            r.nextGroup == g && forall i :: 0 <= i < |r.steps| ==> r.steps[i].IsRestriction() && r.steps[i].group == middle
  {
  }

  /** A middle-table relation adds exactly two joins, first the middle table under a
      newly generated alias and then the target. */
  lemma MiddleJoinJoins(cfg: Configuration, lv: Level, rel: RelationDescription, audited: bool, target: string, c: Counters)
    ensures var e := MiddleJoin(cfg, lv, rel, audited, target, c);
            e.error.None? && e.next.aliasCounter == c.aliasCounter + 1 && JoinCount(e.steps) == 2
            && e.steps[0] == Join(lv.joinType, rel.auditMiddleEntityName, GeneratedAlias(c.aliasCounter), false, c.groupCount)
            && e.steps[1] == Join(lv.joinType, target, lv.alias, false, c.groupCount + 1)
  {
    var e := MiddleJoin(cfg, lv, rel, audited, target, c);
    var g := c.groupCount;
    var middleAlias := GeneratedAlias(c.aliasCounter);
    var joins := MiddleJoins(cfg, lv, rel, audited, target, middleAlias, g);
    var r := MiddleRevisionRestriction(cfg, lv.joinType, rel.referencingIdData, rel.auditMiddleEntityName, middleAlias,
                                       cfg.revisionTypePropertyName, true, g + 2, g + 3);
    assert e.steps == joins + r.steps;
    MiddleRevisionRestrictionContents(cfg, lv.joinType, rel.referencingIdData, rel.auditMiddleEntityName, middleAlias,
                                      cfg.revisionTypePropertyName, true, g + 2, g + 3);
    assert JoinCount(joins) == 2 by {
      assert joins[1..][1..] == joins[2..];
      assert JoinCount(joins[2..]) == 0;
    }
    JoinCountAppend(joins, r.steps);
  }

  /** A middle-table relation restricts the middle rows to the revision and filters
      out deleted middle rows, and adds no restriction on the target itself. */
  lemma MiddleJoinFilters(cfg: Configuration, lv: Level, rel: RelationDescription, audited: bool, target: string, c: Counters)
    ensures var e := MiddleJoin(cfg, lv, rel, audited, target, c);
            FiltersDeleted(e.steps, cfg.revisionTypePropertyName, true)
            && (forall i :: 0 <= i < |e.steps| ==> !e.steps[i].EntityAtRevision?)
  {
    var e := MiddleJoin(cfg, lv, rel, audited, target, c);
    var g := c.groupCount;
    var middleAlias := GeneratedAlias(c.aliasCounter);
    var joins := MiddleJoins(cfg, lv, rel, audited, target, middleAlias, g);
    var r := MiddleRevisionRestriction(cfg, lv.joinType, rel.referencingIdData, rel.auditMiddleEntityName, middleAlias,
                                       cfg.revisionTypePropertyName, true, g + 2, g + 3);
    assert e.steps == joins + r.steps;
    MiddleRevisionRestrictionContents(cfg, lv.joinType, rel.referencingIdData, rel.auditMiddleEntityName, middleAlias,
                                      cfg.revisionTypePropertyName, true, g + 2, g + 3);
    FiltersDeletedGrows(joins, r.steps, [], cfg.revisionTypePropertyName, true);
    assert joins + r.steps + [] == e.steps;
    forall i | 0 <= i < |e.steps|
      ensures !e.steps[i].EntityAtRevision?
    {
      if i >= |joins| {
        assert e.steps[i] == r.steps[i - |joins|];
      }
    }
  }

  /** For a LEFT join both restrictions on the middle rows are null-guarded under
      the middle table's where-group. */
  lemma MiddleJoinGuarded(cfg: Configuration, lv: Level, rel: RelationDescription, audited: bool, target: string, c: Counters)
    requires lv.joinType == LEFT
    ensures var e := MiddleJoin(cfg, lv, rel, audited, target, c);
            RestrictionsGuarded(e.steps, c.groupCount + 2, cfg.revisionNumberPath, cfg.revisionTypePropertyName)
  {
    var e := MiddleJoin(cfg, lv, rel, audited, target, c);
    var g := c.groupCount;
    var middleAlias := GeneratedAlias(c.aliasCounter);
    var joins := MiddleJoins(cfg, lv, rel, audited, target, middleAlias, g);
    var r := MiddleRevisionRestriction(cfg, lv.joinType, rel.referencingIdData, rel.auditMiddleEntityName, middleAlias,
                                       cfg.revisionTypePropertyName, true, g + 2, g + 3);
    assert e.steps == joins + r.steps;
    MiddleRevisionRestrictionGuarded(cfg, lv.joinType, rel.referencingIdData, rel.auditMiddleEntityName, middleAlias,
                                     cfg.revisionTypePropertyName, true, g + 2, g + 3);
    RestrictionsGuardedAfter(joins, r.steps, g + 2, cfg.revisionNumberPath, cfg.revisionTypePropertyName);
  }

  /** The TO_ONE and TO_MANY_NOT_OWNING joins: one join and its condition. */
  lemma SingleJoinShape(cfg: Configuration, lv: Level, rel: RelationDescription, audited: bool, target: string, c: Counters)
    ensures var e := ToOneJoin(cfg, lv, rel, audited, target, c);
            e.error.None? && e.next.aliasCounter == c.aliasCounter && JoinCount(e.steps) == 1
            && e.steps[0] == Join(lv.joinType, target, lv.alias, false, c.groupCount)
            && forall i :: 0 <= i < |e.steps| ==> !e.steps[i].EntityAtRevision?
    ensures var e := ToManyNotOwningJoin(cfg, lv, rel, target, c);
            e.error.None? && e.next.aliasCounter == c.aliasCounter && JoinCount(e.steps) == 1
            && e.steps[0] == Join(lv.joinType, target, lv.alias, false, c.groupCount)
            && forall i :: 0 <= i < |e.steps| ==> !e.steps[i].EntityAtRevision?
  {
    var one := ToOneJoin(cfg, lv, rel, audited, target, c);
    assert JoinCount(one.steps[1..]) == 0;
    var many := ToManyNotOwningJoin(cfg, lv, rel, target, c);
    assert JoinCount(many.steps[1..]) == 0;
  }

  /** `createEntityJoin` raises an exception exactly for an unsupported relation type,
      and for a TO_MANY_NOT_OWNING or TO_MANY_MIDDLE_NOT_OWNING relation to a
      non-audited target; the exception is an AuditException and comes before any
      join. */
  lemma EntityJoinErrors(cfg: Configuration, meta: Metadata, lv: Level, c: Counters)
    requires lv.relation.Some?
    ensures var e := EntityJoin(cfg, meta, lv, c);
            var t := lv.relation.value.relationType;
            e.error.Some? <==>
              !SupportedInQueries(t) || (lv.entityName !in meta.versioned && (t == TO_MANY_NOT_OWNING || t == TO_MANY_MIDDLE_NOT_OWNING))
    ensures var e := EntityJoin(cfg, meta, lv, c);
            !SupportedInQueries(lv.relation.value.relationType) ==> e.error == Some(UnsupportedRelationType(lv.relation.value.relationType))
    ensures var e := EntityJoin(cfg, meta, lv, c);
            e.error.Some? ==> e.error.value.IsAuditException() && e.steps == [] && e.next == c
  {
  }

  /** The target's revision restriction is among `steps`. */
  ghost predicate HasTargetRestriction(steps: seq<Step>)
  {
    exists i :: 0 <= i < |steps| && steps[i].EntityAtRevision?
  }

  /** The `i`-th step, if it restricts the target to the revision, is null-guarded
      under `root` for a LEFT join and sits in `root` otherwise. */
  ghost predicate TargetStepGuarded(steps: seq<Step>, i: int, root: nat, revPath: string, joinType: JoinType)
  {
    0 <= i < |steps| && steps[i].EntityAtRevision? ==>
      && (joinType == LEFT ==> NullGuarded(steps, root, steps[i].group, revPath))
      && (joinType != LEFT ==> steps[i].group == root)
  }

  /** The target's revision restriction adds no join; it restricts the target, for
      a LEFT join inside `OR(<revision> is null, ...)` under the level's where-group,
      otherwise in that group. */
  lemma TargetRestrictionShape(cfg: Configuration, lv: Level, c: Counters)
    ensures var t := TargetRestriction(cfg, lv, c);
            JoinCount(t.steps) == 0 && HasTargetRestriction(t.steps)
            && forall i :: TargetStepGuarded(t.steps, i, lv.parameters, cfg.revisionNumberPath, lv.joinType)
  {
    var t := TargetRestriction(cfg, lv, c);
    var g := c.groupCount;
    var last := |t.steps| - 1;
    assert t.steps[last].EntityAtRevision?;
    if lv.joinType == LEFT {
      NullGuardedAt(t.steps, 0, 1, 2, lv.parameters, g, cfg.revisionNumberPath, true);
      assert t.steps[2] == SubParameters(g, AND, g + 1);
    }
    forall i
      ensures TargetStepGuarded(t.steps, i, lv.parameters, cfg.revisionNumberPath, lv.joinType)
    {
    }
  }

  /** Steps without a target restriction in front keep the restrictions after
      them guarded. */
  lemma TargetRestrictionAfter(a: seq<Step>, b: seq<Step>, root: nat, revPath: string, joinType: JoinType)
    requires forall i :: 0 <= i < |a| ==> !a[i].EntityAtRevision?
    requires HasTargetRestriction(b) && forall i :: TargetStepGuarded(b, i, root, revPath, joinType)
    ensures HasTargetRestriction(a + b) && forall i :: TargetStepGuarded(a + b, i, root, revPath, joinType)
  {
    var all := a + b;
    var k :| 0 <= k < |b| && b[k].EntityAtRevision?;
    assert all[|a| + k] == b[k];
    forall i
      ensures TargetStepGuarded(all, i, root, revPath, joinType)
    {
      if 0 <= i < |all| && all[i].EntityAtRevision? {
        assert all[i] == b[i - |a|];
        assert TargetStepGuarded(b, i - |a|, root, revPath, joinType);
        if joinType == LEFT {
          NullGuardedGrows(a, b, [], root, all[i].group, revPath);
          assert a + b + [] == all;
        }
      }
    }
  }

  /** Each supported relation adds one join, or two through a middle table, and no
      restriction on the target. */
  lemma RelationJoinShape(cfg: Configuration, meta: Metadata, lv: Level, c: Counters)
    requires lv.relation.Some?
    ensures var j := RelationJoin(cfg, meta, lv, c);
            var t := lv.relation.value.relationType;
            j.error.None? ==>
              JoinCount(j.steps) == (if t == TO_MANY_MIDDLE || t == TO_MANY_MIDDLE_NOT_OWNING then 2 else 1)
              && forall i :: 0 <= i < |j.steps| ==> !j.steps[i].EntityAtRevision?
  {
    var rel := lv.relation.value;
    var audited := lv.entityName in meta.versioned;
    var target := if audited then cfg.GetAuditEntityName(lv.entityName) else lv.entityName;
    if rel.relationType == TO_MANY_MIDDLE || rel.relationType == TO_MANY_MIDDLE_NOT_OWNING {
      MiddleJoinJoins(cfg, lv, rel, audited, target, c);
      MiddleJoinFilters(cfg, lv, rel, audited, target, c);
    } else {
      SingleJoinShape(cfg, lv, rel, audited, target, c);
    }
  }

  /** A supported relation adds one join, or two through a middle table. */
  lemma EntityJoinJoins(cfg: Configuration, meta: Metadata, lv: Level, c: Counters)
    requires lv.relation.Some?
    ensures var e := EntityJoin(cfg, meta, lv, c);
            var t := lv.relation.value.relationType;
            e.error.None? ==> JoinCount(e.steps) == if t == TO_MANY_MIDDLE || t == TO_MANY_MIDDLE_NOT_OWNING then 2 else 1
  {
    var j := RelationJoin(cfg, meta, lv, c);
    RelationJoinShape(cfg, meta, lv, c);
    if j.error.None? && lv.entityName in meta.versioned {
      var t := TargetRestriction(cfg, lv, j.next);
      TargetRestrictionShape(cfg, lv, j.next);
      JoinCountAppend(j.steps, t.steps);
    }
  }

  /** The target's revision restriction is added if and only if the target is
      audited; for a LEFT join it is null-guarded under the level's where-group,
      otherwise it sits in that group. */
  lemma EntityJoinTargetRestriction(cfg: Configuration, meta: Metadata, lv: Level, c: Counters)
    requires lv.relation.Some?
    ensures var e := EntityJoin(cfg, meta, lv, c);
            e.error.None? ==>
              (HasTargetRestriction(e.steps) <==> lv.entityName in meta.versioned)
              && forall i :: TargetStepGuarded(e.steps, i, lv.parameters, cfg.revisionNumberPath, lv.joinType)
  {
    var j := RelationJoin(cfg, meta, lv, c);
    RelationJoinShape(cfg, meta, lv, c);
    if j.error.None? {
      if lv.entityName in meta.versioned {
        TargetRestrictionShape(cfg, lv, j.next);
        TargetRestrictionAfter(j.steps, TargetRestriction(cfg, lv, j.next).steps, lv.parameters, cfg.revisionNumberPath, lv.joinType);
      } else {
        forall i
          ensures TargetStepGuarded(j.steps, i, lv.parameters, cfg.revisionNumberPath, lv.joinType)
        {
        }
      }
    }
  }

  /** A component collection joins only its middle table. */
  lemma ComponentCollectionJoinCount(cfg: Configuration, lv: Level, c: Counters)
    requires lv.component.Some? && lv.component.value.componentType == MANY
    ensures JoinCount(ComponentJoin(cfg, lv, c).steps) == 1
  {
    var e := ComponentJoin(cfg, lv, c);
    var comp := lv.component.value;
    var g := c.groupCount;
    var delPath := lv.alias + "." + cfg.originalIdPropertyName + "." + cfg.revisionTypePropertyName;
    var r := MiddleRevisionRestriction(cfg, lv.joinType, comp.middleIdData, comp.auditMiddleEntityName, lv.alias,
                                       delPath, false, g + 1, g + 2);
    var joins := e.steps[..3];
    assert e.steps == joins + r.steps;
    MiddleRevisionRestrictionContents(cfg, lv.joinType, comp.middleIdData, comp.auditMiddleEntityName, lv.alias,
                                      delPath, false, g + 1, g + 2);
    assert JoinCount(joins) == 1 by {
      assert joins[1..][1..] == joins[2..];
    }
    JoinCountAppend(joins, r.steps);
  }

  /** A component never raises and adds one join: for a component collection its
      middle table, for a single component the audited owner table. */
  lemma ComponentJoinJoins(cfg: Configuration, lv: Level, c: Counters)
    requires lv.component.Some?
    ensures var e := ComponentJoin(cfg, lv, c);
            e.error.None? && e.next.aliasCounter == c.aliasCounter && JoinCount(e.steps) == 1
            && e.steps[0] == Join(lv.joinType, if lv.component.value.componentType == MANY then lv.component.value.auditMiddleEntityName
                                               else cfg.GetAuditEntityName(lv.entityName), lv.alias, false, c.groupCount)
  {
    var e := ComponentJoin(cfg, lv, c);
    if lv.component.value.componentType == MANY {
      ComponentCollectionJoinCount(cfg, lv, c);
    } else {
      assert e.steps[1..][1..] == e.steps[2..];
    }
  }

  /** A component collection restricts its middle rows like a middle-table
      relation, and so filters out deleted middle rows. */
  lemma ComponentJoinFilters(cfg: Configuration, lv: Level, c: Counters)
    requires lv.component.Some? && lv.component.value.componentType == MANY
    ensures var e := ComponentJoin(cfg, lv, c);
            FiltersDeleted(e.steps, lv.alias + "." + cfg.originalIdPropertyName + "." + cfg.revisionTypePropertyName, false)
  {
    var e := ComponentJoin(cfg, lv, c);
    var comp := lv.component.value;
    var g := c.groupCount;
    var delPath := lv.alias + "." + cfg.originalIdPropertyName + "." + cfg.revisionTypePropertyName;
    var r := MiddleRevisionRestriction(cfg, lv.joinType, comp.middleIdData, comp.auditMiddleEntityName, lv.alias,
                                       delPath, false, g + 1, g + 2);
    var joins := e.steps[..3];
    assert e.steps == joins + r.steps;
    MiddleRevisionRestrictionContents(cfg, lv.joinType, comp.middleIdData, comp.auditMiddleEntityName, lv.alias,
                                      delPath, false, g + 1, g + 2);
    FiltersDeletedGrows(joins, r.steps, [], delPath, false);
    assert joins + r.steps + [] == e.steps;
  }

  /** Compiling a node emits its join first; unless that join raised, its criteria
      follow in insertion order, each in the node's where-group under its alias, up
      to the first criterion that raises, whose exception then ends the
      compilation. */
  lemma CompileOrder(tree: QueryTree, k: nat, c: Counters)
    requires Ordered(tree) && k < |tree|
    ensures var q := tree[k].query;
            var join := LevelJoin(q.cfg, q.meta, q.LevelOf(), c);
            var own := CriteriaRun(q.parameters, q.alias, tree[k].criteria);
            var e := Compile(tree, k, c);
            |join.steps| <= |e.steps| && e.steps[..|join.steps|] == join.steps
            && (join.error.Some? ==> e == join)
            && (join.error.None? ==>
                  |join.steps| + |own.steps| <= |e.steps|
                  && (forall j :: 0 <= j < |own.steps| ==>
                        e.steps[|join.steps| + j] == Criterion(q.parameters, q.alias, tree[k].criteria[j]))
                  && (own.error.Some? ==> |e.steps| == |join.steps| + |own.steps| && e.error == own.error && e.next == join.next))
  {
    var q := tree[k].query;
    var join := LevelJoin(q.cfg, q.meta, q.LevelOf(), c);
    var e := Compile(tree, k, c);
    if join.error.None? {
      var own := CriteriaRun(q.parameters, q.alias, tree[k].criteria);
      if own.error.None? {
        var rest := ChildrenCompile(tree, k, 0, join.next);
        assert e.steps == join.steps + (own.steps + rest.steps);
      }
      assert e.steps[..|join.steps| + |own.steps|] == join.steps + own.steps;
      forall j | 0 <= j < |own.steps|
        ensures e.steps[|join.steps| + j] == Criterion(q.parameters, q.alias, tree[k].criteria[j])
      {
        assert e.steps[|join.steps| + j] == own.steps[j];
      }
    }
  }

  /** When neither the join nor any of its criteria raised, a node's compilation
      ends with its children's, in insertion order, which decide the counters and
      the exception. */
  lemma CompileChildrenLast(tree: QueryTree, k: nat, c: Counters)
    requires Ordered(tree) && k < |tree|
    ensures var q := tree[k].query;
            var join := LevelJoin(q.cfg, q.meta, q.LevelOf(), c);
            var rest := ChildrenCompile(tree, k, 0, join.next);
            var e := Compile(tree, k, c);
            join.error.None? && (forall j :: 0 <= j < |tree[k].criteria| ==> tree[k].criteria[j].raises.None?) ==>
              |join.steps| + |tree[k].criteria| <= |e.steps|
              && e.steps[|join.steps| + |tree[k].criteria|..] == rest.steps
              && e.next == rest.next && e.error == rest.error
  {
    var q := tree[k].query;
    var join := LevelJoin(q.cfg, q.meta, q.LevelOf(), c);
    var own := CriteriaRun(q.parameters, q.alias, tree[k].criteria);
    if join.error.None? && own.error.None? {
      var rest := ChildrenCompile(tree, k, 0, join.next);
      var e := Compile(tree, k, c);
      assert e.steps == join.steps + own.steps + rest.steps;
    }
  }

  /** `err` is the exception some criterion of the tree raises. */
  ghost predicate RaisedByCriterion(tree: QueryTree, err: QueryError)
  {
    exists n, j :: 0 <= n < |tree| && 0 <= j < |tree[n].criteria| && tree[n].criteria[j].raises == Some(err)
  }

  /** Every exception that stops a compilation is an AuditException raised by
      `createEntityJoin`, or the exception of one of the tree's criteria. */
  lemma {:induction false} CompileExceptions(tree: QueryTree, k: nat, c: Counters)
    requires Ordered(tree) && k < |tree|
    ensures var e := Compile(tree, k, c);
            e.error.Some? ==>
              (e.error.value.IsAuditException() && (e.error.value.NonAuditedTarget? || e.error.value.UnsupportedRelationType?))
              || RaisedByCriterion(tree, e.error.value)
    decreases |tree| - k, 1
  {
    var q := tree[k].query;
    var lv := q.LevelOf();
    var join := LevelJoin(q.cfg, q.meta, lv, c);
    if lv.relation.Some? {
      EntityJoinErrors(q.cfg, q.meta, lv, c);
    } else {
      ComponentJoinJoins(q.cfg, lv, c);
    }
    if join.error.None? {
      var own := CriteriaRun(q.parameters, q.alias, tree[k].criteria);
      if own.error.Some? {
        assert tree[k].criteria[|own.steps|].raises == Some(own.error.value);
      } else {
        ChildrenCompileExceptions(tree, k, 0, join.next);
      }
    }
  }

  lemma {:induction false} ChildrenCompileExceptions(tree: QueryTree, k: nat, i: nat, c: Counters)
    requires Ordered(tree) && k < |tree| && i <= |tree[k].children|
    ensures var e := ChildrenCompile(tree, k, i, c);
            e.error.Some? ==>
              (e.error.value.IsAuditException() && (e.error.value.NonAuditedTarget? || e.error.value.UnsupportedRelationType?))
              || RaisedByCriterion(tree, e.error.value)
    decreases |tree| - k, 0, |tree[k].children| - i
  {
    if i < |tree[k].children| {
      var first := ChildCompile(tree, k, i, c);
      CompileExceptions(tree, tree[k].children[i].serial, c);
      if first.error.None? {
        ChildrenCompileExceptions(tree, k, i + 1, first.next);
      }
    }
  }
}
