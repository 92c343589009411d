/** A recording stand-in for Envers' `QueryBuilder` and `Parameters`, which are not
    part of this model. Every call the association-query code makes on them (and on
    the id mappers, the audit strategy and the criteria it hands them to) is recorded
    as a `Step`; a `Parameters` object is identified by the number of the group it
    was created as. */
module QueryRecording {
  import opened Wrappers
  import opened Common
  import opened EntitiesMetadata
  import opened CriteriaTools

  /** jakarta.persistence.criteria.JoinType. */
  datatype JoinType = INNER | LEFT | RIGHT

  /** `Parameters.AND` / `Parameters.OR`. */
  datatype Connective = AND | OR

  /** An `AuditCriterion` added to an association query; what it adds is its own
      business. `raises` is the exception its `addToQuery` raises when the query is
      compiled (checking a property against the metadata, for instance), if any. */
  datatype CriterionRef = CriterionRef(name: string, raises: Option<QueryError>)

  datatype Step =
      /** `addJoin`: a join whose on-clause is the new group `conditions`. */
    | Join(joinType: JoinType, entityName: string, alias: string, fetch: bool, conditions: nat)
      /** `addParameters`: a new top-level where-group for the alias. */
    | RootParameters(alias: string, group: nat)
      /** `Parameters.addSubParameters`: the group `group` nested in `parent`. */
    | SubParameters(parent: nat, connective: Connective, group: nat)
    | NullRestriction(group: nat, propertyName: string, addAlias: bool)
    | WhereWithParam(group: nat, propertyName: string, addAlias: bool, op: string, value: RevisionType)
    | WhereProperties(group: nat, alias1: string, propertyName1: string, op: string, alias2: string, propertyName2: string)
      /** `IdMapper.addIdsEqualToQuery`; the two-prefix overload has no other mapper. */
    | IdsEqual(group: nat, mapper: IdMapperRef, prefix1: string, otherMapper: Option<IdMapperRef>, prefix2: string)
      /** `AuditStrategy.addAssociationAtRevisionRestriction`. */
    | AssociationAtRevision(group: nat, revisionProperty: string, revisionEndProperty: string, idData: MiddleIdDataRef,
                            middleEntityName: string, middleOriginalIdPath: string, originalIdPropertyName: string, middleAlias: string)
      /** `AuditStrategy.addEntityAtRevisionRestriction`. */
    | EntityAtRevision(group: nat, revisionProperty: string, revisionEndProperty: string, idData: MiddleIdDataRef,
                       originalIdPropertyName: string, alias: string, subqueryAlias: string)
      /** `AuditCriterion.addToQuery`. */
    | Criterion(group: nat, alias: string, criterion: CriterionRef)
  {
    /** Steps that only add to an existing group, and allocate nothing. */
    predicate IsRestriction()
    {
      NullRestriction? || WhereWithParam? || WhereProperties? || IdsEqual? || AssociationAtRevision? || EntityAtRevision? || Criterion?
    }
  }

  /** The builder's two counters: generated aliases and allocated groups. */
  datatype Counters = Counters(aliasCounter: nat, groupCount: nat)

  function Digit(d: nat): char
    requires d < 10
  {
    "0123456789"[d]
  }

  /** The decimal numeral of `n`. */
  function Decimal(n: nat): (s: string)
    ensures |s| >= 1
    ensures |s| == 1 <==> n < 10
    ensures s[|s| - 1] == Digit(n % 10)
    decreases n
  {
    if n < 10 then [Digit(n)] else Decimal(n / 10) + [Digit(n % 10)]
  }

  /** `generateAlias`: `_e` followed by the counter's value. */
  function GeneratedAlias(n: nat): string
  {
    "_e" + Decimal(n)
  }

  lemma DigitInjective(a: nat, b: nat)
    requires a < 10 && b < 10
    ensures Digit(a) == Digit(b) ==> a == b
  {
  }

  lemma {:induction false} DecimalInjective(m: nat, n: nat)
    ensures Decimal(m) == Decimal(n) ==> m == n
    decreases m
  {
    if Decimal(m) == Decimal(n) {
      var s := Decimal(m);
      DigitInjective(m % 10, n % 10);
      if m >= 10 {
        assert n >= 10;
        assert Decimal(m / 10) == s[..|s| - 1] == Decimal(n / 10);
        DecimalInjective(m / 10, n / 10);
      }
    }
  }

  /** Two generated aliases are equal only if they were generated from the same
      counter value, so a builder whose counter only grows never hands out the same
      alias twice. */
  lemma GeneratedAliasInjective(m: nat, n: nat)
    ensures GeneratedAlias(m) == GeneratedAlias(n) ==> m == n
  {
    if GeneratedAlias(m) == GeneratedAlias(n) {
      assert Decimal(m) == GeneratedAlias(m)[2..] == GeneratedAlias(n)[2..] == Decimal(n);
      DecimalInjective(m, n);
    }
  }

  class QueryBuilder {
    var aliasCounter: nat
    var groupCount: nat
    var steps: seq<Step>

    function Counts(): Counters
      reads this
    {
      Counters(aliasCounter, groupCount)
    }

    constructor ()
      ensures aliasCounter == 0 && groupCount == 0 && steps == []
    {
      aliasCounter := 0;
      groupCount := 0;
      steps := [];
    }

    method GenerateAlias() returns (alias: string)
      modifies this`aliasCounter
      ensures alias == GeneratedAlias(old(aliasCounter))
      ensures aliasCounter == old(aliasCounter) + 1
    {
      alias := GeneratedAlias(aliasCounter);
      aliasCounter := aliasCounter + 1;
    }

    method AddJoin(joinType: JoinType, entityName: string, alias: string, fetch: bool) returns (conditions: nat)
      modifies this`groupCount, this`steps
      ensures conditions == old(groupCount) && groupCount == old(groupCount) + 1
      ensures steps == old(steps) + [Join(joinType, entityName, alias, fetch, conditions)]
    {
      conditions := groupCount;
      groupCount := groupCount + 1;
      steps := steps + [Join(joinType, entityName, alias, fetch, conditions)];
    }

    method AddParameters(alias: string) returns (group: nat)
      modifies this`groupCount, this`steps
      ensures group == old(groupCount) && groupCount == old(groupCount) + 1
      ensures steps == old(steps) + [RootParameters(alias, group)]
    {
      group := groupCount;
      groupCount := groupCount + 1;
      steps := steps + [RootParameters(alias, group)];
    }

    method AddSubParameters(parent: nat, connective: Connective) returns (group: nat)
      modifies this`groupCount, this`steps
      ensures group == old(groupCount) && groupCount == old(groupCount) + 1
      ensures steps == old(steps) + [SubParameters(parent, connective, group)]
    {
      group := groupCount;
      groupCount := groupCount + 1;
      steps := steps + [SubParameters(parent, connective, group)];
    }

    /** A restriction added to an existing group, by the association query itself or
        by the id mapper, audit strategy or criterion it delegates to. */
    method Add(step: Step)
      requires step.IsRestriction()
      modifies this`steps
      ensures steps == old(steps) + [step]
    {
      steps := steps + [step];
    }
  }
}
