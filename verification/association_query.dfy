/** Association queries (AuditAssociationQueryImpl.java): a tree of joins hanging off
    an audit query. Each node registers its alias in the alias maps shared by the
    whole query; at compile time every node adds the joins and revision restrictions
    for its relation or component, then its criteria, then its children's. */
module AssociationQuery {
  import opened Wrappers
  import opened Common
  import opened EntitiesMetadata
  import opened CriteriaTools
  import opened QueryRecording
  import opened EnversConfiguration

  /** What one compilation step adds to the builder: the steps, the counters after
      them, and the exception that stopped it, if any. */
  datatype Emission = Emission(steps: seq<Step>, next: Counters, error: Option<QueryError>)

  /** The parts of an association query fixed at construction. */
  datatype Level = Level(
    joinType: JoinType,
    entityName: string,
    relation: Option<RelationDescription>,
    component: Option<ComponentDescription>,
    ownerAlias: string,
    ownerEntityName: string,
    alias: string,
    parameters: nat)

  /** Steps added to a where-group, the group later restrictions go to, and the next
      free group number. */
  datatype Grouped = Grouped(steps: seq<Step>, use: nat, nextGroup: nat)

  /** For a LEFT join, a revision restriction goes into `OR(<path> is null, AND(...))`
      under `parent`; otherwise straight into `parent`. */
  function LeftWrap(joinType: JoinType, parent: nat, nullPath: string, g: nat): Grouped
  {
    if joinType == LEFT then
      Grouped([SubParameters(parent, OR, g), NullRestriction(g, nullPath, true), SubParameters(g, AND, g + 1)], g + 1, g + 2)
    else
      Grouped([], parent, g)
  }

  /** The filter on deleted middle rows: `<path> != DEL`, for a LEFT join inside
      `OR(<path> is null, ...)` under the middle group, otherwise in `current`. */
  function DelFilter(joinType: JoinType, middle: nat, current: nat, path: string, addAlias: bool, g: nat): Grouped
  {
    if joinType == LEFT then
      Grouped([SubParameters(middle, OR, g), NullRestriction(g, path, addAlias), WhereWithParam(g, path, addAlias, "!=", DEL)], g, g + 1)
    else
      Grouped([WhereWithParam(current, path, addAlias, "!=", DEL)], current, g)
  }

  /** The join and condition of a TO_ONE relation. */
  function ToOneJoin(cfg: Configuration, lv: Level, rel: RelationDescription, audited: bool, target: string, c: Counters): Emission
  {
    var g := c.groupCount;
    var prefix := if audited then lv.alias + "." + cfg.originalIdPropertyName else lv.alias;
    Emission([Join(lv.joinType, target, lv.alias, false, g),
              IdsEqual(g, rel.idMapper, lv.ownerAlias, Some(EntityIdMapper(lv.entityName, audited)), prefix)],
             Counters(c.aliasCounter, g + 1), None)
  }

  /** The join and condition of a TO_MANY_NOT_OWNING relation to an audited target. */
  function ToManyNotOwningJoin(cfg: Configuration, lv: Level, rel: RelationDescription, target: string, c: Counters): Emission
  {
    var g := c.groupCount;
    Emission([Join(lv.joinType, target, lv.alias, false, g),
              IdsEqual(g, rel.idMapper, lv.alias, Some(EntityIdMapper(lv.ownerEntityName, true)), lv.ownerAlias + "." + cfg.originalIdPropertyName)],
             Counters(c.aliasCounter, g + 1), None)
  }

  /** The restrictions on a middle table's rows: valid at the queried revision (for
      a LEFT join, or missing), and not deleted. `middle` is the middle table's
      where-group and `g` the next group. */
  function MiddleRevisionRestriction(cfg: Configuration, joinType: JoinType, idData: MiddleIdDataRef, middleEntityName: string,
                                     middleAlias: string, delPath: string, addAlias: bool, middle: nat, g: nat): Grouped
  {
    var revPath := cfg.revisionNumberPath;
    var wrap := LeftWrap(joinType, middle, revPath, g);
    var atRevision := AssociationAtRevision(wrap.use, revPath, cfg.revisionEndFieldName, idData, middleEntityName,
                                            middleAlias + "." + cfg.originalIdPropertyName, cfg.originalIdPropertyName, middleAlias);
    var del := DelFilter(joinType, middle, wrap.use, delPath, addAlias, wrap.nextGroup);
    Grouped(wrap.steps + [atRevision] + del.steps, wrap.use, del.nextGroup)
  }

  /** The two joins of a relation through a middle table (middle under `middleAlias`,
      then target), the middle table's where-group and the two join conditions. */
  function MiddleJoins(cfg: Configuration, lv: Level, rel: RelationDescription, audited: bool, target: string,
                       middleAlias: string, g: nat): seq<Step>
  {
    var middleOriginalIdPath := middleAlias + "." + cfg.originalIdPropertyName;
    var targetPrefix := if audited then lv.alias + "." + cfg.originalIdPropertyName else lv.alias;
    [ Join(lv.joinType, rel.auditMiddleEntityName, middleAlias, false, g),
      Join(lv.joinType, target, lv.alias, false, g + 1),
      RootParameters(middleAlias, g + 2),
      IdsEqual(g, PrefixedMapper(rel.referencingIdData), middleOriginalIdPath,
               Some(OriginalMapper(rel.referencingIdData)), lv.ownerAlias + "." + cfg.originalIdPropertyName),
      IdsEqual(g + 1, PrefixedMapper(rel.referencedIdData), middleOriginalIdPath,
               Some(OriginalMapper(rel.referencedIdData)), targetPrefix)]
  }

  /** A relation through a middle table: the joins under a newly generated middle
      alias, then the restrictions on the middle table's rows. */
  function MiddleJoin(cfg: Configuration, lv: Level, rel: RelationDescription, audited: bool, target: string, c: Counters): Emission
  {
    var middleAlias := GeneratedAlias(c.aliasCounter);
    var g := c.groupCount;
    var restriction := MiddleRevisionRestriction(cfg, lv.joinType, rel.referencingIdData, rel.auditMiddleEntityName, middleAlias,
                                                 cfg.revisionTypePropertyName, true, g + 2, g + 3);
    Emission(MiddleJoins(cfg, lv, rel, audited, target, middleAlias, g) + restriction.steps,
             Counters(c.aliasCounter + 1, restriction.nextGroup), None)
  }

  /** The restriction of an audited target entity to the queried revision. */
  function TargetRestriction(cfg: Configuration, lv: Level, c: Counters): Emission
  {
    var wrap := LeftWrap(lv.joinType, lv.parameters, cfg.revisionNumberPath, c.groupCount);
    Emission(wrap.steps + [EntityAtRevision(wrap.use, cfg.revisionNumberPath, cfg.revisionEndFieldName, TargetIdData(lv.entityName),
                                            cfg.originalIdPropertyName, lv.alias, GeneratedAlias(c.aliasCounter))],
             Counters(c.aliasCounter + 1, wrap.nextGroup), None)
  }

  /** The join `createEntityJoin` makes for each kind of relation, or the exception
      it raises before joining. */
  function RelationJoin(cfg: Configuration, meta: Metadata, lv: Level, c: Counters): Emission
    requires lv.relation.Some?
  {
    var rel := lv.relation.value;
    var audited := lv.entityName in meta.versioned;
    var target := if audited then cfg.GetAuditEntityName(lv.entityName) else lv.entityName;
    if rel.relationType == TO_ONE then ToOneJoin(cfg, lv, rel, audited, target, c)
    else if rel.relationType == TO_MANY_NOT_OWNING then
      if !audited then Emission([], c, Some(NonAuditedTarget(rel.relationType)))
      else ToManyNotOwningJoin(cfg, lv, rel, target, c)
    else if rel.relationType == TO_MANY_MIDDLE || rel.relationType == TO_MANY_MIDDLE_NOT_OWNING then
      if !audited && rel.relationType == TO_MANY_MIDDLE_NOT_OWNING then Emission([], c, Some(NonAuditedTarget(rel.relationType)))
      else MiddleJoin(cfg, lv, rel, audited, target, c)
    else Emission([], c, Some(UnsupportedRelationType(rel.relationType)))
  }

  /** `createEntityJoin` on a relation: the relation's join, then the target's
      revision restriction when the target is audited. */
  function EntityJoin(cfg: Configuration, meta: Metadata, lv: Level, c: Counters): Emission
    requires lv.relation.Some?
  {
    var joined := RelationJoin(cfg, meta, lv, c);
    if joined.error.Some? || lv.entityName !in meta.versioned then joined
    else
      var restriction := TargetRestriction(cfg, lv, joined.next);
      Emission(joined.steps + restriction.steps, restriction.next, None)
  }

  /** `createComponentJoin` on a component. */
  function ComponentJoin(cfg: Configuration, lv: Level, c: Counters): Emission
    requires lv.component.Some?
  {
    var comp := lv.component.value;
    var g := c.groupCount;
    var middleOriginalIdPath := lv.alias + "." + cfg.originalIdPropertyName;
    var ownerPrefix := lv.ownerAlias + "." + cfg.originalIdPropertyName;
    if comp.componentType == MANY then
      var joins := [
        Join(lv.joinType, comp.auditMiddleEntityName, lv.alias, false, g),
        IdsEqual(g, PrefixedMapper(comp.middleIdData), middleOriginalIdPath, Some(OriginalMapper(comp.middleIdData)), ownerPrefix),
        RootParameters(lv.alias, g + 1)];
      var restriction := MiddleRevisionRestriction(cfg, lv.joinType, comp.middleIdData, comp.auditMiddleEntityName, lv.alias,
                                                   middleOriginalIdPath + "." + cfg.revisionTypePropertyName, false, g + 1, g + 2);
      Emission(joins + restriction.steps, Counters(c.aliasCounter, restriction.nextGroup), None)
    else
      Emission([Join(lv.joinType, cfg.GetAuditEntityName(lv.entityName), lv.alias, false, g),
                IdsEqual(g, EntityIdMapper(lv.entityName, true), ownerPrefix, None, middleOriginalIdPath),
                WhereProperties(g, lv.ownerAlias, cfg.revisionNumberPath, "=", lv.alias, cfg.revisionNumberPath)],
               Counters(c.aliasCounter, g + 1), None)
  }

  /** This level's join: on the relation if there is one, else on the component. */
  function LevelJoin(cfg: Configuration, meta: Metadata, lv: Level, c: Counters): Emission
    requires lv.relation.Some? || lv.component.Some?
  {
    if lv.relation.Some? then EntityJoin(cfg, meta, lv, c) else ComponentJoin(cfg, lv, c)
  }

  /** The steps the criteria of a level add, in order. */
  function CriteriaSteps(group: nat, alias: string, criteria: seq<CriterionRef>): (steps: seq<Step>)
    ensures |steps| == |criteria|
    ensures forall i :: 0 <= i < |criteria| ==> steps[i] == Criterion(group, alias, criteria[i])
  {
    if criteria == [] then [] else CriteriaSteps(group, alias, criteria[..|criteria| - 1]) + [Criterion(group, alias, criteria[|criteria| - 1])]
  }

  /** The position of the first criterion whose `addToQuery` raises, or the number
      of criteria when none does. */
  function FirstRaising(criteria: seq<CriterionRef>): (f: nat)
    ensures f <= |criteria|
    ensures forall i :: 0 <= i < f ==> criteria[i].raises.None?
    ensures f < |criteria| ==> criteria[f].raises.Some?
  {
    if criteria == [] || criteria[0].raises.Some? then 0 else 1 + FirstRaising(criteria[1..])
  }

  /** The steps a level's criteria add and the exception that stopped them, if any. */
  datatype Added = Added(steps: seq<Step>, error: Option<QueryError>)

  /** The loop over a level's criteria: each adds its step in order, and the first
      one that raises stops the loop with its exception. */
  function CriteriaRun(group: nat, alias: string, criteria: seq<CriterionRef>): (a: Added)
    ensures |a.steps| <= |criteria|
    ensures forall i :: 0 <= i < |a.steps| ==> a.steps[i] == Criterion(group, alias, criteria[i]) && criteria[i].raises.None?
    ensures a.error.None? ==> |a.steps| == |criteria|
    ensures a.error.Some? ==> |a.steps| < |criteria| && a.error == criteria[|a.steps|].raises
    ensures a.error.None? <==> forall i :: 0 <= i < |criteria| ==> criteria[i].raises.None?
  {
    var f := FirstRaising(criteria);
    Added(CriteriaSteps(group, alias, criteria[..f]), if f < |criteria| then criteria[f].raises else None)
  }

  /** The relation or component a property of the owner names, as the constructor
      looks it up. */
  datatype Association = Association(relation: Option<RelationDescription>, component: Option<ComponentDescription>)

  /** The lookups of the constructor: the relation (which may raise), then the
      component; neither is an `IllegalArgumentException`. */
  function ResolveAssociation(meta: Metadata, ownerEntityName: string, componentPrefix: string, propertyName: string): (r: Result<Association, QueryError>)
    ensures var key := (ownerEntityName, componentPrefix + propertyName);
            r.Failure? && r.error.NotAValidAssociation? <==> key !in meta.relations && key !in meta.components
    ensures var key := (ownerEntityName, componentPrefix + propertyName);
            r.Failure? && !r.error.NotAValidAssociation? <==> key in meta.relations && !SupportedInQueries(meta.relations[key].relationType)
    ensures r.Failure? && r.error.NotAValidAssociation? ==> r.error == NotAValidAssociation(propertyName, ownerEntityName)
    ensures r.Success? ==> r.value.relation.Some? || r.value.component.Some?
    ensures r.Success? && r.value.relation.Some? ==> SupportedInQueries(r.value.relation.value.relationType)
    ensures var key := (ownerEntityName, componentPrefix + propertyName);
            r.Success? ==> (r.value.relation.Some? <==> key in meta.relations) && (r.value.component.Some? <==> key in meta.components)
  {
    var prefixed := componentPrefix + propertyName;
    var related := GetRelatedEntity(meta, ownerEntityName, prefixed);
    if related.Failure? then Failure(related.error)
    else
      var component := GetComponent(meta, ownerEntityName, prefixed);
      if related.value.None? && component.None? then Failure(NotAValidAssociation(propertyName, ownerEntityName))
      else Success(Association(related.value, component))
  }

  /** The constructor's lookups from the owner's alias: its entity name, the
      component prefix of its alias (`determineComponentPropertyPrefix`, supplied by
      the metadata), then the relation or component of the prefixed property. */
  function ResolveFor(meta: Metadata, aliasToEntityName: map<string, string>, aliasToComponentPropertyName: map<string, string>,
                      ownerAlias: string, propertyName: string): Result<Association, QueryError>
    requires ownerAlias in aliasToEntityName
  {
    var owner := aliasToEntityName[ownerAlias];
    var ownerComponent := if ownerAlias in aliasToComponentPropertyName then Some(aliasToComponentPropertyName[ownerAlias]) else None;
    ResolveAssociation(meta, owner, meta.componentPrefix(owner, ownerComponent), propertyName)
  }

  /** The alias maps shared by all queries of one audit query. The ghost `queries`
      lists the association queries built on these maps in creation order; a query's
      `serial` is its position, and a child always comes after its parent. */
  class AliasMaps {
    var aliasToEntityName: map<string, string>
    var aliasToComponentPropertyName: map<string, string>
    ghost var queries: seq<AuditAssociationQuery>

    constructor (rootAlias: string, rootEntityName: string)
      ensures aliasToEntityName == map[rootAlias := rootEntityName]
      ensures aliasToComponentPropertyName == map[]
      ensures queries == []
    {
      aliasToEntityName := map[rootAlias := rootEntityName];
      aliasToComponentPropertyName := map[];
      queries := [];
    }

    ghost predicate Registered(q: AuditAssociationQuery)
      reads this
    {
      q.serial < |queries| && queries[q.serial] == q
    }

    /** The `i`-th registered query sits at its serial, uses these maps, has its alias
        registered and is locally valid. */
    ghost predicate NodeValid(i: int)
      reads this, queries
    {
      0 <= i < |queries| && queries[i].serial == i && queries[i].maps == this
      && queries[i].alias in aliasToEntityName && queries[i].LocalValid()
    }

    ghost predicate TreeValid()
      reads this, queries
    {
      forall i :: 0 <= i < |queries| ==> NodeValid(i)
    }

    /** Records the entity an alias stands for. */
    method PutEntityAlias(alias: string, entityName: string)
      requires TreeValid()
      modifies this`aliasToEntityName
      ensures aliasToEntityName == old(aliasToEntityName)[alias := entityName]
      ensures TreeValid()
    {
      aliasToEntityName := aliasToEntityName[alias := entityName];
      forall i | 0 <= i < |queries|
        ensures NodeValid(i)
      {
        assert old(NodeValid(i));
      }
    }

    /** Records the component property an alias stands for. */
    method PutComponentAlias(alias: string, propertyName: string)
      requires TreeValid()
      modifies this`aliasToComponentPropertyName
      ensures aliasToComponentPropertyName == old(aliasToComponentPropertyName)[alias := propertyName]
      ensures TreeValid()
    {
      aliasToComponentPropertyName := aliasToComponentPropertyName[alias := propertyName];
      forall i | 0 <= i < |queries|
        ensures NodeValid(i)
      {
        assert old(NodeValid(i));
      }
    }

    /** Registers a new query, with no children yet, after all others. */
    method Register(q: AuditAssociationQuery)
      requires TreeValid()
      requires q.serial == |queries| && q.maps == this && q.alias in aliasToEntityName
      requires q.relationDescription.Some? || q.componentDescription.Some?
      requires q.associationQueries == [] && q.associationQueryMap == map[]
      modifies this`queries
      ensures queries == old(queries) + [q]
      ensures TreeValid()
    {
      queries := queries + [q];
      forall i | 0 <= i < |queries|
        ensures NodeValid(i)
      {
        if i < |queries| - 1 {
          assert old(NodeValid(i));
        }
      }
    }

    /** The registered queries as values. */
    ghost function Snapshot(): QueryTree
      reads this, queries
    {
      seq(|queries|, k requires 0 <= k < |queries| reads this, queries =>
            QueryNode(queries[k], queries[k].criterions, queries[k].associationQueries))
    }

    /** A valid registry whose queries share one builder can be compiled into it:
        its snapshot is a tree ordered by registration whose nodes hold the
        queries' current criteria and children. */
    lemma SnapshotCompilable(qb: QueryBuilder)
      requires TreeValid()
      requires forall i :: 0 <= i < |queries| ==> queries[i].qb == qb
      ensures Compilable(Snapshot(), qb) && Mirrors(Snapshot())
    {
      var tree := Snapshot();
      forall k | 0 <= k < |tree|
        ensures tree[k].query == queries[k] && queries[k].serial == k
        ensures tree[k].criteria == queries[k].criterions && tree[k].children == queries[k].associationQueries
        ensures queries[k].relationDescription.Some? || queries[k].componentDescription.Some?
        ensures forall j :: 0 <= j < |tree[k].children| ==>
                  k < tree[k].children[j].serial < |tree| && tree[tree[k].children[j].serial].query == tree[k].children[j]
      {
        assert NodeValid(k);
      }
    }
  }

  class AuditAssociationQuery {
    const meta: Metadata
    const cfg: Configuration
    const qb: QueryBuilder
    const maps: AliasMaps
    const joinType: JoinType
    const entityName: string
    const relationDescription: Option<RelationDescription>
    const componentDescription: Option<ComponentDescription>
    const ownerAlias: string
    const ownerEntityName: string
    const alias: string
    const parameters: nat
    ghost const serial: nat

    var criterions: seq<CriterionRef>
    var associationQueries: seq<AuditAssociationQuery>
    var associationQueryMap: map<string, AuditAssociationQuery>

    function LevelOf(): Level
    {
      Level(joinType, entityName, relationDescription, componentDescription, ownerAlias, ownerEntityName, alias, parameters)
    }

    /** A query has a relation or a component; its children share its builder,
        configuration, metadata and maps, were registered after it, and are exactly
        the memoised traversals. */
    ghost predicate LocalValid()
      reads this, maps
    {
      (relationDescription.Some? || componentDescription.Some?)
      && (forall j :: 0 <= j < |associationQueries| ==>
            var child := associationQueries[j];
            serial < child.serial < |maps.queries| && maps.queries[child.serial] == child
            && child.maps == maps && child.qb == qb && child.cfg == cfg && child.meta == meta)
      && (forall name :: name in associationQueryMap ==> associationQueryMap[name] in associationQueries)
    }

    constructor Init(meta: Metadata, cfg: Configuration, qb: QueryBuilder, maps: AliasMaps, joinType: JoinType,
                     entityName: string, association: Association, ownerAlias: string, ownerEntityName: string,
                     alias: string, parameters: nat, ghost serial: nat)
      ensures this.meta == meta && this.cfg == cfg && this.qb == qb && this.maps == maps && this.joinType == joinType
      ensures this.entityName == entityName && this.ownerAlias == ownerAlias && this.ownerEntityName == ownerEntityName
      ensures relationDescription == association.relation && componentDescription == association.component
      ensures this.alias == alias && this.parameters == parameters && this.serial == serial
      ensures criterions == [] && associationQueries == [] && associationQueryMap == map[]
    {
      this.meta := meta;
      this.cfg := cfg;
      this.qb := qb;
      this.maps := maps;
      this.joinType := joinType;
      this.entityName := entityName;
      relationDescription := association.relation;
      componentDescription := association.component;
      this.ownerAlias := ownerAlias;
      this.ownerEntityName := ownerEntityName;
      this.alias := alias;
      this.parameters := parameters;
      this.serial := serial;
      criterions := [];
      associationQueries := [];
      associationQueryMap := map[];
    }

    /** The constructor of AuditAssociationQueryImpl: takes the user's alias or
        generates one (also when the construction then fails), resolves the property
        against the owner, registers the alias (and, for a component, its property
        name) in the shared maps and opens the query's where-group. */
    static method Create(meta: Metadata, cfg: Configuration, qb: QueryBuilder, maps: AliasMaps, propertyName: string,
                         joinType: JoinType, ownerAlias: string, userSuppliedAlias: Option<string>)
      returns (r: Result<AuditAssociationQuery, QueryError>)
      requires maps.TreeValid()
      requires ownerAlias in maps.aliasToEntityName
      modifies qb`aliasCounter, qb`groupCount, qb`steps, maps
      ensures maps.TreeValid()
      ensures qb.aliasCounter == if userSuppliedAlias.Some? then old(qb.aliasCounter) else old(qb.aliasCounter) + 1
      ensures var resolved := ResolveFor(meta, old(maps.aliasToEntityName), old(maps.aliasToComponentPropertyName), ownerAlias, propertyName);
              r.Failure? <==> resolved.Failure?
      ensures var resolved := ResolveFor(meta, old(maps.aliasToEntityName), old(maps.aliasToComponentPropertyName), ownerAlias, propertyName);
              r.Failure? ==> r.error == resolved.error
      ensures r.Failure? ==> qb.groupCount == old(qb.groupCount) && qb.steps == old(qb.steps) && maps.queries == old(maps.queries)
      ensures r.Failure? ==> maps.aliasToEntityName == old(maps.aliasToEntityName)
      ensures r.Failure? ==> maps.aliasToComponentPropertyName == old(maps.aliasToComponentPropertyName)
      ensures r.Success? ==> fresh(r.value) && r.value.qb == qb && r.value.maps == maps && r.value.cfg == cfg && r.value.meta == meta
      ensures r.Success? ==> r.value.joinType == joinType && r.value.ownerAlias == ownerAlias
      ensures r.Success? ==> r.value.ownerEntityName == old(maps.aliasToEntityName[ownerAlias])
      ensures r.Success? ==>
                r.value.alias == if userSuppliedAlias.Some? then userSuppliedAlias.value else GeneratedAlias(old(qb.aliasCounter))
      ensures var resolved := ResolveFor(meta, old(maps.aliasToEntityName), old(maps.aliasToComponentPropertyName), ownerAlias, propertyName);
              r.Success? ==> resolved.Success? && r.value.relationDescription == resolved.value.relation
                             && r.value.componentDescription == resolved.value.component
      ensures r.Success? && r.value.relationDescription.Some? ==> r.value.entityName == r.value.relationDescription.value.toEntityName
      ensures r.Success? && r.value.relationDescription.None? ==> r.value.entityName == r.value.ownerEntityName
      ensures r.Success? ==> maps.aliasToEntityName == old(maps.aliasToEntityName)[r.value.alias := r.value.entityName]
      ensures r.Success? && r.value.relationDescription.Some? ==>
                maps.aliasToComponentPropertyName == old(maps.aliasToComponentPropertyName)
      ensures r.Success? && r.value.relationDescription.None? ==>
                maps.aliasToComponentPropertyName ==
                  old(maps.aliasToComponentPropertyName)[r.value.alias := r.value.componentDescription.value.propertyName]
      ensures r.Success? ==> r.value.parameters == old(qb.groupCount) && qb.groupCount == old(qb.groupCount) + 1
      ensures r.Success? ==> qb.steps == old(qb.steps) + [RootParameters(r.value.alias, r.value.parameters)]
      ensures r.Success? ==> r.value.criterions == [] && r.value.associationQueries == [] && r.value.associationQueryMap == map[]
      ensures r.Success? ==> maps.queries == old(maps.queries) + [r.value] && r.value.serial == |old(maps.queries)|
    {
      var ownerEntityName := maps.aliasToEntityName[ownerAlias];
      var alias: string;
      if userSuppliedAlias.Some? {
        alias := userSuppliedAlias.value;
      } else {
        alias := qb.GenerateAlias();
      }
      var resolved := ResolveFor(meta, maps.aliasToEntityName, maps.aliasToComponentPropertyName, ownerAlias, propertyName);
      if resolved.Failure? {
        return Failure(resolved.error);
      }
      var association := resolved.value;
      var entityName: string;
      if association.relation.Some? {
        entityName := association.relation.value.toEntityName;
      } else {
        maps.PutComponentAlias(alias, association.component.value.propertyName);
        entityName := ownerEntityName;
      }
      maps.PutEntityAlias(alias, entityName);
      var parameters := qb.AddParameters(alias);
      var q := new AuditAssociationQuery.Init(meta, cfg, qb, maps, joinType, entityName, association, ownerAlias,
                                              ownerEntityName, alias, parameters, |maps.queries|);
      maps.Register(q);
      r := Success(q);
    }

    /** `traverseRelation`: the child for an association name is created once; a later
        traversal of the same name returns it, whatever join type and alias it asks
        for, and changes nothing. */
    method TraverseRelation(associationName: string, joinType: JoinType, userSuppliedAlias: Option<string>)
      returns (r: Result<AuditAssociationQuery, QueryError>)
      requires maps.TreeValid() && maps.Registered(this)
      requires alias in maps.aliasToEntityName
      modifies this`associationQueries, this`associationQueryMap, qb`aliasCounter, qb`groupCount, qb`steps, maps
      ensures maps.TreeValid() && maps.Registered(this)
      ensures associationName in old(associationQueryMap) ==>
                && r == Success(old(associationQueryMap[associationName]))
                && associationQueries == old(associationQueries) && associationQueryMap == old(associationQueryMap)
                && qb.Counts() == old(qb.Counts()) && qb.steps == old(qb.steps) && maps.queries == old(maps.queries)
      ensures associationName !in old(associationQueryMap) && r.Success? ==>
                && fresh(r.value) && r.value.ownerAlias == alias && r.value.joinType == joinType
                && r.value.ownerEntityName == old(maps.aliasToEntityName[alias])
                && associationQueries == old(associationQueries) + [r.value]
                && associationQueryMap == old(associationQueryMap)[associationName := r.value]
      ensures associationName !in old(associationQueryMap) && r.Failure? ==>
                associationQueries == old(associationQueries) && associationQueryMap == old(associationQueryMap)
    {
      if associationName in associationQueryMap {
        return Success(associationQueryMap[associationName]);
      }
      assert maps.NodeValid(serial);
      r := Create(meta, cfg, qb, maps, associationName, joinType, alias, userSuppliedAlias);
      if r.Success? {
        var child := r.value;
        associationQueries := associationQueries + [child];
        associationQueryMap := associationQueryMap[associationName := child];
        forall i | 0 <= i < |maps.queries|
          ensures maps.NodeValid(i)
        {
          if i < |maps.queries| - 1 {
            assert old(maps.NodeValid(i));
            assert maps.queries[i] == old(maps.queries[i]);
          }
        }
      }
    }

    /** Opens, for a LEFT join, the `OR(<path> is null, AND(...))` group a revision
        restriction goes into; returns the group to restrict. */
    method WrapForLeftJoin(parent: nat, nullPath: string) returns (use: nat)
      modifies qb`groupCount, qb`steps
      ensures var w := LeftWrap(joinType, parent, nullPath, old(qb.groupCount));
              qb.steps == old(qb.steps) + w.steps && use == w.use && qb.groupCount == w.nextGroup
    {
      use := parent;
      if joinType == LEFT {
        var orGroup := qb.AddSubParameters(parent, OR);
        qb.Add(NullRestriction(orGroup, nullPath, true));
        use := qb.AddSubParameters(orGroup, AND);
      }
    }

    /** Filters out middle rows of deleted revisions. */
    method FilterDeleted(middle: nat, current: nat, path: string, addAlias: bool)
      modifies qb`groupCount, qb`steps
      ensures var d := DelFilter(joinType, middle, current, path, addAlias, old(qb.groupCount));
              qb.steps == old(qb.steps) + d.steps && qb.groupCount == d.nextGroup
    {
      var use := current;
      if joinType == LEFT {
        use := qb.AddSubParameters(middle, OR);
        qb.Add(NullRestriction(use, path, addAlias));
      }
      qb.Add(WhereWithParam(use, path, addAlias, "!=", DEL));
    }

    /** The TO_ONE case of `createEntityJoin`: owner reference = target id. */
    method JoinToOne(rel: RelationDescription, targetIsAudited: bool, targetEntityName: string)
      modifies qb`groupCount, qb`steps
      ensures var e := ToOneJoin(cfg, LevelOf(), rel, targetIsAudited, targetEntityName, old(qb.Counts()));
              qb.steps == old(qb.steps) + e.steps && qb.groupCount == e.next.groupCount
    {
      var joinConditions := qb.AddJoin(joinType, targetEntityName, alias, false);
      var prefix := alias;
      if targetIsAudited {
        prefix := alias + "." + cfg.originalIdPropertyName;
      }
      qb.Add(IdsEqual(joinConditions, rel.idMapper, ownerAlias, Some(EntityIdMapper(entityName, targetIsAudited)), prefix));
    }

    /** The TO_MANY_NOT_OWNING case of `createEntityJoin` on an audited target: owner
        id = target reference. */
    method JoinToManyNotOwning(rel: RelationDescription, targetEntityName: string)
      modifies qb`groupCount, qb`steps
      ensures var e := ToManyNotOwningJoin(cfg, LevelOf(), rel, targetEntityName, old(qb.Counts()));
              qb.steps == old(qb.steps) + e.steps && qb.groupCount == e.next.groupCount
    {
      var joinConditions := qb.AddJoin(joinType, targetEntityName, alias, false);
      var prefix := ownerAlias + "." + cfg.originalIdPropertyName;
      qb.Add(IdsEqual(joinConditions, rel.idMapper, alias, Some(EntityIdMapper(ownerEntityName, true)), prefix));
    }

    /** Restricts a middle table's rows to the queried revision and to rows not
        deleted; shared by the middle-table relations and the component collections. */
    method RestrictMiddleRevision(idData: MiddleIdDataRef, middleEntityName: string, middleAlias: string,
                                  delPath: string, addAlias: bool, middle: nat)
      modifies qb`groupCount, qb`steps
      ensures var r := MiddleRevisionRestriction(cfg, joinType, idData, middleEntityName, middleAlias, delPath, addAlias,
                                                 middle, old(qb.groupCount));
              qb.steps == old(qb.steps) + r.steps && qb.groupCount == r.nextGroup
    {
      var revisionPropertyPath := cfg.revisionNumberPath;
      var middleParametersToUse := WrapForLeftJoin(middle, revisionPropertyPath);
      qb.Add(AssociationAtRevision(middleParametersToUse, revisionPropertyPath, cfg.revisionEndFieldName, idData, middleEntityName,
                                   middleAlias + "." + cfg.originalIdPropertyName, cfg.originalIdPropertyName, middleAlias));
      FilterDeleted(middle, middleParametersToUse, delPath, addAlias);
    }

    /** The joins of the middle-table case of `createEntityJoin`: the middle entity
        under a generated alias, then the target, each with its condition; opens the
        middle table's where-group. */
    method JoinMiddleTable(rel: RelationDescription, targetIsAudited: bool, targetEntityName: string)
      returns (middleEntityAlias: string, middleParameters: nat)
      modifies qb`aliasCounter, qb`groupCount, qb`steps
      ensures middleEntityAlias == GeneratedAlias(old(qb.aliasCounter)) && qb.aliasCounter == old(qb.aliasCounter) + 1
      ensures middleParameters == old(qb.groupCount) + 2 && qb.groupCount == old(qb.groupCount) + 3
      ensures qb.steps == old(qb.steps) + MiddleJoins(cfg, LevelOf(), rel, targetIsAudited, targetEntityName, middleEntityAlias,
                                                      old(qb.groupCount))
    {
      var originalIdPropertyName := cfg.originalIdPropertyName;
      middleEntityAlias := qb.GenerateAlias();
      var joinConditionsMiddle := qb.AddJoin(joinType, rel.auditMiddleEntityName, middleEntityAlias, false);
      var joinConditionsTarget := qb.AddJoin(joinType, targetEntityName, alias, false);
      middleParameters := qb.AddParameters(middleEntityAlias);
      var middleOriginalIdPropertyPath := middleEntityAlias + "." + originalIdPropertyName;
      var ownerPrefix := ownerAlias + "." + originalIdPropertyName;
      qb.Add(IdsEqual(joinConditionsMiddle, PrefixedMapper(rel.referencingIdData), middleOriginalIdPropertyPath,
                      Some(OriginalMapper(rel.referencingIdData)), ownerPrefix));
      var targetPrefix := alias;
      if targetIsAudited {
        targetPrefix := alias + "." + originalIdPropertyName;
      }
      qb.Add(IdsEqual(joinConditionsTarget, PrefixedMapper(rel.referencedIdData), middleOriginalIdPropertyPath,
                      Some(OriginalMapper(rel.referencedIdData)), targetPrefix));
    }

    /** The middle-table case of `createEntityJoin`: the joins, then the restrictions
        on the middle table's rows. */
    method JoinThroughMiddle(rel: RelationDescription, targetIsAudited: bool, targetEntityName: string)
      modifies qb`aliasCounter, qb`groupCount, qb`steps
      ensures var e := MiddleJoin(cfg, LevelOf(), rel, targetIsAudited, targetEntityName, old(qb.Counts()));
              qb.steps == old(qb.steps) + e.steps && qb.Counts() == e.next
    {
      var middleEntityAlias, middleParameters := JoinMiddleTable(rel, targetIsAudited, targetEntityName);
      RestrictMiddleRevision(rel.referencingIdData, rel.auditMiddleEntityName, middleEntityAlias,
                             cfg.revisionTypePropertyName, true, middleParameters);
    }

    /** The end of `createEntityJoin` for an audited target: the target rows valid at
        the revision. */
    method RestrictTargetRevision()
      modifies qb`aliasCounter, qb`groupCount, qb`steps
      ensures var e := TargetRestriction(cfg, LevelOf(), old(qb.Counts()));
              qb.steps == old(qb.steps) + e.steps && qb.Counts() == e.next
    {
      var parametersToUse := WrapForLeftJoin(parameters, cfg.revisionNumberPath);
      var subqueryAlias := qb.GenerateAlias();
      qb.Add(EntityAtRevision(parametersToUse, cfg.revisionNumberPath, cfg.revisionEndFieldName, TargetIdData(entityName),
                              cfg.originalIdPropertyName, alias, subqueryAlias));
    }

    /** `createEntityJoin`. */
    method CreateEntityJoin() returns (err: Option<QueryError>)
      requires relationDescription.Some?
      modifies qb`aliasCounter, qb`groupCount, qb`steps
      ensures var e := EntityJoin(cfg, meta, LevelOf(), old(qb.Counts()));
              qb.steps == old(qb.steps) + e.steps && qb.Counts() == e.next && err == e.error
    {
      var rel := relationDescription.value;
      var targetIsAudited := entityName in meta.versioned;
      var targetEntityName := entityName;
      if targetIsAudited {
        targetEntityName := cfg.GetAuditEntityName(entityName);
      }
      if rel.relationType == TO_ONE {
        JoinToOne(rel, targetIsAudited, targetEntityName);
      } else if rel.relationType == TO_MANY_NOT_OWNING {
        if !targetIsAudited {
          return Some(NonAuditedTarget(rel.relationType));
        }
        JoinToManyNotOwning(rel, targetEntityName);
      } else if rel.relationType == TO_MANY_MIDDLE || rel.relationType == TO_MANY_MIDDLE_NOT_OWNING {
        if !targetIsAudited && rel.relationType == TO_MANY_MIDDLE_NOT_OWNING {
          return Some(NonAuditedTarget(rel.relationType));
        }
        JoinThroughMiddle(rel, targetIsAudited, targetEntityName);
      } else {
        return Some(UnsupportedRelationType(rel.relationType));
      }
      if targetIsAudited {
        RestrictTargetRevision();
      }
      err := None;
    }

    /** `createComponentJoin`. */
    method CreateComponentJoin()
      requires componentDescription.Some?
      modifies qb`groupCount, qb`steps
      ensures var e := ComponentJoin(cfg, LevelOf(), old(qb.Counts()));
              qb.steps == old(qb.steps) + e.steps && qb.Counts() == e.next && e.error.None?
    {
      var comp := componentDescription.value;
      var originalIdPropertyName := cfg.originalIdPropertyName;
      var revisionPropertyPath := cfg.revisionNumberPath;
      if comp.componentType == MANY {
        var joinConditions := qb.AddJoin(joinType, comp.auditMiddleEntityName, alias, false);
        var middleOriginalIdPropertyPath := alias + "." + originalIdPropertyName;
        var ownerPrefix := ownerAlias + "." + originalIdPropertyName;
        qb.Add(IdsEqual(joinConditions, PrefixedMapper(comp.middleIdData), middleOriginalIdPropertyPath,
                        Some(OriginalMapper(comp.middleIdData)), ownerPrefix));
        var middleParameters := qb.AddParameters(alias);
        RestrictMiddleRevision(comp.middleIdData, comp.auditMiddleEntityName, alias,
                               middleOriginalIdPropertyPath + "." + cfg.revisionTypePropertyName, false, middleParameters);
      } else {
        var targetEntityName := cfg.GetAuditEntityName(entityName);
        var joinConditions := qb.AddJoin(joinType, targetEntityName, alias, false);
        var ownerPrefix := ownerAlias + "." + originalIdPropertyName;
        var middleOriginalIdPropertyPath := alias + "." + originalIdPropertyName;
        qb.Add(IdsEqual(joinConditions, EntityIdMapper(entityName, true), ownerPrefix, None, middleOriginalIdPropertyPath));
        qb.Add(WhereProperties(joinConditions, ownerAlias, revisionPropertyPath, "=", alias, revisionPropertyPath));
      }
    }

    /** The join of `addCriterionsToQuery`: on the relation if there is one, else on
        the component. */
    method AddLevelJoin() returns (err: Option<QueryError>)
      requires relationDescription.Some? || componentDescription.Some?
      modifies qb`aliasCounter, qb`groupCount, qb`steps
      ensures var e := LevelJoin(cfg, meta, LevelOf(), old(qb.Counts()));
              qb.steps == old(qb.steps) + e.steps && qb.Counts() == e.next && err == e.error
    {
      if relationDescription.Some? {
        err := CreateEntityJoin();
      } else {
        CreateComponentJoin();
        err := None;
      }
    }

    /** The loop of `addCriterionsToQuery` over this query's criteria, each given
        this query's alias and where-group; a criterion that raises ends it. */
    method AddOwnCriteria() returns (err: Option<QueryError>)
      modifies qb`steps
      ensures var a := CriteriaRun(parameters, alias, criterions);
              qb.steps == old(qb.steps) + a.steps && err == a.error
    {
      ghost var a := CriteriaRun(parameters, alias, criterions);
      for i := 0 to |criterions|
        invariant qb.steps == old(qb.steps) + CriteriaSteps(parameters, alias, criterions[..i])
        invariant forall j :: 0 <= j < i ==> criterions[j].raises.None?
      {
        if criterions[i].raises.Some? {
          assert |a.steps| == i;
          assert a.steps == CriteriaSteps(parameters, alias, criterions[..i]);
          return criterions[i].raises;
        }
        assert criterions[..i + 1][..i] == criterions[..i];
        qb.Add(Criterion(parameters, alias, criterions[i]));
      }
      assert criterions[..|criterions|] == criterions;
      assert a.steps == CriteriaSteps(parameters, alias, criterions);
      err := None;
    }

    /** The loop of `addCriterionsToQuery` over the children, in insertion order;
        `tree` is the registry being compiled. */
    method AddChildrenToQuery(ghost tree: QueryTree) returns (err: Option<QueryError>)
      requires Compilable(tree, qb) && serial < |tree| && tree[serial].query == this && Mirrors(tree)
      modifies qb`aliasCounter, qb`groupCount, qb`steps
      ensures var e := ChildrenCompile(tree, serial, 0, old(qb.Counts()));
              qb.steps == old(qb.steps) + e.steps && qb.Counts() == e.next && err == e.error
      decreases |tree| - serial, 0
    {
      ghost var all := ChildrenCompile(tree, serial, 0, qb.Counts());
      var i := 0;
      while i < |associationQueries|
        invariant 0 <= i <= |associationQueries|
        invariant var rest := ChildrenCompile(tree, serial, i, qb.Counts());
                  old(qb.steps) + all.steps == qb.steps + rest.steps && all.next == rest.next && all.error == rest.error
      {
        var child := associationQueries[i];
        ghost var before := qb.steps;
        ghost var rest := ChildrenCompile(tree, serial, i, qb.Counts());
        ghost var first := ChildCompile(tree, serial, i, qb.Counts());
        err := child.AddCriterionsToQuery(tree);
        if err.Some? {
          return;
        }
        ghost var later := ChildrenCompile(tree, serial, i + 1, first.next);
        assert rest.steps == first.steps + later.steps;
        AppendAssociative(before, first.steps, later.steps);
        i := i + 1;
      }
      err := None;
    }

    /** `addCriterionsToQuery`: this query's join, then its criteria in insertion
        order, then its children in insertion order; an exception stops the whole
        compilation. `tree` is the registry being compiled. */
    method AddCriterionsToQuery(ghost tree: QueryTree) returns (err: Option<QueryError>)
      requires Compilable(tree, qb) && serial < |tree| && tree[serial].query == this && Mirrors(tree)
      modifies qb`aliasCounter, qb`groupCount, qb`steps
      ensures var e := Compile(tree, serial, old(qb.Counts()));
              qb.steps == old(qb.steps) + e.steps && qb.Counts() == e.next && err == e.error
      decreases |tree| - serial, 2
    {
      ghost var s0 := qb.steps;
      err := AddLevelJoin();
      if err.Some? {
        return;
      }
      ghost var s1 := qb.steps;
      err := AddOwnAndChildren(tree);
      AppendAssociative(s0, s1[|s0|..], qb.steps[|s1|..]);
    }

    /** The two loops of `addCriterionsToQuery`: the node's own criteria, then its
        children. */
    method AddOwnAndChildren(ghost tree: QueryTree) returns (err: Option<QueryError>)
      requires Compilable(tree, qb) && serial < |tree| && tree[serial].query == this && Mirrors(tree)
      modifies qb`aliasCounter, qb`groupCount, qb`steps
      ensures var own := CriteriaRun(parameters, alias, criterions);
              var e := ChildrenCompile(tree, serial, 0, old(qb.Counts()));
              if own.error.Some? then
                qb.steps == old(qb.steps) + own.steps && qb.Counts() == old(qb.Counts()) && err == own.error
              else
                qb.steps == old(qb.steps) + (own.steps + e.steps) && qb.Counts() == e.next && err == e.error
      decreases |tree| - serial, 1
    {
      ghost var s0 := qb.steps;
      err := AddOwnCriteria();
      if err.Some? {
        return;
      }
      ghost var s1 := qb.steps;
      err := AddChildrenToQuery(tree);
      AppendAssociative(s0, s1[|s0|..], qb.steps[|s1|..]);
    }

    /** `add`: criteria are kept in insertion order. */
    method Add(criterion: CriterionRef)
      requires maps.TreeValid() && maps.Registered(this)
      modifies this`criterions
      ensures criterions == old(criterions) + [criterion]
      ensures maps.TreeValid()
    {
      criterions := criterions + [criterion];
      forall i | 0 <= i < |maps.queries|
        ensures maps.NodeValid(i)
      {
        assert old(maps.NodeValid(i));
      }
    }
  }

  lemma AppendAssociative<T>(a: seq<T>, b: seq<T>, c: seq<T>)
    ensures a + (b + c) == (a + b) + c
  {
  }

  /** An association query as a value: the query (whose fixed parts are its
      constants), its criteria and its children. */
  datatype QueryNode = QueryNode(query: AuditAssociationQuery, criteria: seq<CriterionRef>,
                                 children: seq<AuditAssociationQuery>)

  /** The registered association queries in creation order. */
  type QueryTree = seq<QueryNode>

  /** Every node has a relation or a component to join on, and every child was
      registered after its parent, so compiling a tree ends. */
  ghost predicate Ordered(tree: QueryTree)
  {
    && (forall k :: 0 <= k < |tree| ==> tree[k].query.relationDescription.Some? || tree[k].query.componentDescription.Some?)
    && (forall k, j :: 0 <= k < |tree| && 0 <= j < |tree[k].children| ==> k < tree[k].children[j].serial < |tree|)
  }

  /** The tree can be compiled into `qb`: every node sits at its serial and shares
      the builder, and every child is the node
      at its serial. */
  ghost predicate Compilable(tree: QueryTree, qb: QueryBuilder)
  {
    && Ordered(tree)
    && (forall k :: 0 <= k < |tree| ==> tree[k].query.serial == k && tree[k].query.qb == qb)
    && (forall k, j :: 0 <= k < |tree| && 0 <= j < |tree[k].children| ==> tree[tree[k].children[j].serial].query == tree[k].children[j])
  }

  /** The tree holds the current criteria and children of its queries. */
  ghost predicate Mirrors(tree: QueryTree)
    reads set k | 0 <= k < |tree| :: tree[k].query
  {
    forall k :: 0 <= k < |tree| ==> tree[k].query.criterions == tree[k].criteria && tree[k].query.associationQueries == tree[k].children
  }

  /** The steps node `k` adds when compiled from counters `c`: its join, its
      criteria, then its children's, stopping at the first exception (of the join,
      of a criterion or of a child). The counters
      never go back, so the aliases a compilation generates are new. */
  ghost function Compile(tree: QueryTree, k: nat, c: Counters): (e: Emission)
    requires Ordered(tree) && k < |tree|
    ensures e.next.aliasCounter >= c.aliasCounter && e.next.groupCount >= c.groupCount
    decreases |tree| - k, 1
  {
    var q := tree[k].query;
    var join := LevelJoin(q.cfg, q.meta, q.LevelOf(), c);
    if join.error.Some? then join
    else
      var own := CriteriaRun(q.parameters, q.alias, tree[k].criteria);
      if own.error.Some? then Emission(join.steps + own.steps, join.next, own.error)
      else
        var rest := ChildrenCompile(tree, k, 0, join.next);
        Emission(join.steps + (own.steps + rest.steps), rest.next, rest.error)
  }

  /** The steps of the children of node `k` from the `i`-th on, in insertion order. */
  ghost function ChildrenCompile(tree: QueryTree, k: nat, i: nat, c: Counters): (e: Emission)
    requires Ordered(tree) && k < |tree| && i <= |tree[k].children|
    ensures e.next.aliasCounter >= c.aliasCounter && e.next.groupCount >= c.groupCount
    decreases |tree| - k, 0, |tree[k].children| - i, 1
  {
    if i == |tree[k].children| then Emission([], c, None)
    else
      var first := ChildCompile(tree, k, i, c);
      if first.error.Some? then first
      else
        var rest := ChildrenCompile(tree, k, i + 1, first.next);
        Emission(first.steps + rest.steps, rest.next, rest.error)
  }

  /** The steps of the `i`-th child of node `k`. */
  ghost function ChildCompile(tree: QueryTree, k: nat, i: nat, c: Counters): (e: Emission)
    requires Ordered(tree) && k < |tree| && i < |tree[k].children|
    ensures e.next.aliasCounter >= c.aliasCounter && e.next.groupCount >= c.groupCount
    decreases |tree| - k, 0, |tree[k].children| - i, 0
  {
    Compile(tree, tree[k].children[i].serial, c)
  }
}
