/**
 * ODataExpression.ProcessFilter: the walk that sorts the fragments of a filter
 * expression into per-entity buckets. A top-level conjunction is split into its
 * sides; every other fragment goes, whole, into the bucket of the single entity
 * its references reach through a collection-valued navigation property, or into
 * the root collection's bucket.
 *
 * The walk is specified by the ghost function Analysis over an explicit Store
 * (the path of every reference node and the buckets); the methods are the walk
 * itself over an EntityFilters dictionary and the nodes' mutable paths.
 */
module FilterPartition {
  import opened Wrappers
  import opened Exceptions
  import opened Text
  import opened Protocol
  import opened Expressions

  /** The metadata queries the walk asks of the session, by entity collection name. */
  datatype Metadata = Metadata(
    hasNavigationProperty: (string, string) -> bool,
    navigationPropertyExactName: (string, string) -> string,
    isNavigationPropertyCollection: (string, string) -> bool,
    navigationPropertyPartnerTypeName: (string, string) -> string,
    /** GetEntityCollection(typeName).Name */
    entityCollectionName: string -> string)

  /** ExpressionContext with the session facts the walk reads; `tryConvert` is Utils.TryConvert. */
  datatype ExpressionContext = ExpressionContext(
    isQueryOption: bool,
    metadata: Metadata,
    adapterVersion: AdapterVersion,
    tryConvert: (Literal, string) -> Option<Literal>)

  /** The HashSet of entity paths threaded through the walk; None is a null set. */
  type Entities = Option<set<string>>

  /** The entityFilters dictionary: entity path to the fragments filed under it. */
  type Buckets = map<string, seq<Expr>>

  /** Everything the walk can change: the paths of the reference nodes and the buckets. */
  datatype Store = Store(paths: map<ReferenceNode, string>, buckets: Buckets)

  /** Either the entity set the walk returns, or the exception it throws; both with the store at that point. */
  datatype Outcome = Processed(store: Store, entities: Entities) | InvalidQueryOption(store: Store)

  const InvalidCustomQueryOption := InvalidOperation("Invalid custom query option")

  /** The operators a custom query option may use: none, And, Equal. */
  predicate QueryOptionAllows(op: Operator)
  {
    op == NoOperator || op == BinaryOp(And) || op == BinaryOp(Equal)
  }

  // ---------------------------------------------------------------------------
  // GetEntityPath

  /** The entity collection reached from `current` through navigation property `segment`. */
  function NextCollection(md: Metadata, current: string, segment: string): string
  {
    var association := md.navigationPropertyExactName(current, segment);
    md.entityCollectionName(md.navigationPropertyPartnerTypeName(current, association))
  }

  /**
   * The first collection-valued hop of `path` at or after position `to`, walking
   * from the collection `current`; the walk stops at the first segment that is not
   * a navigation property and never examines the last segment.
   */
  function CollectionHop(md: Metadata, path: seq<string>, current: string, to: nat): (hop: Option<nat>)
    ensures hop.Some? ==> to <= hop.value && hop.value + 1 < |path|
    decreases |path| - to
  {
    if to + 1 >= |path| then None
    else if !md.hasNavigationProperty(current, path[to]) then None
    else if md.isNavigationPropertyCollection(current, md.navigationPropertyExactName(current, path[to])) then Some(to)
    else CollectionHop(md, path, NextCollection(md, current, path[to]), to + 1)
  }

  /** The entity path of a reference and the reference the node holds afterwards. */
  datatype ResolvedPath = ResolvedPath(entity: string, reference: string)

  /** What GetEntityPath returns and leaves in the node, for a node whose path is `reference`. */
  function EntityPath(ctx: ExpressionContext, root: string, reference: string): ResolvedPath
  {
    var path := Split(reference, '/');
    match CollectionHop(ctx.metadata, path, root, 0)
    case None => ResolvedPath(root, reference)
    case Some(i) =>
      ResolvedPath(Join(path[..i + 1], '/'), if ctx.adapterVersion != V3 then Join(path[i + 1..], '/') else reference)
  }

  /** The collection the walk stands on before segment j, if segments 0..j-1 were all followed. */
  function CollectionAt(md: Metadata, path: seq<string>, root: string, j: nat): string
    requires j <= |path|
  {
    if j == 0 then root else NextCollection(md, CollectionAt(md, path, root, j - 1), path[j - 1])
  }

  /** Segment j is a navigation property to a single entity, so the walk goes on past it. */
  predicate PlainHop(md: Metadata, path: seq<string>, root: string, j: nat)
    requires j < |path|
  {
    var current := CollectionAt(md, path, root, j);
    md.hasNavigationProperty(current, path[j])
    && !md.isNavigationPropertyCollection(current, md.navigationPropertyExactName(current, path[j]))
  }

  /** Segment j is a collection-valued navigation property. */
  predicate CollectionValuedHop(md: Metadata, path: seq<string>, root: string, j: nat)
    requires j < |path|
  {
    var current := CollectionAt(md, path, root, j);
    md.hasNavigationProperty(current, path[j])
    && md.isNavigationPropertyCollection(current, md.navigationPropertyExactName(current, path[j]))
  }

  lemma {:induction false} CollectionHopFrom(md: Metadata, path: seq<string>, root: string, to: nat, i: nat)
    requires to <= |path|
    ensures CollectionHop(md, path, CollectionAt(md, path, root, to), to) == Some(i)
        <==> (to <= i && i + 1 < |path|
              && (forall j :: to <= j < i ==> PlainHop(md, path, root, j))
              && CollectionValuedHop(md, path, root, i))
    decreases |path| - to
  {
    if to + 1 < |path| {
      var current := CollectionAt(md, path, root, to);
      var association := md.navigationPropertyExactName(current, path[to]);
      if !md.hasNavigationProperty(current, path[to]) || md.isNavigationPropertyCollection(current, association) {
        // the walk ends at segment `to`, which is not a single-entity hop
        assert !PlainHop(md, path, root, to);
      } else {
        assert PlainHop(md, path, root, to) && !CollectionValuedHop(md, path, root, to);
        CollectionHopFrom(md, path, root, to + 1, i);
        assert CollectionAt(md, path, root, to + 1) == NextCollection(md, current, path[to]);
      }
    }
  }

  /**
   * The hop GetEntityPath stops at is the first collection-valued segment before
   * the last one, reached through single-entity navigation properties only.
   */
  lemma CollectionHopIsFirst(md: Metadata, path: seq<string>, root: string, i: nat)
    ensures CollectionHop(md, path, root, 0) == Some(i)
        <==> (i + 1 < |path|
              && (forall j :: 0 <= j < i ==> PlainHop(md, path, root, j))
              && CollectionValuedHop(md, path, root, i))
  {
    CollectionHopFrom(md, path, root, 0, i);
  }

  /** The last segment of the path is never examined: replacing it changes nothing. */
  lemma {:induction false} LastSegmentIgnored(md: Metadata, path: seq<string>, last: string, current: string, to: nat)
    requires |path| >= 1
    ensures CollectionHop(md, path, current, to) == CollectionHop(md, path[..|path| - 1] + [last], current, to)
    decreases |path| - to
  {
    var other := path[..|path| - 1] + [last];
    assert |other| == |path|;
    if to + 1 < |path| {
      assert other[to] == path[to];
      LastSegmentIgnored(md, path, last, NextCollection(md, current, path[to]), to + 1);
    }
  }

  /**
   * Under a non-V3 adapter the entity path, a '/' and the rewritten reference
   * give back the original reference; under V3 the reference is kept; with no
   * collection-valued hop the entity is the root collection.
   */
  lemma EntityPathRejoins(ctx: ExpressionContext, root: string, reference: string)
    ensures var r := EntityPath(ctx, root, reference);
      && (CollectionHop(ctx.metadata, Split(reference, '/'), root, 0).None? ==> r == ResolvedPath(root, reference))
      && (ctx.adapterVersion == V3 ==> r.reference == reference)
      && (ctx.adapterVersion != V3 && CollectionHop(ctx.metadata, Split(reference, '/'), root, 0).Some? ==>
            r.entity + "/" + r.reference == reference)
  {
    var path := Split(reference, '/');
    var hop := CollectionHop(ctx.metadata, path, root, 0);
    if hop.Some? {
      var i := hop.value;
      assert path[..i + 1] + path[i + 1..] == path;
      JoinAppend(path[..i + 1], path[i + 1..], '/');
      JoinSplit(reference, '/');
    }
  }

  /** GetEntityPath: resolves the node's reference hop by hop and, past a collection hop, shortens it. */
  method GetEntityPath(ctx: ExpressionContext, root: string, node: ReferenceNode) returns (entity: string)
    modifies node
    ensures ResolvedPath(entity, node.path) == EntityPath(ctx, root, old(node.path))
  {
    var path := Split(node.path, '/');
    var md := ctx.metadata;
    var current := root;
    var to := 0;
    while to < |path| - 1
      invariant to <= |path| - 1
      invariant node.path == old(node.path)
      invariant CollectionHop(md, path, current, to) == CollectionHop(md, path, root, 0)
      decreases |path| - to
    {
      if !md.hasNavigationProperty(current, path[to]) {
        break;
      }
      var association := md.navigationPropertyExactName(current, path[to]);
      if md.isNavigationPropertyCollection(current, association) {
        if ctx.adapterVersion != V3 {
          node.path := Join(path[to + 1..], '/');
        }
        return Join(path[..to + 1], '/');
      }
      current := md.entityCollectionName(md.navigationPropertyPartnerTypeName(current, association));
      to := to + 1;
    }
    return root;
  }

  // ---------------------------------------------------------------------------
  // The specification of the walk

  /** AddFilter's choice of bucket: the single entity of the set, else the root collection. */
  ghost function FilterEntity(root: string, entities: Entities): (entity: string)
    ensures entities.Some? && |entities.value| == 1 ==> entities.value == {entity}
    ensures !(entities.Some? && |entities.value| == 1) ==> entity == root
  {
    if entities.Some? && |entities.value| == 1 then
      var x :| x in entities.value;
      assert entities.value == {x} by {
        assert |entities.value - {x}| == 0;
      }
      x
    else root
  }

  /** The buckets after `e` is appended to the bucket `entity`, created empty if missing. */
  function Appended(buckets: Buckets, entity: string, e: Expr): (after: Buckets)
    ensures after.Keys == buckets.Keys + {entity}
    ensures |after[entity]| >= 1 && after[entity][|after[entity]| - 1] == e
    ensures after[entity][..|after[entity]| - 1] == (if entity in buckets then buckets[entity] else [])
    ensures forall k :: k in buckets && k != entity ==> after[k] == buckets[k]
  {
    var filters := if entity in buckets then buckets[entity] else [];
    buckets[entity := filters + [e]]
  }

  /** What AddFilter does to the store and returns. */
  ghost function FilterAdded(root: string, e: Expr, s: Store, entities: Entities, isBase: bool): Outcome
  {
    if isBase then Processed(Store(s.paths, Appended(s.buckets, FilterEntity(root, entities), e)), None)
    else Processed(s, entities)
  }

  /** The set after ProcessReference adds `entity` to it, creating it if null. */
  function Including(entities: Entities, entity: string): Entities
  {
    Some((if entities.None? then {} else entities.value) + {entity})
  }

  /**
   * The value a conversion node puts in place of its inner node: for an inner
   * node with no reference, no function and no conversion (a value, or an
   * operator node whose Value is null), an enum value is rewrapped as it is and
   * any other value is replaced by its conversion when that succeeds.
   */
  function Reconverted(ctx: ExpressionContext, inner: Expr, targetType: string): Option<Literal>
  {
    if inner.Reference? || inner.Call? || inner.Conversion? then None
    else
      var value := if inner.Value? then inner.value else NullLiteral;
      if value.EnumLiteral? then Some(value) else ctx.tryConvert(value, targetType)
  }

  /** ProcessFilter(context, collection, entityFilters, currentEntities, isBase) on node `e`. */
  ghost function Analysis(ctx: ExpressionContext, root: string, e: Expr, s: Store, entities: Entities, isBase: bool): (o: Outcome)
    requires Cells(e) <= s.paths.Keys
    ensures o.store.paths.Keys == s.paths.Keys
    ensures forall n :: n in s.paths && n !in Cells(e) ==> o.store.paths[n] == s.paths[n]
    ensures ctx.isQueryOption && !QueryOptionAllows(OperatorOf(e)) ==> o == InvalidQueryOption(s)
    decreases e, 1
  {
    if ctx.isQueryOption && !QueryOptionAllows(OperatorOf(e)) then InvalidQueryOption(s)
    else match e
      case Value(_) => FilterAdded(root, e, s, entities, isBase)
      case Reference(node) =>
        var resolved := EntityPath(ctx, root, s.paths[node]);
        FilterAdded(root, e, Store(s.paths[node := resolved.reference], s.buckets), Including(entities, resolved.entity), isBase)
      case Call(_, _, arguments) =>
        var o := CallAnalysis(ctx, root, e, |arguments|, s, entities);
        if o.Processed? then FilterAdded(root, e, o.store, o.entities, isBase) else o
      case Conversion(_, targetType, inner) =>
        var converted := Reconverted(ctx, inner, targetType);
        if converted.Some? then FilterAdded(root, Value(converted.value), s, entities, false)
        else Analysis(ctx, root, inner, s, entities, false)
      case Unary(_, operand) =>
        var o := OperandAnalysis(ctx, root, operand, s, entities, false);
        if o.Processed? then FilterAdded(root, e, o.store, o.entities, isBase) else o
      case Binary(op, left, right) =>
        if isBase && (op == And || op == AndAlso) then
          var l := OperandAnalysis(ctx, root, left, s, None, true);
          if l.InvalidQueryOption? then l
          else
            var r := OperandAnalysis(ctx, root, right, l.store, None, true);
            if r.InvalidQueryOption? then r else Processed(r.store, None)
        else
          var l := OperandAnalysis(ctx, root, left, s, entities, false);
          if l.InvalidQueryOption? then l
          else
            var r := OperandAnalysis(ctx, root, right, l.store, l.entities, false);
            if r.InvalidQueryOption? then r else FilterAdded(root, e, r.store, r.entities, isBase)
  }

  /** ProcessExpression: a null operand returns the set unchanged. */
  ghost function OperandAnalysis(ctx: ExpressionContext, root: string, operand: Option<Expr>, s: Store, entities: Entities, isBase: bool): (o: Outcome)
    requires CellsOfOperand(operand) <= s.paths.Keys
    ensures o.store.paths.Keys == s.paths.Keys
    ensures forall n :: n in s.paths && n !in CellsOfOperand(operand) ==> o.store.paths[n] == s.paths[n]
    decreases operand, 2
  {
    match operand
    case None => Processed(s, entities)
    case Some(x) => Analysis(ctx, root, x, s, entities, isBase)
  }

  /** ProcessFunction over the caller and the first k arguments, in order, off base. */
  ghost function CallAnalysis(ctx: ExpressionContext, root: string, e: Expr, k: nat, s: Store, entities: Entities): (o: Outcome)
    requires e.Call? && k <= |e.arguments|
    requires CellsOfCall(e, k) <= s.paths.Keys
    ensures o.store.paths.Keys == s.paths.Keys
    ensures forall n :: n in s.paths && n !in CellsOfCall(e, k) ==> o.store.paths[n] == s.paths[n]
    decreases e, 0, k
  {
    if k == 0 then OperandAnalysis(ctx, root, e.caller, s, entities, false)
    else
      var o := CallAnalysis(ctx, root, e, k - 1, s, entities);
      if o.InvalidQueryOption? then o
      else Analysis(ctx, root, e.arguments[k - 1], o.store, o.entities, false)
  }

  // ---------------------------------------------------------------------------
  // The walk

  /** The entityFilters dictionary. */
  class EntityFilters {
    var buckets: Buckets

    constructor ()
      ensures buckets == map[]
    {
      buckets := map[];
    }

    /** TryGetValue, a new list added when missing, then filters.Add(e). */
    method Add(entity: string, e: Expr)
      modifies this
      ensures buckets == Appended(old(buckets), entity, e)
    {
      var filters := if entity in buckets then buckets[entity] else [];
      buckets := buckets[entity := filters + [e]];
    }
  }

  ghost function PathsOf(universe: set<ReferenceNode>): (paths: map<ReferenceNode, string>)
    reads universe
    ensures paths.Keys == universe
  {
    map n | n in universe :: n.path
  }

  ghost function StoreOf(filters: EntityFilters, universe: set<ReferenceNode>): Store
    reads filters, universe
  {
    Store(PathsOf(universe), filters.buckets)
  }

  /** The method returned what the analysis yields, or threw its exception, and left its store. */
  ghost predicate Reports(r: Result<Entities, Exception>, o: Outcome, now: Store)
  {
    && now == o.store
    && (if o.Processed? then r == Success(o.entities) else r == Failure(InvalidCustomQueryOption))
  }

  /** AddFilter. */
  method AddFilter(root: string, e: Expr, filters: EntityFilters, entities: Entities, isBase: bool) returns (result: Entities)
    modifies filters
    ensures isBase ==> filters.buckets == Appended(old(filters.buckets), FilterEntity(root, entities), e) && result == None
    ensures !isBase ==> filters.buckets == old(filters.buckets) && result == entities
  {
    if isBase {
      var filterEntity;
      if entities.None? || |entities.value| == 0 || |entities.value| > 1 {
        filterEntity := root;
      } else {
        filterEntity :| filterEntity in entities.value;
        assert entities.value == {FilterEntity(root, entities)};
      }
      filters.Add(filterEntity, e);
      return None;
    }
    return entities;
  }

  /** ProcessValue: a value leaf leaves the set as it is. */
  method ProcessValue(entities: Entities) returns (result: Entities)
    ensures result == entities
  {
    return entities;
  }

  /** ProcessReference: the set, created if null, with the node's entity path added. */
  method ProcessReference(ctx: ExpressionContext, root: string, node: ReferenceNode, entities: Entities,
                          ghost universe: set<ReferenceNode>) returns (result: Entities)
    requires node in universe
    modifies node
    ensures var resolved := EntityPath(ctx, root, old(node.path));
      && result == Including(entities, resolved.entity)
      && PathsOf(universe) == old(PathsOf(universe))[node := resolved.reference]
  {
    var current := if entities.None? then {} else entities.value;
    var entity := GetEntityPath(ctx, root, node);
    return Some(current + {entity});
  }

  /**
   * The internal ProcessFilter overload, on node `e`: the query-option test,
   * then one of its four branches (a leaf, a value conversion, Not/Negate, a
   * binary node), each written out as a method of its own below.
   */
  method ProcessNode(ctx: ExpressionContext, root: string, e: Expr, filters: EntityFilters, entities: Entities, isBase: bool,
                     ghost universe: set<ReferenceNode>) returns (r: Result<Entities, Exception>)
    requires Cells(e) <= universe
    modifies filters, universe
    ensures Reports(r, Analysis(ctx, root, e, old(StoreOf(filters, universe)), entities, isBase), StoreOf(filters, universe))
    decreases Size(e), 1
  {
    if ctx.isQueryOption && !QueryOptionAllows(OperatorOf(e)) {
      return Failure(InvalidCustomQueryOption);
    }
    if e.Conversion? {
      r := ProcessConversion(ctx, root, e, filters, entities, isBase, universe);
    } else if e.Unary? {
      r := ProcessUnary(ctx, root, e, filters, entities, isBase, universe);
    } else if e.Binary? {
      r := ProcessBinary(ctx, root, e, filters, entities, isBase, universe);
    } else {
      r := ProcessLeaf(ctx, root, e, filters, entities, isBase, universe);
    }
  }

  /** A reference, function or value leaf: its entities, then AddFilter. */
  method ProcessLeaf(ctx: ExpressionContext, root: string, e: Expr, filters: EntityFilters, entities: Entities, isBase: bool,
                     ghost universe: set<ReferenceNode>) returns (r: Result<Entities, Exception>)
    requires e.Value? || e.Reference? || e.Call?
    requires Cells(e) <= universe
    modifies filters, universe
    ensures Reports(r, Analysis(ctx, root, e, old(StoreOf(filters, universe)), entities, isBase), StoreOf(filters, universe))
    decreases Size(e), 0, 2
  {
    if e.Call? {
      r := ProcessCallLeaf(ctx, root, e, filters, entities, isBase, universe);
    } else if e.Reference? {
      r := ProcessReferenceLeaf(ctx, root, e, filters, entities, isBase, universe);
    } else {
      var current := ProcessValue(entities);
      var result := AddFilter(root, e, filters, current, isBase);
      r := Success(result);
    }
  }

  /** The reference leaf: ProcessReference, then AddFilter. */
  method ProcessReferenceLeaf(ctx: ExpressionContext, root: string, e: Expr, filters: EntityFilters, entities: Entities, isBase: bool,
                              ghost universe: set<ReferenceNode>) returns (r: Result<Entities, Exception>)
    requires e.Reference? && Cells(e) <= universe
    modifies filters, universe
    ensures Reports(r, Analysis(ctx, root, e, old(StoreOf(filters, universe)), entities, isBase), StoreOf(filters, universe))
  {
    ghost var before := StoreOf(filters, universe);
    assert e.node in universe;
    var current := ProcessReference(ctx, root, e.node, entities, universe);
    ghost var resolved := EntityPath(ctx, root, before.paths[e.node]);
    assert StoreOf(filters, universe) == Store(before.paths[e.node := resolved.reference], before.buckets);
    var result := AddFilter(root, e, filters, current, isBase);
    r := Success(result);
  }

  /** The function-call leaf: ProcessFunction, then AddFilter unless the call threw. */
  method ProcessCallLeaf(ctx: ExpressionContext, root: string, e: Expr, filters: EntityFilters, entities: Entities, isBase: bool,
                         ghost universe: set<ReferenceNode>) returns (r: Result<Entities, Exception>)
    requires e.Call? && Cells(e) <= universe
    modifies filters, universe
    ensures Reports(r, Analysis(ctx, root, e, old(StoreOf(filters, universe)), entities, isBase), StoreOf(filters, universe))
    decreases Size(e), 0, 1
  {
    var called := ProcessFunction(ctx, root, e, filters, entities, universe);
    if called.Failure? {
      return called;
    }
    var result := AddFilter(root, e, filters, called.value, isBase);
    r := Success(result);
  }

  /** A value conversion: a plain inner value is replaced as Reconverted says, then walked off base. */
  method ProcessConversion(ctx: ExpressionContext, root: string, e: Expr, filters: EntityFilters, entities: Entities, isBase: bool,
                           ghost universe: set<ReferenceNode>) returns (r: Result<Entities, Exception>)
    requires e.Conversion? && !(ctx.isQueryOption && !QueryOptionAllows(OperatorOf(e)))
    requires Cells(e) <= universe
    modifies filters, universe
    ensures Reports(r, Analysis(ctx, root, e, old(StoreOf(filters, universe)), entities, isBase), StoreOf(filters, universe))
    decreases Size(e), 0
  {
    var converted := Reconverted(ctx, e.inner, e.targetType);
    if converted.Some? {
      // the replacement is a value node: it passes the query-option test and, off base, adds nothing
      var current := ProcessValue(entities);
      var result := AddFilter(root, Value(converted.value), filters, current, false);
      r := Success(result);
    } else {
      r := ProcessNode(ctx, root, e.inner, filters, entities, false, universe);
    }
  }

  /** Not and Negate: the operand off base, then AddFilter. */
  method ProcessUnary(ctx: ExpressionContext, root: string, e: Expr, filters: EntityFilters, entities: Entities, isBase: bool,
                      ghost universe: set<ReferenceNode>) returns (r: Result<Entities, Exception>)
    requires e.Unary? && !(ctx.isQueryOption && !QueryOptionAllows(OperatorOf(e)))
    requires Cells(e) <= universe
    modifies filters, universe
    ensures Reports(r, Analysis(ctx, root, e, old(StoreOf(filters, universe)), entities, isBase), StoreOf(filters, universe))
    decreases Size(e), 0
  {
    var current := ProcessExpression(ctx, root, e.operand, filters, entities, false, universe);
    if current.Failure? {
      return current;
    }
    var result := AddFilter(root, e, filters, current.value, isBase);
    r := Success(result);
  }

  /** A binary node: a top-level And/AndAlso is split into two fresh top-level walks; otherwise left, right, AddFilter. */
  method ProcessBinary(ctx: ExpressionContext, root: string, e: Expr, filters: EntityFilters, entities: Entities, isBase: bool,
                       ghost universe: set<ReferenceNode>) returns (r: Result<Entities, Exception>)
    requires e.Binary? && !(ctx.isQueryOption && !QueryOptionAllows(OperatorOf(e)))
    requires Cells(e) <= universe
    modifies filters, universe
    ensures Reports(r, Analysis(ctx, root, e, old(StoreOf(filters, universe)), entities, isBase), StoreOf(filters, universe))
    decreases Size(e), 0
  {
    if isBase && (e.binaryOp == And || e.binaryOp == AndAlso) {
      var l := ProcessExpression(ctx, root, e.left, filters, None, true, universe);
      if l.Failure? {
        return l;
      }
      var rr := ProcessExpression(ctx, root, e.right, filters, None, true, universe);
      if rr.Failure? {
        return rr;
      }
      r := Success(None);
    } else {
      var l := ProcessExpression(ctx, root, e.left, filters, entities, false, universe);
      if l.Failure? {
        return l;
      }
      var rr := ProcessExpression(ctx, root, e.right, filters, l.value, false, universe);
      if rr.Failure? {
        return rr;
      }
      var result := AddFilter(root, e, filters, rr.value, isBase);
      r := Success(result);
    }
  }

  /** ProcessExpression. */
  method ProcessExpression(ctx: ExpressionContext, root: string, operand: Option<Expr>, filters: EntityFilters, entities: Entities,
                           isBase: bool, ghost universe: set<ReferenceNode>) returns (r: Result<Entities, Exception>)
    requires CellsOfOperand(operand) <= universe
    modifies filters, universe
    ensures Reports(r, OperandAnalysis(ctx, root, operand, old(StoreOf(filters, universe)), entities, isBase), StoreOf(filters, universe))
    decreases SizeOfOperand(operand), 2
  {
    if operand.None? {
      return Success(entities);
    }
    r := ProcessNode(ctx, root, operand.value, filters, entities, isBase, universe);
  }

  /** ProcessFunction: the caller, then each argument in order, threading one set. */
  method ProcessFunction(ctx: ExpressionContext, root: string, e: Expr, filters: EntityFilters, entities: Entities,
                         ghost universe: set<ReferenceNode>) returns (r: Result<Entities, Exception>)
    requires e.Call? && Cells(e) <= universe
    modifies filters, universe
    ensures Reports(r, CallAnalysis(ctx, root, e, |e.arguments|, old(StoreOf(filters, universe)), entities), StoreOf(filters, universe))
    decreases Size(e), 0, 0
  {
    ghost var s0 := StoreOf(filters, universe);
    CallPrefix(e, 0);
    r := ProcessExpression(ctx, root, e.caller, filters, entities, false, universe);
    if r.Failure? {
      CallFailureSticks(ctx, root, e, 0, |e.arguments|, s0, entities);
      return;
    }
    for k := 0 to |e.arguments|
      invariant CellsOfCall(e, k) <= universe
      invariant r.Success?
      invariant Reports(r, CallAnalysis(ctx, root, e, k, s0, entities), StoreOf(filters, universe))
    {
      CallPrefix(e, k + 1);
      r := ProcessExpression(ctx, root, Some(e.arguments[k]), filters, r.value, false, universe);
      if r.Failure? {
        CallFailureSticks(ctx, root, e, k + 1, |e.arguments|, s0, entities);
        return;
      }
    }
  }

  /** Once the caller or an argument throws, ProcessFunction throws with the same store. */
  lemma {:induction false} CallFailureSticks(ctx: ExpressionContext, root: string, e: Expr, k: nat, n: nat, s: Store, entities: Entities)
    requires e.Call? && k <= n <= |e.arguments| && CellsOfCall(e, n) <= s.paths.Keys
    requires CellsOfCall(e, k) <= s.paths.Keys
    requires CallAnalysis(ctx, root, e, k, s, entities).InvalidQueryOption?
    ensures CallAnalysis(ctx, root, e, n, s, entities) == CallAnalysis(ctx, root, e, k, s, entities)
    decreases n - k
  {
    if k < n {
      CallFailureSticks(ctx, root, e, k, n - 1, s, entities);
    }
  }

  /**
   * The public ProcessFilter: a fresh dictionary, the walk from the root with a
   * null set at base, outside any query option; the dictionary is returned.
   */
  method ProcessFilter(metadata: Metadata, adapterVersion: AdapterVersion, tryConvert: (Literal, string) -> Option<Literal>,
                       root: string, e: Expr) returns (buckets: Buckets)
    modifies Cells(e)
    ensures var o := Analysis(ExpressionContext(false, metadata, adapterVersion, tryConvert), root, e,
                              Store(old(PathsOf(Cells(e))), map[]), None, true);
      o.Processed? && buckets == o.store.buckets && PathsOf(Cells(e)) == o.store.paths
  {
    var ctx := ExpressionContext(false, metadata, adapterVersion, tryConvert);
    var filters := new EntityFilters();
    var r := ProcessNode(ctx, root, e, filters, None, true, Cells(e));
    OutsideQueryOptionAlwaysProcessed(ctx, root, e, Store(old(PathsOf(Cells(e))), map[]), None, true);
    buckets := filters.buckets;
  }

  // ---------------------------------------------------------------------------
  // Properties of the walk

  /** Outside a custom query option the walk never throws. */
  lemma {:induction false} OutsideQueryOptionAlwaysProcessed(ctx: ExpressionContext, root: string, e: Expr, s: Store, entities: Entities, isBase: bool)
    requires !ctx.isQueryOption && Cells(e) <= s.paths.Keys
    ensures Analysis(ctx, root, e, s, entities, isBase).Processed?
    decreases e, 1
  {
    match e
    case Value(_) =>
    case Reference(_) =>
    case Call(_, _, arguments) =>
      CallAlwaysProcessed(ctx, root, e, |arguments|, s, entities);
    case Conversion(_, targetType, inner) =>
      if Reconverted(ctx, inner, targetType).None? {
        OutsideQueryOptionAlwaysProcessed(ctx, root, inner, s, entities, false);
      }
    case Unary(_, operand) =>
      OperandAlwaysProcessed(ctx, root, operand, s, entities, false);
    case Binary(op, left, right) =>
      var split := isBase && (op == And || op == AndAlso);
      var seed := if split then None else entities;
      OperandAlwaysProcessed(ctx, root, left, s, seed, split);
      var l := OperandAnalysis(ctx, root, left, s, seed, split);
      OperandAlwaysProcessed(ctx, root, right, l.store, if split then None else l.entities, split);
  }

  lemma {:induction false} OperandAlwaysProcessed(ctx: ExpressionContext, root: string, operand: Option<Expr>, s: Store, entities: Entities, isBase: bool)
    requires !ctx.isQueryOption && CellsOfOperand(operand) <= s.paths.Keys
    ensures OperandAnalysis(ctx, root, operand, s, entities, isBase).Processed?
    decreases operand, 2
  {
    if operand.Some? {
      OutsideQueryOptionAlwaysProcessed(ctx, root, operand.value, s, entities, isBase);
    }
  }

  lemma {:induction false} CallAlwaysProcessed(ctx: ExpressionContext, root: string, e: Expr, k: nat, s: Store, entities: Entities)
    requires !ctx.isQueryOption && e.Call? && k <= |e.arguments| && CellsOfCall(e, k) <= s.paths.Keys
    ensures CallAnalysis(ctx, root, e, k, s, entities).Processed?
    decreases e, 0, k
  {
    if k == 0 {
      OperandAlwaysProcessed(ctx, root, e.caller, s, entities, false);
    } else {
      CallAlwaysProcessed(ctx, root, e, k - 1, s, entities);
      var o := CallAnalysis(ctx, root, e, k - 1, s, entities);
      OutsideQueryOptionAlwaysProcessed(ctx, root, e.arguments[k - 1], o.store, o.entities, false);
    }
  }

  /** Off base, the walk files nothing: every bucket is left as it was. */
  lemma {:induction false} OffBaseKeepsBuckets(ctx: ExpressionContext, root: string, e: Expr, s: Store, entities: Entities)
    requires Cells(e) <= s.paths.Keys
    ensures Analysis(ctx, root, e, s, entities, false).store.buckets == s.buckets
    decreases e, 1
  {
    if !(ctx.isQueryOption && !QueryOptionAllows(OperatorOf(e))) {
      match e
      case Value(_) =>
      case Reference(_) =>
      case Call(_, _, arguments) =>
        CallKeepsBuckets(ctx, root, e, |arguments|, s, entities);
      case Conversion(_, targetType, inner) =>
        if Reconverted(ctx, inner, targetType).None? {
          OffBaseKeepsBuckets(ctx, root, inner, s, entities);
        }
      case Unary(_, operand) =>
        OperandKeepsBuckets(ctx, root, operand, s, entities);
      case Binary(_, left, right) =>
        OperandKeepsBuckets(ctx, root, left, s, entities);
        var l := OperandAnalysis(ctx, root, left, s, entities, false);
        if l.Processed? {
          OperandKeepsBuckets(ctx, root, right, l.store, l.entities);
        }
    }
  }

  lemma {:induction false} OperandKeepsBuckets(ctx: ExpressionContext, root: string, operand: Option<Expr>, s: Store, entities: Entities)
    requires CellsOfOperand(operand) <= s.paths.Keys
    ensures OperandAnalysis(ctx, root, operand, s, entities, false).store.buckets == s.buckets
    decreases operand, 2
  {
    if operand.Some? {
      OffBaseKeepsBuckets(ctx, root, operand.value, s, entities);
    }
  }

  lemma {:induction false} CallKeepsBuckets(ctx: ExpressionContext, root: string, e: Expr, k: nat, s: Store, entities: Entities)
    requires e.Call? && k <= |e.arguments| && CellsOfCall(e, k) <= s.paths.Keys
    ensures CallAnalysis(ctx, root, e, k, s, entities).store.buckets == s.buckets
    decreases e, 0, k
  {
    if k == 0 {
      OperandKeepsBuckets(ctx, root, e.caller, s, entities);
    } else {
      CallKeepsBuckets(ctx, root, e, k - 1, s, entities);
      var o := CallAnalysis(ctx, root, e, k - 1, s, entities);
      if o.Processed? {
        OffBaseKeepsBuckets(ctx, root, e.arguments[k - 1], o.store, o.entities);
      }
    }
  }

  /** A top-level value conversion is analysed off base, so it is never filed in any bucket. */
  lemma TopLevelConversionDropped(ctx: ExpressionContext, root: string, e: Expr, s: Store, entities: Entities)
    requires e.Conversion? && Cells(e) <= s.paths.Keys
    ensures Analysis(ctx, root, e, s, entities, true).store.buckets == s.buckets
  {
    if Reconverted(ctx, e.inner, e.targetType).None? {
      OffBaseKeepsBuckets(ctx, root, e.inner, s, entities);
    }
  }

  /** The union of two entity sets, a null set counting as no set. */
  function Merged(a: Entities, b: Entities): (m: Entities)
    ensures m.None? <==> a.None? && b.None?
    ensures m.Some? ==> forall x :: x in m.value <==> (a.Some? && x in a.value) || (b.Some? && x in b.value)
  {
    if a.None? then b else if b.None? then a else Some(a.value + b.value)
  }

  lemma MergedAssociative(a: Entities, b: Entities, c: Entities)
    ensures Merged(Merged(a, b), c) == Merged(a, Merged(b, c))
  {
    if a.Some? && b.Some? && c.Some? {
      assert (a.value + b.value) + c.value == a.value + (b.value + c.value);
    }
  }

  /** An outcome whose entity set is merged into `seed`. */
  function Seeded(o: Outcome, seed: Entities): Outcome
  {
    if o.Processed? then Processed(o.store, Merged(seed, o.entities)) else o
  }

  /**
   * Off base the entity set is threaded through the walk: the walk from any set
   * yields that set merged with what the walk from a null set yields, and the
   * same store.
   */
  lemma {:induction false} OffBaseAccumulates(ctx: ExpressionContext, root: string, e: Expr, s: Store, entities: Entities)
    requires Cells(e) <= s.paths.Keys
    ensures Analysis(ctx, root, e, s, entities, false) == Seeded(Analysis(ctx, root, e, s, None, false), entities)
    decreases e, 1
  {
    if !(ctx.isQueryOption && !QueryOptionAllows(OperatorOf(e))) {
      match e
      case Value(_) =>
      case Reference(node) =>
        var entity := EntityPath(ctx, root, s.paths[node]).entity;
        if entities.Some? {
          assert entities.value + {entity} == entities.value + ({} + {entity});
        }
      case Call(_, _, arguments) =>
        CallAccumulates(ctx, root, e, |arguments|, s, entities);
      case Conversion(_, targetType, inner) =>
        if Reconverted(ctx, inner, targetType).None? {
          OffBaseAccumulates(ctx, root, inner, s, entities);
        }
      case Unary(_, operand) =>
        OperandAccumulates(ctx, root, operand, s, entities);
      case Binary(_, left, right) =>
        OperandAccumulates(ctx, root, left, s, entities);
        var l := OperandAnalysis(ctx, root, left, s, None, false);
        if l.Processed? {
          ThreadedAccumulates(ctx, root, right, l.store, l.entities, entities);
        }
    }
  }

  /** One step of the threading: an operand walked from seed+x, against the same operand walked from x. */
  lemma ThreadedAccumulates(ctx: ExpressionContext, root: string, operand: Option<Expr>, s: Store, x: Entities, seed: Entities)
    requires CellsOfOperand(operand) <= s.paths.Keys
    ensures OperandAnalysis(ctx, root, operand, s, Merged(seed, x), false)
         == Seeded(OperandAnalysis(ctx, root, operand, s, x, false), seed)
    decreases operand, 3
  {
    OperandAccumulates(ctx, root, operand, s, Merged(seed, x));
    OperandAccumulates(ctx, root, operand, s, x);
    var a := OperandAnalysis(ctx, root, operand, s, None, false);
    if a.Processed? {
      MergedAssociative(seed, x, a.entities);
    }
  }

  lemma {:induction false} OperandAccumulates(ctx: ExpressionContext, root: string, operand: Option<Expr>, s: Store, entities: Entities)
    requires CellsOfOperand(operand) <= s.paths.Keys
    ensures OperandAnalysis(ctx, root, operand, s, entities, false)
         == Seeded(OperandAnalysis(ctx, root, operand, s, None, false), entities)
    decreases operand, 2
  {
    if operand.Some? {
      OffBaseAccumulates(ctx, root, operand.value, s, entities);
    }
  }

  lemma {:induction false} CallAccumulates(ctx: ExpressionContext, root: string, e: Expr, k: nat, s: Store, entities: Entities)
    requires e.Call? && k <= |e.arguments| && CellsOfCall(e, k) <= s.paths.Keys
    ensures CallAnalysis(ctx, root, e, k, s, entities) == Seeded(CallAnalysis(ctx, root, e, k, s, None), entities)
    decreases e, 0, k
  {
    if k == 0 {
      OperandAccumulates(ctx, root, e.caller, s, entities);
    } else {
      CallAccumulates(ctx, root, e, k - 1, s, entities);
      var o := CallAnalysis(ctx, root, e, k - 1, s, None);
      if o.Processed? {
        var arg := e.arguments[k - 1];
        OffBaseAccumulates(ctx, root, arg, o.store, Merged(entities, o.entities));
        OffBaseAccumulates(ctx, root, arg, o.store, o.entities);
        var a := Analysis(ctx, root, arg, o.store, None, false);
        if a.Processed? {
          MergedAssociative(entities, o.entities, a.entities);
        }
      }
    }
  }

  /** The expression holds no value conversion. */
  ghost predicate ConversionFree(e: Expr)
    decreases e, 1
  {
    match e
    case Value(_) => true
    case Reference(_) => true
    case Call(caller, _, arguments) =>
      OperandConversionFree(caller) && forall i :: 0 <= i < |arguments| ==> ConversionFree(arguments[i])
    case Conversion(_, _, _) => false
    case Unary(_, operand) => OperandConversionFree(operand)
    case Binary(_, left, right) => OperandConversionFree(left) && OperandConversionFree(right)
  }

  ghost predicate OperandConversionFree(operand: Option<Expr>)
    decreases operand, 2
  {
    operand.None? || ConversionFree(operand.value)
  }

  /** Every node is a leaf, an And or an Equal node: the shape a custom query option may take. */
  ghost predicate QueryOptionShaped(e: Expr)
    decreases e, 1
  {
    match e
    case Value(_) => true
    case Reference(_) => true
    case Call(caller, _, arguments) =>
      OperandShaped(caller) && forall i :: 0 <= i < |arguments| ==> QueryOptionShaped(arguments[i])
    case Conversion(_, _, _) => false
    case Unary(_, _) => false
    case Binary(op, left, right) => (op == And || op == Equal) && OperandShaped(left) && OperandShaped(right)
  }

  ghost predicate OperandShaped(operand: Option<Expr>)
    decreases operand, 2
  {
    operand.None? || QueryOptionShaped(operand.value)
  }

  /**
   * In a custom query option, an expression without conversions is walked
   * without an exception exactly when all of its nodes are leaves, And nodes or
   * Equal nodes; AndAlso, Or, comparisons, arithmetic, Not and Negate throw.
   */
  lemma {:induction false} QueryOptionShapeDecides(ctx: ExpressionContext, root: string, e: Expr, s: Store, entities: Entities, isBase: bool)
    requires ctx.isQueryOption && ConversionFree(e) && Cells(e) <= s.paths.Keys
    ensures Analysis(ctx, root, e, s, entities, isBase).Processed? <==> QueryOptionShaped(e)
    decreases e, 1
  {
    match e
    case Value(_) =>
    case Reference(_) =>
    case Call(_, _, arguments) =>
      CallShapeDecides(ctx, root, e, |arguments|, s, entities);
    case Unary(_, _) =>
    case Binary(op, left, right) =>
      if op == And || op == Equal {
        var split := isBase && op == And;
        var seed := if split then None else entities;
        OperandShapeDecides(ctx, root, left, s, seed, split);
        var l := OperandAnalysis(ctx, root, left, s, seed, split);
        if l.Processed? {
          OperandShapeDecides(ctx, root, right, l.store, if split then None else l.entities, split);
        }
      }
  }

  lemma {:induction false} OperandShapeDecides(ctx: ExpressionContext, root: string, operand: Option<Expr>, s: Store, entities: Entities, isBase: bool)
    requires ctx.isQueryOption && OperandConversionFree(operand) && CellsOfOperand(operand) <= s.paths.Keys
    ensures OperandAnalysis(ctx, root, operand, s, entities, isBase).Processed? <==> OperandShaped(operand)
    decreases operand, 2
  {
    if operand.Some? {
      QueryOptionShapeDecides(ctx, root, operand.value, s, entities, isBase);
    }
  }

  lemma {:induction false} CallShapeDecides(ctx: ExpressionContext, root: string, e: Expr, k: nat, s: Store, entities: Entities)
    requires ctx.isQueryOption && e.Call? && k <= |e.arguments| && ConversionFree(e) && CellsOfCall(e, k) <= s.paths.Keys
    ensures CallAnalysis(ctx, root, e, k, s, entities).Processed?
        <==> OperandShaped(e.caller) && forall i :: 0 <= i < k ==> QueryOptionShaped(e.arguments[i])
    decreases e, 0, k
  {
    if k == 0 {
      OperandShapeDecides(ctx, root, e.caller, s, entities, false);
    } else {
      CallShapeDecides(ctx, root, e, k - 1, s, entities);
      var o := CallAnalysis(ctx, root, e, k - 1, s, entities);
      if o.Processed? {
        QueryOptionShapeDecides(ctx, root, e.arguments[k - 1], o.store, o.entities, false);
      }
    }
  }

  /**
   * At top level, any node other than a conversion or a conjunction is walked
   * exactly as off base and then filed whole by AddFilter.
   */
  lemma BaseFilesWholeNode(ctx: ExpressionContext, root: string, e: Expr, s: Store, entities: Entities)
    requires Cells(e) <= s.paths.Keys
    requires !e.Conversion? && !(e.Binary? && (e.binaryOp == And || e.binaryOp == AndAlso))
    ensures var o := Analysis(ctx, root, e, s, entities, false);
      Analysis(ctx, root, e, s, entities, true) == if o.Processed? then FilterAdded(root, e, o.store, o.entities, true) else o
  {
  }

  /** The fragments a top-level walk files: the sides of top-level conjunctions, never a conversion. */
  ghost function Conjuncts(e: Expr): seq<Expr>
    decreases e, 1
  {
    match e
    case Conversion(_, _, _) => []
    case Binary(op, left, right) =>
      if op == And || op == AndAlso then OperandConjuncts(left) + OperandConjuncts(right) else [e]
    case _ => [e]
  }

  ghost function OperandConjuncts(operand: Option<Expr>): seq<Expr>
    decreases operand, 2
  {
    if operand.None? then [] else Conjuncts(operand.value)
  }

  /** The buckets after each fragment is appended, in order, to the bucket of the same position. */
  function AppendAll(buckets: Buckets, entities: seq<string>, fragments: seq<Expr>): Buckets
    requires |entities| == |fragments|
    decreases |fragments|
  {
    if |fragments| == 0 then buckets
    else AppendAll(Appended(buckets, entities[0], fragments[0]), entities[1..], fragments[1..])
  }

  lemma {:induction false} AppendAllConcat(buckets: Buckets, e1: seq<string>, f1: seq<Expr>, e2: seq<string>, f2: seq<Expr>)
    requires |e1| == |f1| && |e2| == |f2|
    ensures AppendAll(buckets, e1 + e2, f1 + f2) == AppendAll(AppendAll(buckets, e1, f1), e2, f2)
    decreases |f1|
  {
    if |f1| == 0 {
      assert e1 + e2 == e2 && f1 + f2 == f2;
    } else {
      assert (e1 + e2)[1..] == e1[1..] + e2;
      assert (f1 + f2)[1..] == f1[1..] + f2;
      AppendAllConcat(Appended(buckets, e1[0], f1[0]), e1[1..], f1[1..], e2, f2);
    }
  }

  /**
   * A top-level walk that completes appends exactly its conjuncts, left to
   * right, each to one bucket, and changes the buckets in no other way.
   */
  lemma {:induction false} BaseAppendsConjuncts(ctx: ExpressionContext, root: string, e: Expr, s: Store, entities: Entities)
      returns (targets: seq<string>)
    requires Cells(e) <= s.paths.Keys
    requires Analysis(ctx, root, e, s, entities, true).Processed?
    ensures |targets| == |Conjuncts(e)|
    ensures Analysis(ctx, root, e, s, entities, true).store.buckets == AppendAll(s.buckets, targets, Conjuncts(e))
    decreases e, 1
  {
    if e.Conversion? {
      TopLevelConversionDropped(ctx, root, e, s, entities);
      targets := [];
    } else if e.Binary? && (e.binaryOp == And || e.binaryOp == AndAlso) {
      var leftTargets := OperandBaseAppends(ctx, root, e.left, s);
      var l := OperandAnalysis(ctx, root, e.left, s, None, true);
      var rightTargets := OperandBaseAppends(ctx, root, e.right, l.store);
      AppendAllConcat(s.buckets, leftTargets, OperandConjuncts(e.left), rightTargets, OperandConjuncts(e.right));
      targets := leftTargets + rightTargets;
    } else {
      BaseFilesWholeNode(ctx, root, e, s, entities);
      OffBaseKeepsBuckets(ctx, root, e, s, entities);
      targets := [FilterEntity(root, Analysis(ctx, root, e, s, entities, false).entities)];
    }
  }

  lemma {:induction false} OperandBaseAppends(ctx: ExpressionContext, root: string, operand: Option<Expr>, s: Store)
      returns (targets: seq<string>)
    requires CellsOfOperand(operand) <= s.paths.Keys
    requires OperandAnalysis(ctx, root, operand, s, None, true).Processed?
    ensures |targets| == |OperandConjuncts(operand)|
    ensures OperandAnalysis(ctx, root, operand, s, None, true).store.buckets == AppendAll(s.buckets, targets, OperandConjuncts(operand))
    decreases operand, 2
  {
    if operand.None? {
      targets := [];
    } else {
      targets := BaseAppendsConjuncts(ctx, root, operand.value, s, None);
    }
  }
}
