/**
 * CommandDetails: the state a fluent command accumulates before it is turned
 * into a request. Of its fields, the modelled behaviour is in the two filter
 * dictionaries (one of expressions merged with &&, one of rendered filter text,
 * last write wins) and in what the two constructors set, copy and share.
 */
module CommandState {
  import opened Wrappers
  import opened Expressions
  import FilterPartition

  /** A List<T> object that commands may share by reference. */
  class ListRef<T> {
    var items: seq<T>

    constructor ()
      ensures items == []
    {
      items := [];
    }
  }

  /** An entry of ExpandAssociations: the association name and its ODataExpandOptions object. */
  datatype ExpandAssociation = ExpandAssociation(key: string, options: object?)

  /** An entry of OrderbyColumns: the column and whether it sorts descending. */
  datatype OrderbyColumn = OrderbyColumn(column: string, descending: bool)

  /** The expression stored after `e` is added to an entity whose stored expression is `existing`: old && new. */
  function Combined(existing: Option<Expr>, e: Expr): (stored: Expr)
    ensures existing.None? ==> stored == e
    ensures existing.Some? ==>
      stored.Binary? && stored.binaryOp == And && stored.left == Some(existing.value) && stored.right == Some(e)
  {
    match existing
    case None => e
    case Some(previous) => Binary(And, Some(previous), Some(e))
  }

  /** The expression stored after adding each of `es`, in order, to an entity with none. */
  function CombinedAll(es: seq<Expr>): Option<Expr>
  {
    if |es| == 0 then None else Some(Combined(CombinedAll(es[..|es| - 1]), es[|es| - 1]))
  }

  /**
   * Filters added one by one reach the partitioning walk as their conjuncts, in
   * the order they were added: the && chain is split again at top level.
   */
  lemma {:induction false} CombinedConjuncts(es: seq<Expr>)
    ensures FilterPartition.OperandConjuncts(CombinedAll(es)) == ConjunctsOfAll(es)
    decreases |es|
  {
    if |es| > 0 {
      var prefix, last := es[..|es| - 1], es[|es| - 1];
      CombinedConjuncts(prefix);
      if CombinedAll(prefix).Some? {
        assert FilterPartition.Conjuncts(Combined(CombinedAll(prefix), last))
            == FilterPartition.OperandConjuncts(CombinedAll(prefix)) + FilterPartition.Conjuncts(last);
      } else {
        assert FilterPartition.OperandConjuncts(CombinedAll(prefix)) == [];
      }
    }
  }

  /** The conjuncts of each of `es`, concatenated in order. */
  ghost function ConjunctsOfAll(es: seq<Expr>): seq<Expr>
  {
    if |es| == 0 then [] else ConjunctsOfAll(es[..|es| - 1]) + FilterPartition.Conjuncts(es[|es| - 1])
  }

  class CommandDetails {
    /** Session and Parent (a FluentCommand), kept by reference. */
    var session: object?
    var parent: object?
    var collectionName: Option<string>
    var collectionExpression: Option<Expr>
    var derivedCollectionName: Option<string>
    var derivedCollectionExpression: Option<Expr>
    var dynamicPropertiesContainerName: Option<string>
    var functionName: Option<string>
    var actionName: Option<string>
    /** KeyValues, NamedKeyValues, EntryData: collections shared by reference. */
    var keyValues: object?
    var namedKeyValues: object?
    var entryData: object?
    var search: Option<string>
    var skipCount: int
    var topCount: int
    var expandAssociations: ListRef<ExpandAssociation>
    var selectColumns: ListRef<string>
    var orderbyColumns: ListRef<OrderbyColumn>
    var computeCount: bool
    var includeCount: bool
    var linkName: Option<string>
    var linkExpression: Option<Expr>
    var queryOptions: Option<string>
    var queryOptionsExpression: Option<Expr>
    var queryOptionsKeyValues: object?
    var mediaName: Option<string>
    var mediaProperties: ListRef?<string>
    var batchEntries: object?
    /** m_FilterExpressions. */
    var filterExpressions: map<string, Expr>
    /** m_Filters, and its keys in the order the dictionary enumerates them (insertion order: nothing is removed). */
    var filters: map<string, string>
    var filterOrder: seq<string>
    var entitiesMap: map<string, string>

    /** The enumeration order of m_Filters lists each of its keys once. */
    ghost predicate Valid()
      reads this
    {
      && (forall k :: k in filters <==> k in filterOrder)
      && (forall i, j :: 0 <= i < j < |filterOrder| ==> filterOrder[i] != filterOrder[j])
    }

    /** A fresh command: no skip, no top, new empty lists, empty filter dictionaries. */
    constructor (session: object?, parent: object?, batchEntries: object?)
      ensures Valid()
      ensures this.session == session && this.parent == parent && this.batchEntries == batchEntries
      ensures skipCount == -1 && topCount == -1
      ensures fresh(expandAssociations) && expandAssociations.items == []
      ensures fresh(selectColumns) && selectColumns.items == []
      ensures fresh(orderbyColumns) && orderbyColumns.items == []
      ensures mediaProperties != null && fresh(mediaProperties) && mediaProperties.items == []
      ensures filterExpressions == map[] && filters == map[] && filterOrder == [] && entitiesMap == map[]
      ensures collectionName.None? && collectionExpression.None? && derivedCollectionName.None?
      ensures derivedCollectionExpression.None? && dynamicPropertiesContainerName.None?
      ensures functionName.None? && actionName.None? && search.None? && linkName.None? && linkExpression.None?
      ensures queryOptions.None? && queryOptionsExpression.None? && mediaName.None?
      ensures keyValues == null && namedKeyValues == null && entryData == null && queryOptionsKeyValues == null
      ensures !computeCount && !includeCount
    {
      this.session := session;
      this.parent := parent;
      collectionName := None;
      collectionExpression := None;
      derivedCollectionName := None;
      derivedCollectionExpression := None;
      dynamicPropertiesContainerName := None;
      functionName := None;
      actionName := None;
      keyValues := null;
      namedKeyValues := null;
      entryData := null;
      search := None;
      computeCount := false;
      includeCount := false;
      linkName := None;
      linkExpression := None;
      queryOptions := None;
      queryOptionsExpression := None;
      queryOptionsKeyValues := null;
      mediaName := None;
      filterExpressions := map[];
      filters := map[];
      filterOrder := [];
      entitiesMap := map[];
      skipCount := -1;
      topCount := -1;
      expandAssociations := new ListRef<ExpandAssociation>();
      selectColumns := new ListRef<string>();
      orderbyColumns := new ListRef<OrderbyColumn>();
      var media := new ListRef<string>();
      mediaProperties := media;
      this.batchEntries := batchEntries;
    }

    /**
     * The copy constructor: new filter dictionaries with the same contents,
     * every other field copied, the lists and collections shared, and an empty
     * EntitiesMap.
     */
    constructor Copy(details: CommandDetails)
      requires details.Valid()
      ensures Valid()
      ensures filters == details.filters && filterOrder == details.filterOrder
      ensures filterExpressions == details.filterExpressions
      ensures entitiesMap == map[]
      ensures session == details.session && parent == details.parent
      ensures collectionName == details.collectionName && collectionExpression == details.collectionExpression
      ensures derivedCollectionName == details.derivedCollectionName
      ensures derivedCollectionExpression == details.derivedCollectionExpression
      ensures dynamicPropertiesContainerName == details.dynamicPropertiesContainerName
      ensures functionName == details.functionName && actionName == details.actionName
      ensures keyValues == details.keyValues && namedKeyValues == details.namedKeyValues && entryData == details.entryData
      ensures search == details.search && skipCount == details.skipCount && topCount == details.topCount
      ensures expandAssociations == details.expandAssociations && selectColumns == details.selectColumns
      ensures orderbyColumns == details.orderbyColumns
      ensures computeCount == details.computeCount && includeCount == details.includeCount
      ensures linkName == details.linkName && linkExpression == details.linkExpression
      ensures mediaName == details.mediaName && mediaProperties == details.mediaProperties
      ensures queryOptions == details.queryOptions && queryOptionsKeyValues == details.queryOptionsKeyValues
      ensures queryOptionsExpression == details.queryOptionsExpression
      ensures batchEntries == details.batchEntries
    {
      session := details.session;
      parent := details.parent;
      collectionName := details.collectionName;
      collectionExpression := details.collectionExpression;
      derivedCollectionName := details.derivedCollectionName;
      derivedCollectionExpression := details.derivedCollectionExpression;
      dynamicPropertiesContainerName := details.dynamicPropertiesContainerName;
      functionName := details.functionName;
      actionName := details.actionName;
      keyValues := details.keyValues;
      namedKeyValues := details.namedKeyValues;
      entryData := details.entryData;
      filters := details.filters;
      filterOrder := details.filterOrder;
      filterExpressions := details.filterExpressions;
      search := details.search;
      skipCount := details.skipCount;
      topCount := details.topCount;
      expandAssociations := details.expandAssociations;
      selectColumns := details.selectColumns;
      orderbyColumns := details.orderbyColumns;
      computeCount := details.computeCount;
      includeCount := details.includeCount;
      linkName := details.linkName;
      linkExpression := details.linkExpression;
      mediaName := details.mediaName;
      mediaProperties := details.mediaProperties;
      queryOptions := details.queryOptions;
      queryOptionsKeyValues := details.queryOptionsKeyValues;
      queryOptionsExpression := details.queryOptionsExpression;
      batchEntries := details.batchEntries;
      entitiesMap := map[];
    }

    /** GetFilterExpression: the stored expression, or null. */
    function GetFilterExpression(entity: string): (stored: Option<Expr>)
      reads this
      ensures stored.Some? <==> entity in filterExpressions
      ensures stored.Some? ==> stored.value == filterExpressions[entity]
    {
      if entity in filterExpressions then Some(filterExpressions[entity]) else None
    }

    /** AddFilterExpression: the new expression, or the stored one && the new one. */
    method AddFilterExpression(entity: string, e: Expr)
      modifies this`filterExpressions
      ensures GetFilterExpression(entity) == Some(Combined(old(GetFilterExpression(entity)), e))
      ensures forall k :: k != entity ==> GetFilterExpression(k) == old(GetFilterExpression(k))
      ensures filters == old(filters) && filterOrder == old(filterOrder) && entitiesMap == old(entitiesMap)
    {
      if entity in filterExpressions {
        var oldExp := filterExpressions[entity];
        filterExpressions := filterExpressions[entity := Binary(And, Some(oldExp), Some(e))];
      } else {
        filterExpressions := filterExpressions[entity := e];
      }
    }

    /** GetFilter: the stored text, or null. */
    function GetFilter(entity: string): (stored: Option<string>)
      reads this
      ensures stored.Some? <==> entity in filters
      ensures stored.Some? ==> stored.value == filters[entity]
    {
      if entity in filters then Some(filters[entity]) else None
    }

    /** SetFilter: last write wins; a new key is enumerated after the existing ones. */
    method SetFilter(entity: string, filter: string)
      requires Valid()
      modifies this`filters, this`filterOrder
      ensures Valid()
      ensures GetFilter(entity) == Some(filter)
      ensures forall k :: k != entity ==> GetFilter(k) == old(GetFilter(k))
      ensures filterOrder == if entity in old(filters) then old(filterOrder) else old(filterOrder) + [entity]
      ensures filterExpressions == old(filterExpressions) && entitiesMap == old(entitiesMap)
    {
      if entity !in filters {
        filterOrder := filterOrder + [entity];
      }
      filters := filters[entity := filter];
    }
  }
}
