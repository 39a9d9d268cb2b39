/**
 * The OData V3 CommandFormatter: how a value becomes a URI literal, the order
 * of the expand/filter/select/orderby clauses, which filters are attached to
 * expanded associations and how such a filter is rendered as an `any` lambda
 * (section 10.2.3.1 of OData Version 3.0 Part 2, URL Conventions).
 *
 * The base formatter (FormatClause, FormatNavigationPath and the item
 * formatters), ODataUriUtils.ConvertToUriLiteral, Uri.EscapeDataString and
 * ODataExpression.AsString are not part of this model: they are parameters.
 */
module CommandFormatterV3 {
  import opened Wrappers
  import opened Exceptions
  import opened Expressions
  import opened CommandState

  /** How functions are called: as a query or as a key segment. */
  datatype FunctionFormat = Query | Key

  /** The V3 formatter calls functions as queries. */
  const FunctionFormatV3: FunctionFormat := Query

  const Int32Min := -0x8000_0000
  const Int32Max := 0x7FFF_FFFF

  /** The object handed to ConvertValueToUriLiteral: a literal, or an ODataExpression. */
  datatype UriValue = LiteralValue(literal: Literal) | ExpressionValue(expression: Expr)

  /** The collaborators the formatter reaches outside this model. */
  datatype Collaborators = Collaborators(
    /** ODataExpression.AsString(session) */
    asString: Expr -> string,
    /** ODataUriUtils.ConvertToUriLiteral under the adapter's OData version and model */
    convertToUriLiteral: Literal -> string,
    /** Uri.EscapeDataString */
    escapeDataString: string -> string)

  /** ConvertValueToUriLiteral. */
  function ConvertValueToUriLiteral(value: UriValue, escapeDataString: bool, c: Collaborators): Result<string, Exception>
  {
    match value
    case ExpressionValue(x) => Success(c.asString(x))
    case LiteralValue(literal) =>
      if literal.EnumLiteral? && !(Int32Min <= literal.underlying <= Int32Max) then Failure(Overflow)
      else
        var converted := if literal.EnumLiteral? then IntLiteral(literal.underlying) else literal;
        var text := c.convertToUriLiteral(converted);
        Success(if escapeDataString then c.escapeDataString(text) else text)
  }

  /** An enum is converted exactly as its Int32 value is, and one outside the Int32 range overflows. */
  lemma EnumConvertsAsInt32(enumType: string, underlying: int, escapeDataString: bool, c: Collaborators)
    ensures Int32Min <= underlying <= Int32Max ==>
      ConvertValueToUriLiteral(LiteralValue(EnumLiteral(enumType, underlying)), escapeDataString, c)
      == ConvertValueToUriLiteral(LiteralValue(IntLiteral(underlying)), escapeDataString, c)
    ensures !(Int32Min <= underlying <= Int32Max) ==>
      ConvertValueToUriLiteral(LiteralValue(EnumLiteral(enumType, underlying)), escapeDataString, c) == Failure(Overflow)
  {
  }

  /** An expression is rendered by AsString alone: neither the literal converter nor escaping reaches it. */
  lemma ExpressionBypassesConverter(x: Expr, escape1: bool, escape2: bool, c1: Collaborators, c2: Collaborators)
    requires c1.asString == c2.asString
    ensures ConvertValueToUriLiteral(ExpressionValue(x), escape1, c1) == ConvertValueToUriLiteral(ExpressionValue(x), escape2, c2)
    ensures ConvertValueToUriLiteral(ExpressionValue(x), escape1, c1) == Success(c1.asString(x))
  {
  }

  /** Escaping is applied once, to the unescaped literal, and to nothing else. */
  lemma EscapingWrapsLiteral(literal: Literal, c: Collaborators)
    ensures var plain := ConvertValueToUriLiteral(LiteralValue(literal), false, c);
      var escaped := ConvertValueToUriLiteral(LiteralValue(literal), true, c);
      && (plain.Success? <==> escaped.Success?)
      && (plain.Success? ==> escaped.value == c.escapeDataString(plain.value))
      && (plain.Failure? ==> escaped == plain)
  {
  }

  /** FormatFilterItem: `P/any(P:V)` with P the navigation path of the key and V the stored filter. */
  function FormatFilterItem(key: string, filter: string, collection: string, formatNavigationPath: (string, string) -> string): string
  {
    var filterKey := formatNavigationPath(collection, key);
    filterKey + "/any(" + filterKey + ":" + filter + ")"
  }

  /** The navigation path and the filter text of a rendered lambda filter whose path has n characters. */
  function LambdaParts(item: string, n: nat): Option<(string, string)>
  {
    if |item| < 2 * n + 7 || item[n..n + 5] != "/any(" || item[n + 5..2 * n + 5] != item[..n]
       || item[2 * n + 5] != ':' || item[|item| - 1] != ')'
    then None
    else Some((item[..n], item[2 * n + 6..|item| - 1]))
  }

  /** A rendered lambda filter gives back its navigation path and its filter text. */
  lemma LambdaRoundTrip(key: string, filter: string, collection: string, formatNavigationPath: (string, string) -> string)
    ensures var path := formatNavigationPath(collection, key);
      LambdaParts(FormatFilterItem(key, filter, collection, formatNavigationPath), |path|) == Some((path, filter))
  {
    var path := formatNavigationPath(collection, key);
    var item := FormatFilterItem(key, filter, collection, formatNavigationPath);
    var n := |path|;
    assert item == path + "/any(" + path + ":" + filter + ")";
    assert item[..n] == path;
    assert item[n..n + 5] == "/any(";
    assert item[n + 5..2 * n + 5] == path;
    assert item[2 * n + 5] == ':';
    assert item[2 * n + 6..|item| - 1] == filter;
  }

  /** The filters, in dictionary order, whose key names one of the expand associations. */
  function ExpandFilters(order: seq<string>, filters: map<string, string>, expands: seq<ExpandAssociation>): seq<(string, string)>
    requires forall k :: k in order ==> k in filters
  {
    if |order| == 0 then []
    else
      var rest := ExpandFilters(order[1..], filters, expands);
      if exists i :: 0 <= i < |expands| && expands[i].key == order[0] then [(order[0], filters[order[0]])] + rest
      else rest
  }

  /** A filter is attached to the expand clause exactly when its key is an expand-association name. */
  lemma {:induction false} ExpandFiltersSelect(order: seq<string>, filters: map<string, string>, expands: seq<ExpandAssociation>,
                                               key: string, filter: string)
    requires forall k :: k in order ==> k in filters
    ensures (key, filter) in ExpandFilters(order, filters, expands)
        <==> key in order && filters[key] == filter && exists i :: 0 <= i < |expands| && expands[i].key == key
    decreases |order|
  {
    if |order| > 0 {
      ExpandFiltersSelect(order[1..], filters, expands, key, filter);
      assert forall k :: k in order <==> k == order[0] || k in order[1..];
    }
  }

  /** The clause texts the base formatter's FormatClause appends for a clause and its formatted items. */
  datatype ClauseFormatter = ClauseFormatter(
    formatClause: (string, seq<string>) -> seq<string>,
    formatExpandItem: (ExpandAssociation, string) -> string,
    formatSelectItem: (string, string) -> string,
    formatOrderByItem: (OrderbyColumn, string) -> string,
    formatNavigationPath: (string, string) -> string)

  const ExpandLiteral := "$expand"
  const FilterLiteral := "$filter"
  const SelectLiteral := "$select"
  const OrderByLiteral := "$orderby"
  const InlineCountLiteral := "$inlinecount"
  const AllPagesLiteral := "allpages"

  function MapExpand(items: seq<ExpandAssociation>, collection: string, f: ClauseFormatter): (r: seq<string>)
    ensures |r| == |items| && forall i :: 0 <= i < |items| ==> r[i] == f.formatExpandItem(items[i], collection)
  {
    if |items| == 0 then [] else [f.formatExpandItem(items[0], collection)] + MapExpand(items[1..], collection, f)
  }

  function MapSelect(items: seq<string>, collection: string, f: ClauseFormatter): (r: seq<string>)
    ensures |r| == |items| && forall i :: 0 <= i < |items| ==> r[i] == f.formatSelectItem(items[i], collection)
  {
    if |items| == 0 then [] else [f.formatSelectItem(items[0], collection)] + MapSelect(items[1..], collection, f)
  }

  function MapOrderBy(items: seq<OrderbyColumn>, collection: string, f: ClauseFormatter): (r: seq<string>)
    ensures |r| == |items| && forall i :: 0 <= i < |items| ==> r[i] == f.formatOrderByItem(items[i], collection)
  {
    if |items| == 0 then [] else [f.formatOrderByItem(items[0], collection)] + MapOrderBy(items[1..], collection, f)
  }

  function MapFilter(items: seq<(string, string)>, collection: string, f: ClauseFormatter): (r: seq<string>)
    ensures |r| == |items|
    ensures forall i :: 0 <= i < |items| ==> r[i] == FormatFilterItem(items[i].0, items[i].1, collection, f.formatNavigationPath)
  {
    if |items| == 0 then []
    else [FormatFilterItem(items[0].0, items[0].1, collection, f.formatNavigationPath)] + MapFilter(items[1..], collection, f)
  }

  /** The command clauses list the formatter appends to. */
  class CommandClauses {
    var clauses: seq<string>

    constructor ()
      ensures clauses == []
    {
      clauses := [];
    }

    /** FormatClause of the base formatter. */
    method FormatClause(literal: string, items: seq<string>, f: ClauseFormatter)
      modifies this
      ensures clauses == old(clauses) + f.formatClause(literal, items)
    {
      clauses := clauses + f.formatClause(literal, items);
    }

    /** FormatExpandSelectOrderby: expand, then the expand filters, then select, then orderby. */
    method FormatExpandSelectOrderby(collection: string, details: CommandDetails, f: ClauseFormatter)
      requires details.Valid()
      modifies this
      ensures clauses == old(clauses)
        + f.formatClause(ExpandLiteral, MapExpand(details.expandAssociations.items, collection, f))
        + f.formatClause(FilterLiteral,
            MapFilter(ExpandFilters(details.filterOrder, details.filters, details.expandAssociations.items), collection, f))
        + f.formatClause(SelectLiteral, MapSelect(details.selectColumns.items, collection, f))
        + f.formatClause(OrderByLiteral, MapOrderBy(details.orderbyColumns.items, collection, f))
    {
      var expands := details.expandAssociations.items;
      FormatClause(ExpandLiteral, MapExpand(expands, collection, f), f);
      var attached := ExpandFilters(details.filterOrder, details.filters, expands);
      FormatClause(FilterLiteral, MapFilter(attached, collection, f), f);
      FormatClause(SelectLiteral, MapSelect(details.selectColumns.items, collection, f), f);
      FormatClause(OrderByLiteral, MapOrderBy(details.orderbyColumns.items, collection, f), f);
    }

    /** FormatInlineCount: one clause, `$inlinecount=allpages`. */
    method FormatInlineCount()
      modifies this
      ensures clauses == old(clauses) + [InlineCountLiteral + "=" + AllPagesLiteral]
    {
      clauses := clauses + [InlineCountLiteral + "=" + AllPagesLiteral];
    }
  }
}
