/**
 * JdbcTemplate with positional parameters: findAll grows the SQL text with
 * string appends, remembers in `andFlag` whether a clause is already there,
 * and collects the values for the `?` markers in a list in the same order.
 */
module JdbcTemplateV1 {
  import opened Wrappers
  import opened Text
  import opened Domain
  import opened DynamicQuery

  // The literals are written in short pieces so that facts about their
  // characters can be checked piece by piece.
  const BaseSql := "select id, " + "item_name, " + "price, " + "quantity " + "from item"
  const NameClause := " item_name " + "like " + "concat('%', " + "?" + ", '%')"
  const PriceClause := " price <= " + "?"

  /** The SQL text and positional parameters findAll hands to template.query:
      the reference composition of the active clauses, and their values in
      clause order. */
  method FindAllQuery(searchCondition: ItemSearchCondition) returns (sql: string, param: seq<Value>)
    ensures sql == Compose(BaseSql, ActiveClauses(searchCondition, NameClause, PriceClause))
    ensures param == ClauseValues(searchCondition)
  {
    var itemName := searchCondition.itemName;
    var maxPrice := searchCondition.maxPrice;

    sql := BaseSql;
    if HasText(itemName) || maxPrice.Some? {
      sql := sql + " where";
    }

    var andFlag := false;
    param := [];
    if HasText(itemName) {
      sql := sql + NameClause;
      param := param + [Str(itemName.value)];
      andFlag := true;
    }

    if maxPrice.Some? {
      if andFlag {
        sql := sql + " and";
      }
      sql := sql + PriceClause;
      param := param + [Int(maxPrice.value)];
    }

    FourShapes(BaseSql, NameClause, PriceClause, searchCondition);
  }

  /** The base query and the joining keywords carry no `?` marker. */
  lemma MarkerFree()
    ensures '?' !in BaseSql && '?' !in " where" && '?' !in " and"
  {
  }

  /** Each optional clause carries exactly one `?` marker. */
  lemma OneMarkerEach()
    ensures CountChar(NameClause, '?') == 1 && CountChar(PriceClause, '?') == 1
  {
    CountCharOnce(" item_name " + "like " + "concat('%', ", ", '%')", '?');
    CountCharOnce(" price <= ", "", '?');
    assert PriceClause == " price <= " + ['?'] + "";
  }

  /** The query carries exactly as many `?` markers as there are parameters. */
  lemma MarkersMatchParams(cond: ItemSearchCondition)
    ensures CountChar(Compose(BaseSql, ActiveClauses(cond, NameClause, PriceClause)), '?')
         == |ClauseValues(cond)|
  {
    MarkerFree();
    OneMarkerEach();
    MarkersPerCondition(BaseSql, NameClause, PriceClause, '?', cond);
  }

  /** Every query is one of four shapes: with no active condition the bare base
      select and no parameter; otherwise " where" and the active clauses, joined
      by " and" only when both are active. */
  lemma QueryShapes(cond: ItemSearchCondition)
    ensures var q := Compose(BaseSql, ActiveClauses(cond, NameClause, PriceClause));
      && (!NameActive(cond) && !PriceActive(cond) ==> q == BaseSql && ClauseValues(cond) == [])
      && (NameActive(cond) && !PriceActive(cond) ==> q == BaseSql + " where" + NameClause)
      && (!NameActive(cond) && PriceActive(cond) ==> q == BaseSql + " where" + PriceClause)
      && (NameActive(cond) && PriceActive(cond) ==> q == BaseSql + " where" + NameClause + " and" + PriceClause)
      && (IsPrefix(BaseSql + " where", q) <==> NameActive(cond) || PriceActive(cond))
  {
    FourShapes(BaseSql, NameClause, PriceClause, cond);
    WhereIffActive(BaseSql, NameClause, PriceClause, cond);
  }
}
