/**
 * JdbcTemplate with named parameters: findAll grows the SQL text the same
 * way as the positional variant, but the clauses name their parameters
 * (`:itemName`, `:maxPrice`) and every property of the search condition is
 * offered for binding, so no parameter list is built.
 */
module JdbcTemplateV2 {
  import opened Wrappers
  import opened Text
  import opened Domain
  import opened DynamicQuery

  // The literals are written in short pieces so that facts about their
  // characters can be checked piece by piece.
  const BaseSql := "select id, " + "item_name, " + "price, " + "quantity " + "from item"
  const NameClause := " item_name " + "like " + "concat('%', " + ":itemName" + ", '%')"
  const PriceClause := " price <= " + ":maxPrice"

  /** The SQL text findAll hands to template.query: the reference composition
      of the active clauses. */
  method FindAllQuery(searchCondition: ItemSearchCondition) returns (sql: string)
    ensures sql == Compose(BaseSql, ActiveClauses(searchCondition, NameClause, PriceClause))
  {
    var itemName := searchCondition.itemName;
    var maxPrice := searchCondition.maxPrice;

    sql := BaseSql;
    if HasText(itemName) || maxPrice.Some? {
      sql := sql + " where";
    }

    var andFlag := false;
    if HasText(itemName) {
      sql := sql + NameClause;
      andFlag := true;
    }

    if maxPrice.Some? {
      if andFlag {
        sql := sql + " and";
      }
      sql := sql + PriceClause;
    }

    FourShapes(BaseSql, NameClause, PriceClause, searchCondition);
  }

  const NameBefore := " item_name " + "like " + "concat('%', "
  const NameAfter := ", '%')"
  const PriceBefore := " price <= "

  // The lemmas below deliberately instantiate DynamicQuery's general lemmas
  // with this builder's own literals, as each repository spells its own query.

  /** 'N' of `:itemName` occurs nowhere else in any query. */
  lemma NameMarkerLetter()
    ensures NameClause == NameBefore + ":itemName" + NameAfter
    ensures 'N' in ":itemName" && 'N' !in BaseSql && 'N' !in " where" && 'N' !in " and" && 'N' !in PriceClause
  {
  }

  /** 'P' of `:maxPrice` occurs nowhere else in any query. */
  lemma PriceMarkerLetter()
    ensures PriceClause == PriceBefore + ":maxPrice" + ""
    ensures 'P' in ":maxPrice" && 'P' !in BaseSql && 'P' !in " where" && 'P' !in " and" && 'P' !in NameClause
  {
  }

  /** The query refers to `:itemName` exactly when the name condition is active. */
  lemma NameParameterIffClause(cond: ItemSearchCondition)
    ensures Contains(Compose(BaseSql, ActiveClauses(cond, NameClause, PriceClause)), ":itemName")
        <==> NameActive(cond)
  {
    NameMarkerLetter();
    NameParameterIffActive(BaseSql, NameClause, PriceClause, cond, ":itemName", NameBefore, NameAfter, 'N');
  }

  /** The query refers to `:maxPrice` exactly when the price condition is active. */
  lemma PriceParameterIffClause(cond: ItemSearchCondition)
    ensures Contains(Compose(BaseSql, ActiveClauses(cond, NameClause, PriceClause)), ":maxPrice")
        <==> PriceActive(cond)
  {
    PriceMarkerLetter();
    PriceParameterIffActive(BaseSql, NameClause, PriceClause, cond, ":maxPrice", PriceBefore, "", 'P');
  }

  /** Every query is one of four shapes; " where" follows the base exactly
      when some condition is active, " and" only joins two clauses. */
  lemma QueryShapes(cond: ItemSearchCondition)
    ensures var q := Compose(BaseSql, ActiveClauses(cond, NameClause, PriceClause));
      && (!NameActive(cond) && !PriceActive(cond) ==> q == BaseSql)
      && (NameActive(cond) && !PriceActive(cond) ==> q == BaseSql + " where" + NameClause)
      && (!NameActive(cond) && PriceActive(cond) ==> q == BaseSql + " where" + PriceClause)
      && (NameActive(cond) && PriceActive(cond) ==> q == BaseSql + " where" + NameClause + " and" + PriceClause)
      && (IsPrefix(BaseSql + " where", q) <==> NameActive(cond) || PriceActive(cond))
  {
    FourShapes(BaseSql, NameClause, PriceClause, cond);
    WhereIffActive(BaseSql, NameClause, PriceClause, cond);
  }
}
