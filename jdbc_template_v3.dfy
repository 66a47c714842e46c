/**
 * JdbcTemplate with SimpleJdbcInsert: findAll builds the same named-parameter
 * SQL as the previous variant, except that its base select, as written,
 * lacks the comma between `price` and `quantity`. SQL then reads
 * `price quantity` as the column price under the alias quantity: the query
 * selects three columns instead of four.
 */
module JdbcTemplateV3 {
  import opened Wrappers
  import opened Text
  import opened Domain
  import opened DynamicQuery
  import JdbcTemplateV2

  // The literals are written in short pieces so that facts about their
  // characters can be checked piece by piece.

  /** The base select as the repository writes it: no comma after `price`. */
  const BaseSql := "select id, " + "item_name, " + "price " + "quantity " + "from item"
  /** The base select with the missing comma restored. */
  const CorrectedBaseSql := "select id, " + "item_name, " + "price, " + "quantity " + "from item"
  const NameClause := " item_name " + "like " + "concat('%', " + ":itemName" + ", '%')"
  const PriceClause := " price <= " + ":maxPrice"

  /** The step-by-step construction of the query over a given base select. */
  method BuildQuery(base: string, condition: ItemSearchCondition) returns (sql: string)
    ensures sql == Compose(base, ActiveClauses(condition, NameClause, PriceClause))
  {
    var maxPrice := condition.maxPrice;
    var itemName := condition.itemName;

    sql := base;
    if HasText(itemName) || maxPrice.Some? {
      sql := sql + " where";
    }

    var andFlag := false;
    if HasText(itemName) {
      sql := sql + NameClause;
      andFlag := true;
    }

    if maxPrice.Some? {
      if andFlag {
        sql := sql + " and";
      }
      sql := sql + PriceClause;
    }

    FourShapes(base, NameClause, PriceClause, condition);
  }

  /** findAll as written: the query over the comma-less base select. */
  method FindAllQuery(condition: ItemSearchCondition) returns (sql: string)
    ensures sql == Compose(BaseSql, ActiveClauses(condition, NameClause, PriceClause))
    ensures IsPrefix(BaseSql, sql)
  {
    sql := BuildQuery(BaseSql, condition);
    WhereIffActive(BaseSql, NameClause, PriceClause, condition);
  }

  /** findAll as evidently intended: the query over the four-column select. */
  method FindAllQueryCorrected(condition: ItemSearchCondition) returns (sql: string)
    ensures sql == Compose(CorrectedBaseSql, ActiveClauses(condition, NameClause, PriceClause))
    ensures sql == Compose(JdbcTemplateV2.BaseSql, ActiveClauses(condition, JdbcTemplateV2.NameClause, JdbcTemplateV2.PriceClause))
  {
    sql := BuildQuery(CorrectedBaseSql, condition);
  }

  /** As written, `price quantity` reads as price under the alias quantity. */
  lemma AsWrittenAliasesPrice()
    ensures Contains(BaseSql, "price quantity")
  {
    assert "price " + "quantity " == "price quantity" + " ";
    assert BaseSql == ("select id, " + "item_name, ") + "price quantity" + (" " + "from item");
    ContainsInfix("select id, " + "item_name, ", "price quantity", " " + "from item");
  }

  /** As written, no condition yields the query of the named-parameter
      variant: every query differs from it in its select list. */
  lemma AsWrittenDiffersFromV2(condition: ItemSearchCondition)
    ensures Compose(BaseSql, ActiveClauses(condition, NameClause, PriceClause))
         != Compose(JdbcTemplateV2.BaseSql, ActiveClauses(condition, JdbcTemplateV2.NameClause, JdbcTemplateV2.PriceClause))
  {
    DifferentBasesDifferentQueries(BaseSql, JdbcTemplateV2.BaseSql, ActiveClauses(condition, NameClause, PriceClause));
  }

  /** With the comma restored, price and quantity are two entries of the select list. */
  lemma CorrectedSeparatesQuantity()
    ensures Contains(CorrectedBaseSql, "price, quantity")
  {
    assert "price, " + "quantity " == "price, quantity" + " ";
    assert CorrectedBaseSql == ("select id, " + "item_name, ") + "price, quantity" + (" " + "from item");
    ContainsInfix("select id, " + "item_name, ", "price, quantity", " " + "from item");
  }

  // Like its siblings in the other builders, this instantiates
  // DynamicQuery.FourShapes with this builder's own literals on purpose.

  /** Every query, as written, is one of four shapes over the comma-less base;
      " where" follows it exactly when some condition is active. */
  lemma QueryShapes(cond: ItemSearchCondition)
    ensures var q := Compose(BaseSql, ActiveClauses(cond, NameClause, PriceClause));
      && (!NameActive(cond) && !PriceActive(cond) ==> q == BaseSql)
      && (NameActive(cond) && !PriceActive(cond) ==> q == BaseSql + " where" + NameClause)
      && (!NameActive(cond) && PriceActive(cond) ==> q == BaseSql + " where" + PriceClause)
      && (NameActive(cond) && PriceActive(cond) ==> q == BaseSql + " where" + NameClause + " and" + PriceClause)
      && (IsPrefix(BaseSql + " where", q) <==> NameActive(cond) || PriceActive(cond))
  {
    FourShapes(BaseSql, NameClause, PriceClause, cond);
    WhereIffActive(BaseSql, NameClause, PriceClause, cond);
  }
}
