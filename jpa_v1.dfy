/**
 * JPA through the EntityManager: findAll builds a JPQL text over the Item
 * entity the same step-by-step way as the SQL builders, collects the
 * condition values in a list, and then binds each named parameter on the
 * TypedQuery under the same guard that appended its clause. The TypedQuery is
 * modelled by the map of parameters bound on it.
 */
module JpaV1 {
  import opened Wrappers
  import opened Text
  import opened Domain
  import opened DynamicQuery

  // The literals are written in short pieces so that facts about their
  // characters can be checked piece by piece.
  const BaseJpql := "select i " + "from Item i"
  const NameClause := " i.itemName " + "like " + "concat('%', " + ":itemName" + ", '%')"
  const PriceClause := " i.price <= " + ":maxPrice"

  /** The JPQL text, the parameter list and the named parameters bound on the
      query: the reference composition of the active clauses, their values in
      clause order, and exactly the parameters the text refers to. */
  method FindAllQuery(cond: ItemSearchCondition) returns (jpql: string, param: seq<Value>, parameters: map<string, Value>)
    ensures jpql == Compose(BaseJpql, ActiveClauses(cond, NameClause, PriceClause))
    ensures param == ClauseValues(cond)
    ensures parameters.Keys <= {"itemName", "maxPrice"}
    ensures "itemName" in parameters <==> NameActive(cond)
    ensures "maxPrice" in parameters <==> PriceActive(cond)
    ensures "itemName" in parameters <==> Contains(jpql, ":itemName")
    ensures "maxPrice" in parameters <==> Contains(jpql, ":maxPrice")
    ensures "itemName" in parameters ==> parameters["itemName"] == Str(cond.itemName.value)
    ensures "maxPrice" in parameters ==> parameters["maxPrice"] == Int(cond.maxPrice.value)
  {
    jpql := BaseJpql;

    var itemName := cond.itemName;
    var maxPrice := cond.maxPrice;

    if HasText(itemName) || maxPrice.Some? {
      jpql := jpql + " where";
    }

    var andFlag := false;
    param := [];
    if HasText(itemName) {
      jpql := jpql + NameClause;
      param := param + [Str(itemName.value)];
      andFlag := true;
    }

    if maxPrice.Some? {
      if andFlag {
        jpql := jpql + " and";
      }
      jpql := jpql + PriceClause;
      param := param + [Int(maxPrice.value)];
    }

    parameters := map[];
    if HasText(itemName) {
      parameters := parameters["itemName" := Str(itemName.value)];
    }
    if maxPrice.Some? {
      parameters := parameters["maxPrice" := Int(maxPrice.value)];
    }

    FourShapes(BaseJpql, NameClause, PriceClause, cond);
    NameParameterIffClause(cond);
    PriceParameterIffClause(cond);
  }

  const NameBefore := " i.itemName " + "like " + "concat('%', "
  const NameAfter := ", '%')"
  const PriceBefore := " i.price <= "

  // The lemmas below deliberately instantiate DynamicQuery's general lemmas
  // with this builder's own literals, as each repository spells its own query.

  /** 'N' of `:itemName` occurs in no other part of a query. */
  lemma NameMarkerLetter()
    ensures NameClause == NameBefore + ":itemName" + NameAfter
    ensures 'N' in ":itemName" && 'N' !in BaseJpql && 'N' !in " where" && 'N' !in " and" && 'N' !in PriceClause
  {
  }

  /** 'P' of `:maxPrice` occurs nowhere else in any query. */
  lemma PriceMarkerLetter()
    ensures PriceClause == PriceBefore + ":maxPrice" + ""
    ensures 'P' in ":maxPrice" && 'P' !in BaseJpql && 'P' !in " where" && 'P' !in " and" && 'P' !in NameClause
  {
  }

  /** The JPQL refers to `:itemName` exactly when the name condition is active. */
  lemma NameParameterIffClause(cond: ItemSearchCondition)
    ensures Contains(Compose(BaseJpql, ActiveClauses(cond, NameClause, PriceClause)), ":itemName")
        <==> NameActive(cond)
  {
    NameMarkerLetter();
    NameParameterIffActive(BaseJpql, NameClause, PriceClause, cond, ":itemName", NameBefore, NameAfter, 'N');
  }

  /** The JPQL refers to `:maxPrice` exactly when the price condition is active. */
  lemma PriceParameterIffClause(cond: ItemSearchCondition)
    ensures Contains(Compose(BaseJpql, ActiveClauses(cond, NameClause, PriceClause)), ":maxPrice")
        <==> PriceActive(cond)
  {
    PriceMarkerLetter();
    PriceParameterIffActive(BaseJpql, NameClause, PriceClause, cond, ":maxPrice", PriceBefore, "", 'P');
  }

  /** With both conditions active the JPQL is the text the repository logs,
      written here as its five parts. */
  lemma BothActiveLoggedJpql(cond: ItemSearchCondition)
    requires NameActive(cond) && PriceActive(cond)
    ensures Compose(BaseJpql, ActiveClauses(cond, NameClause, PriceClause))
         == "select i from Item i" + " where" + " i.itemName like concat('%', :itemName, '%')"
            + " and" + " i.price <= :maxPrice"
  {
    FourShapes(BaseJpql, NameClause, PriceClause, cond);
    BaseSpelled();
    NameClauseSpelled();
    PriceClauseSpelled();
  }

  lemma BaseSpelled() ensures BaseJpql == "select i from Item i" {}
  lemma NameClauseSpelled() ensures NameClause == " i.itemName like concat('%', :itemName, '%')" {}
  lemma PriceClauseSpelled() ensures PriceClause == " i.price <= :maxPrice" {}

  /** Every JPQL text is one of four shapes; with no active condition it is
      the bare `select i from Item i`. */
  lemma QueryShapes(cond: ItemSearchCondition)
    ensures var q := Compose(BaseJpql, ActiveClauses(cond, NameClause, PriceClause));
      && (!NameActive(cond) && !PriceActive(cond) ==> q == "select i from Item i")
      && (NameActive(cond) && !PriceActive(cond) ==> q == BaseJpql + " where" + NameClause)
      && (!NameActive(cond) && PriceActive(cond) ==> q == BaseJpql + " where" + PriceClause)
      && (NameActive(cond) && PriceActive(cond) ==> q == BaseJpql + " where" + NameClause + " and" + PriceClause)
      && (IsPrefix(BaseJpql + " where", q) <==> NameActive(cond) || PriceActive(cond))
  {
    FourShapes(BaseJpql, NameClause, PriceClause, cond);
    WhereIffActive(BaseJpql, NameClause, PriceClause, cond);
    BaseSpelled();
  }
}
