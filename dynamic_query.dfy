/**
 * What the SQL and JPQL findAll builders have in common. Each one starts
 * from a base select and, depending on the search condition, adds " where",
 * a name clause, " and" and a price clause. This module gives the reference
 * definition those step-by-step builders are proved against (Compose), and
 * proves once the facts every variant inherits: which of four shapes a
 * query has, where " where" and " and" go, and how many parameter markers
 * the query carries.
 */
module DynamicQuery {
  import opened Wrappers
  import opened Text
  import opened Domain

  /** A value bound to a query parameter: the name (String) or the bound (Integer). */
  datatype Value = Str(s: string) | Int(n: int)

  /** The builders filter by name only when it has text (StringUtils.hasText). */
  predicate NameActive(cond: ItemSearchCondition)
  {
    HasText(cond.itemName)
  }

  /** The builders filter by price whenever the bound is non-null. */
  predicate PriceActive(cond: ItemSearchCondition)
  {
    cond.maxPrice.Some?
  }

  /** The clauses, separated by " and". */
  function JoinAnd(clauses: seq<string>): string
  {
    if clauses == [] then ""
    else if |clauses| == 1 then clauses[0]
    else clauses[0] + " and" + JoinAnd(clauses[1..])
  }

  /** Reference definition of a dynamic query: the base select and, when
      some clause is active, " where" followed by the clauses joined by " and". */
  function Compose(base: string, clauses: seq<string>): string
  {
    if clauses == [] then base else base + " where" + JoinAnd(clauses)
  }

  /** The clauses a condition activates: the name clause before the price clause. */
  function ActiveClauses(cond: ItemSearchCondition, nameClause: string, priceClause: string): (cs: seq<string>)
    ensures |cs| == (if NameActive(cond) then 1 else 0) + (if PriceActive(cond) then 1 else 0)
    ensures NameActive(cond) ==> cs[0] == nameClause
    ensures PriceActive(cond) ==> cs[|cs| - 1] == priceClause
  {
    (if NameActive(cond) then [nameClause] else []) + (if PriceActive(cond) then [priceClause] else [])
  }

  /** The values of the active clauses' parameters, in clause order. */
  function ClauseValues(cond: ItemSearchCondition): (vs: seq<Value>)
    ensures |vs| == |ActiveClauses(cond, "", "")|
    ensures NameActive(cond) ==> vs[0] == Str(cond.itemName.value)
    ensures PriceActive(cond) ==> vs[|vs| - 1] == Int(cond.maxPrice.value)
  {
    (if NameActive(cond) then [Str(cond.itemName.value)] else [])
    + (if PriceActive(cond) then [Int(cond.maxPrice.value)] else [])
  }

  predicate IsPrefix(p: string, s: string)
  {
    |p| <= |s| && s[..|p|] == p
  }

  /** Exactly four shapes: the base alone; base, " where" and one clause; or
      base, " where", the name clause, " and", the price clause. */
  lemma FourShapes(base: string, nameClause: string, priceClause: string, cond: ItemSearchCondition)
    ensures var q := Compose(base, ActiveClauses(cond, nameClause, priceClause));
      && (!NameActive(cond) && !PriceActive(cond) ==> q == base)
      && (NameActive(cond) && !PriceActive(cond) ==> q == base + " where" + nameClause)
      && (!NameActive(cond) && PriceActive(cond) ==> q == base + " where" + priceClause)
      && (NameActive(cond) && PriceActive(cond) ==> q == base + " where" + nameClause + " and" + priceClause)
  {
    if NameActive(cond) && PriceActive(cond) {
      var cs := ActiveClauses(cond, nameClause, priceClause);
      assert cs == [nameClause, priceClause];
      assert cs[1..] == [priceClause];
      assert JoinAnd(cs) == nameClause + " and" + priceClause;
    }
  }

  /** Every query starts with the base select, and continues with " where"
      exactly when some condition is active. */
  lemma WhereIffActive(base: string, nameClause: string, priceClause: string, cond: ItemSearchCondition)
    ensures IsPrefix(base, Compose(base, ActiveClauses(cond, nameClause, priceClause)))
    ensures IsPrefix(base + " where", Compose(base, ActiveClauses(cond, nameClause, priceClause)))
        <==> NameActive(cond) || PriceActive(cond)
  {
    var cs := ActiveClauses(cond, nameClause, priceClause);
    var q := Compose(base, cs);
    if cs != [] {
      assert q == (base + " where") + JoinAnd(cs);
      assert q[..|base|] == (base + " where")[..|base|];
    }
  }

  /** A null name, or one made only of whitespace, activates no name clause. */
  lemma BlankNameInactive(cond: ItemSearchCondition, nameClause: string, priceClause: string)
    requires cond.itemName.None? || forall i :: 0 <= i < |cond.itemName.value| ==> IsWhitespace(cond.itemName.value[i])
    ensures !NameActive(cond)
    ensures ActiveClauses(cond, nameClause, priceClause) == (if PriceActive(cond) then [priceClause] else [])
    ensures ClauseValues(cond) == (if PriceActive(cond) then [Int(cond.maxPrice.value)] else [])
  {
  }

  /** Sum of the occurrences of `c` in each clause. */
  function CountInClauses(clauses: seq<string>, c: char): nat
  {
    if clauses == [] then 0 else CountChar(clauses[0], c) + CountInClauses(clauses[1..], c)
  }

  /** A marker character that occurs neither in the base nor in the
      connectors " where" and " and" occurs in the query exactly as often as
      in its clauses. */
  lemma {:induction false} ComposeCount(base: string, clauses: seq<string>, c: char)
    requires c !in base && c !in " where" && c !in " and"
    ensures CountChar(Compose(base, clauses), c) == CountInClauses(clauses, c)
  {
    if clauses != [] {
      JoinAndCount(clauses, c);
      CountCharAppend(base, " where", c);
      CountCharAppend(base + " where", JoinAnd(clauses), c);
    }
  }

  lemma {:induction false} JoinAndCount(clauses: seq<string>, c: char)
    requires c !in " and"
    ensures CountChar(JoinAnd(clauses), c) == CountInClauses(clauses, c)
  {
    if |clauses| == 1 {
      assert clauses[1..] == [];
    } else if |clauses| > 1 {
      JoinAndCount(clauses[1..], c);
      CountCharAppend(clauses[0], " and", c);
      CountCharAppend(clauses[0] + " and", JoinAnd(clauses[1..]), c);
    }
  }

  /** When each of the two clauses carries exactly one marker, the query
      carries one marker per active condition. */
  lemma MarkersPerCondition(base: string, nameClause: string, priceClause: string, c: char, cond: ItemSearchCondition)
    requires c !in base && c !in " where" && c !in " and"
    requires CountChar(nameClause, c) == 1 && CountChar(priceClause, c) == 1
    ensures CountChar(Compose(base, ActiveClauses(cond, nameClause, priceClause)), c)
         == |ActiveClauses(cond, nameClause, priceClause)|
  {
    var cs := ActiveClauses(cond, nameClause, priceClause);
    ComposeCount(base, cs, c);
    if |cs| == 2 {
      assert cs == [nameClause, priceClause];
      assert cs[1..] == [priceClause];
      assert cs[1..][1..] == [];
      assert CountInClauses(cs[1..], c) == 1;
    } else if |cs| == 1 {
      assert cs[1..] == [];
    }
  }

  /** A query mentions the name clause's parameter `marker` exactly when the
      name condition is active, provided some character of the marker occurs
      nowhere else in the query. */
  lemma NameParameterIffActive(base: string, nameClause: string, priceClause: string, cond: ItemSearchCondition,
                               marker: string, pre: string, post: string, c: char)
    requires nameClause == pre + marker + post
    requires c in marker && c !in base && c !in " where" && c !in " and" && c !in priceClause
    ensures Contains(Compose(base, ActiveClauses(cond, nameClause, priceClause)), marker) <==> NameActive(cond)
  {
    FourShapes(base, nameClause, priceClause, cond);
    var q := Compose(base, ActiveClauses(cond, nameClause, priceClause));
    if NameActive(cond) {
      if PriceActive(cond) {
        assert q == (base + " where" + pre) + marker + (post + " and" + priceClause);
        ContainsInfix(base + " where" + pre, marker, post + " and" + priceClause);
      } else {
        assert q == (base + " where" + pre) + marker + post;
        ContainsInfix(base + " where" + pre, marker, post);
      }
    } else {
      assert c !in q;
      NotContainsMissingChar(q, marker, c);
    }
  }

  /** A query mentions the price clause's parameter `marker` exactly when the
      price condition is active, provided some character of the marker occurs
      nowhere else in the query. */
  lemma PriceParameterIffActive(base: string, nameClause: string, priceClause: string, cond: ItemSearchCondition,
                                marker: string, pre: string, post: string, c: char)
    requires priceClause == pre + marker + post
    requires c in marker && c !in base && c !in " where" && c !in " and" && c !in nameClause
    ensures Contains(Compose(base, ActiveClauses(cond, nameClause, priceClause)), marker) <==> PriceActive(cond)
  {
    FourShapes(base, nameClause, priceClause, cond);
    var q := Compose(base, ActiveClauses(cond, nameClause, priceClause));
    if PriceActive(cond) {
      if NameActive(cond) {
        assert q == (base + " where" + nameClause + " and" + pre) + marker + post;
        ContainsInfix(base + " where" + nameClause + " and" + pre, marker, post);
      } else {
        assert q == (base + " where" + pre) + marker + post;
        ContainsInfix(base + " where" + pre, marker, post);
      }
    } else {
      assert c !in q;
      NotContainsMissingChar(q, marker, c);
    }
  }

  /** The part of a query after its base does not depend on the base. */
  lemma ComposeSplitsAtBase(base: string, clauses: seq<string>)
    ensures Compose(base, clauses) == base + Compose("", clauses)
  {
    if clauses != [] {
      assert "" + " where" == " where";
      assert base + " where" + JoinAnd(clauses) == base + (" where" + JoinAnd(clauses));
    }
  }

  /** Two builders that differ only in the length of their base never produce the same query. */
  lemma DifferentBasesDifferentQueries(base1: string, base2: string, clauses: seq<string>)
    requires |base1| != |base2|
    ensures Compose(base1, clauses) != Compose(base2, clauses)
  {
    ComposeSplitsAtBase(base1, clauses);
    ComposeSplitsAtBase(base2, clauses);
  }
}
