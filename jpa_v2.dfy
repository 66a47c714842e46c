/**
 * Spring Data JPA behind the repository interface: findAll does not build a
 * query text but picks one of four repository queries according to which
 * conditions are active, passing the name as a LIKE pattern `%name%`.
 */
module JpaV2 {
  import opened Wrappers
  import opened Text
  import opened Domain
  import opened DynamicQuery

  /** The repository query findAll delegates to, with its arguments. */
  datatype RepositoryCall =
    | FindItems(itemName: string, price: int)
    | FindByItemNameLike(itemName: string)
    | FindByPriceLessThanEqual(price: int)
    | FindAllItems

  /** The LIKE pattern `"%" + itemName + "%"`: the name, exactly, between two `%`. */
  function LikePattern(itemName: string): (pattern: string)
    ensures |pattern| == |itemName| + 2
    ensures pattern[0] == '%' && pattern[|pattern| - 1] == '%'
    ensures pattern[1..|pattern| - 1] == itemName
  {
    "%" + itemName + "%"
  }

  /** The four-way choice of findAll. */
  function FindAll(cond: ItemSearchCondition): (call: RepositoryCall)
    ensures call.FindItems? <==> NameActive(cond) && PriceActive(cond)
    ensures call.FindByItemNameLike? <==> NameActive(cond) && !PriceActive(cond)
    ensures call.FindByPriceLessThanEqual? <==> !NameActive(cond) && PriceActive(cond)
    ensures call.FindAllItems? <==> !NameActive(cond) && !PriceActive(cond)
    ensures (call.FindItems? || call.FindByItemNameLike?) ==> call.itemName == LikePattern(cond.itemName.value)
    ensures (call.FindItems? || call.FindByPriceLessThanEqual?) ==> call.price == cond.maxPrice.value
  {
    var itemName := cond.itemName;
    var maxPrice := cond.maxPrice;
    if HasText(itemName) && maxPrice.Some? then
      FindItems("%" + itemName.value + "%", maxPrice.value)
    else if HasText(itemName) then
      FindByItemNameLike("%" + itemName.value + "%")
    else if maxPrice.Some? then
      FindByPriceLessThanEqual(maxPrice.value)
    else
      FindAllItems
  }

  /** The arguments a repository call passes, in declaration order. */
  function Arguments(call: RepositoryCall): seq<Value>
  {
    match call
    case FindItems(name, price) => [Str(name), Int(price)]
    case FindByItemNameLike(name) => [Str(name)]
    case FindByPriceLessThanEqual(price) => [Int(price)]
    case FindAllItems => []
  }

  /** A condition value as the repository query receives it: a name becomes its LIKE pattern. */
  function AsLikeArgument(v: Value): Value
  {
    match v
    case Str(s) => Str(LikePattern(s))
    case Int(n) => Int(n)
  }

  /** The chosen call receives exactly the values the JPQL builder binds, in
      the same order, the name wrapped as a LIKE pattern. */
  lemma ArgumentsMatchClauseValues(cond: ItemSearchCondition)
    ensures |Arguments(FindAll(cond))| == |ClauseValues(cond)|
    ensures forall i :: 0 <= i < |ClauseValues(cond)| ==>
              Arguments(FindAll(cond))[i] == AsLikeArgument(ClauseValues(cond)[i])
  {
    var vs := ClauseValues(cond);
    if NameActive(cond) && PriceActive(cond) {
      assert vs == [Str(cond.itemName.value), Int(cond.maxPrice.value)];
    } else if NameActive(cond) {
      assert vs == [Str(cond.itemName.value)];
    } else if PriceActive(cond) {
      assert vs == [Int(cond.maxPrice.value)];
    }
  }

  /** A null name, or one made only of whitespace, never selects a name query. */
  lemma BlankNameNotSearched(cond: ItemSearchCondition)
    requires cond.itemName.None? || forall i :: 0 <= i < |cond.itemName.value| ==> IsWhitespace(cond.itemName.value[i])
    ensures FindAll(cond) == (if cond.maxPrice.Some? then FindByPriceLessThanEqual(cond.maxPrice.value) else FindAllItems)
  {
    BlankNameInactive(cond, "", "");
  }
}
