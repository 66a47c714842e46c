# itemservice repositories in Dafny

This project models the item repositories of a small Spring shop application
(`itemservice`). Items have an id, a name, a price and a quantity. Every
repository offers save, update, findById and findAll. findAll takes a search
condition made of an optional name fragment and an optional maximum price.

Two parts are modelled.

- **The in-memory reference store** (`MemoryRepository`, file
  `memory_repository.dfy`). The class `MemoryItemRepository` has a `store`
  map from id to Item and a `sequence` counter. Save, Update and ClearStore
  are methods that change those fields. FindById and FindAll are functions
  that read them. The class invariant `Valid()` says every key lies in
  `1..sequence` and is the id of the item stored under it. findAll is
  specified twice: by the two stream filters it applies (`FindAllIn`), and by
  a membership and order statement proved about that definition
  (`FindAllInSpec`). The repository test's scenarios are methods on a fresh
  object, with their expected results proved.
- **The dynamic-query builders** of the SQL and JPQL variants. Each builder is
  a straight-line method that grows a query text. It starts from a base
  select, adds `" where"` when some condition is active, then the name
  clause, then `" and"` when both are active, then the price clause. Some
  builders also collect a parameter list in the same order. Each method is
  proved equal to one reference definition, `DynamicQuery.Compose`. The
  shared facts are proved once about that definition: the four shapes, where
  `" where"` and `" and"` go, the count of markers, and which named
  parameters appear. The JPA variant based on Spring Data does not build text.
  It picks one of four repository calls (`JpaV2.FindAll`), and the
  arguments it passes are proved to be the values the JPQL builder binds, in
  the same order, with the name wrapped as the LIKE pattern `%name%`.

The two notions of an absent name are kept apart (`Text`). The memory store
ignores a name when `ObjectUtils.isEmpty` holds: null or length 0. The query
builders ignore it when `StringUtils.hasText` fails: null or whitespace only.
So a blank name such as `"  "` filters in memory (and matches none of the test
items) but adds no clause to any query.

A Java `String` or `Integer` that the code tests for null is an `Option`; the other fields of Item and ItemUpdateDto are plain values. The id of an
Item is `None` until save assigns one. The memory store returns findAll
results in ascending id order. For the small `Long` keys the test uses, that
is the iteration order of the `HashMap`, and `containsExactly` in the test
observes it.

The comment after the first JDBC builder lists the four query shapes. Its
first shape starts with `select if`, a typo in the comment. The model follows
the code, which writes `select id`. The same comment writes `concat ('%'`
with a space, while the code has `concat('%'`; the code is followed again.

The third JDBC builder's base select, as written, lacks the comma between
`price` and `quantity`. Its method `JdbcTemplateV3.FindAllQuery` models that
text exactly, and `JdbcTemplateV3.FindAllQueryCorrected` models the evidently
intended one (see Findings).

Layout: `wrappers.dfy` (Option), `text.dfy` (string predicates), `domain.dfy`
(Item, ItemUpdateDto, ItemSearchCondition), `memory_repository.dfy`,
`dynamic_query.dfy` (the reference definition of a dynamic query),
`jdbc_template_v1.dfy`, `jdbc_template_v2.dfy`, `jdbc_template_v3.dfy`,
`jpa_v1.dfy` and `jpa_v2.dfy`.

## Model

| member | source | states |
|---|---|---|
| Domain.NewItem | src/main/java/hello/itemservice/domain/Item.java:28-32 | a new Item has no id yet and carries the given name, price and quantity |
| Text.HasText | src/main/java/hello/itemservice/repository/jdbctemplate/JdbcTemplateItemRepositoryV1.java:123 | defines StringUtils.hasText: not null and holding at least one character outside `Text.IsWhitespace`, the model of Character.isWhitespace |
| Text.IsEmpty | src/main/java/hello/itemservice/repository/memory/MemoryItemRepository.java:50 | defines ObjectUtils.isEmpty on a String: null or of length 0 |
| Text.Contains | src/main/java/hello/itemservice/repository/memory/MemoryItemRepository.java:54 | defines String.contains: the fragment occurs at some position of the name |
| MemoryRepository.NameMatches | src/main/java/hello/itemservice/repository/memory/MemoryItemRepository.java:48-55 | defines the first filter: an empty name keeps every item, otherwise the item's name must contain it |
| MemoryRepository.PriceMatches | src/main/java/hello/itemservice/repository/memory/MemoryItemRepository.java:55-62 | defines the second filter: a null bound keeps every item, otherwise the price must be at most the bound |
| MemoryRepository.Matches | src/main/java/hello/itemservice/repository/memory/MemoryItemRepository.java:47-63 | defines the conjunction of the two filters |
| MemoryRepository.ValuesUpTo | src/main/java/hello/itemservice/repository/memory/MemoryItemRepository.java:47 | defines the stream of stored values, scanned by ascending key from 1 to the counter |
| MemoryRepository.FindAllIn | src/main/java/hello/itemservice/repository/memory/MemoryItemRepository.java:47-63 | defines findAll's pipeline: the value stream, filtered by name, then by price, collected in order |
| DynamicQuery.JoinAnd | src/main/java/hello/itemservice/repository/jdbctemplate/JdbcTemplateItemRepositoryV1.java:135-139 | defines the clauses separated by " and" |
| DynamicQuery.Compose | src/main/java/hello/itemservice/repository/jdbctemplate/JdbcTemplateItemRepositoryV1.java:121-141 | defines the reference query every builder is proved equal to: the base alone, or the base, " where" and the joined clauses |
| Text.HasTextStricterThanNonEmpty | src/main/java/hello/itemservice/repository/memory/MemoryItemRepository.java:50 | a name with text is never isEmpty; every non-empty all-whitespace name is neither empty nor has text, so the memory filter and the query builders treat it differently |
| MemoryRepository.Filter | src/main/java/hello/itemservice/repository/memory/MemoryItemRepository.java:47-63 | a filtered stream is never longer than its source |
| MemoryRepository.FilterMembers | src/main/java/hello/itemservice/repository/memory/MemoryItemRepository.java:48-55 | an element survives a filter exactly when it was in the source and passes the predicate |
| MemoryRepository.FilterKeepsAll | src/main/java/hello/itemservice/repository/memory/MemoryItemRepository.java:50-52 | a filter whose predicate holds for every element returns its source unchanged |
| MemoryRepository.FilterKeepsOrder | src/main/java/hello/itemservice/repository/memory/MemoryItemRepository.java:47-63 | filtering keeps strictly ascending ids ascending |
| MemoryRepository.ValuesUpToMembers | src/main/java/hello/itemservice/repository/memory/MemoryItemRepository.java:47 | the values scanned are exactly the entries whose keys lie in 1..n |
| MemoryRepository.ValuesUpToIsStore | src/main/java/hello/itemservice/repository/memory/MemoryItemRepository.java:47 | under the key invariant, scanning keys 1..sequence yields exactly the stored values |
| MemoryRepository.ValuesUpToAscending | src/main/java/hello/itemservice/repository/memory/MemoryItemRepository.java:47 | under the key invariant the scanned values have strictly ascending ids |
| MemoryRepository.ValuesUpToAgree | src/main/java/hello/itemservice/repository/memory/MemoryItemRepository.java:47 | the scan up to n depends only on the entries with keys 1..n |
| MemoryRepository.FindAllInSpec | src/main/java/hello/itemservice/repository/memory/MemoryItemRepository.java:44-64 | findAll returns an item if and only if it is stored and passes both the name filter and the price filter (conjunction), with ids strictly ascending |
| MemoryRepository.FindAllUnconstrained | src/main/java/hello/itemservice/repository/memory/MemoryItemRepository.java:50-59 | a null or "" name and a null bound return every stored item |
| MemoryRepository.TestStoreValues | src/test/java/hello/itemservice/domain/ItemRepositoryTest.java:90-96 | the three saved test items are scanned in the order saved |
| MemoryRepository.FilterPair | src/main/java/hello/itemservice/repository/memory/MemoryItemRepository.java:47-63 | filtering two items keeps each one that passes, in order |
| MemoryRepository.FilterTriple | src/main/java/hello/itemservice/repository/memory/MemoryItemRepository.java:47-63 | filtering three items keeps each one that passes, in order |
| MemoryRepository.FindItemsNoCondition | src/test/java/hello/itemservice/domain/ItemRepositoryTest.java:99-100 | no condition, and a "" name, return all three items |
| MemoryRepository.FindItemsByName | src/test/java/hello/itemservice/domain/ItemRepositoryTest.java:103-105 | name "itemA" returns the two itemA items and name "itemB" the itemB item |
| MemoryRepository.FindItemsByPrice | src/test/java/hello/itemservice/domain/ItemRepositoryTest.java:108 | bound 10000 returns only the first item |
| MemoryRepository.FindItemsByNameAndPrice | src/test/java/hello/itemservice/domain/ItemRepositoryTest.java:111 | name "itemA" with bound 10000 returns only the first item (both filters apply) |
| MemoryRepository.FindItemsBlankName | src/main/java/hello/itemservice/repository/memory/MemoryItemRepository.java:50-54 | a blank name "  " is a real filter in memory and matches none of the test items |
| MemoryRepository.MemoryItemRepository.constructor | src/main/java/hello/itemservice/repository/memory/MemoryItemRepository.java:20-21 | a new store is empty, its counter is 0, and the invariant holds |
| MemoryRepository.MemoryItemRepository.Save | src/main/java/hello/itemservice/repository/memory/MemoryItemRepository.java:24-27 | the counter grows by one; the item gets that value as id, overwriting any id it had; the id was unused; the item is stored under it and returned; findById of the new id gives it back |
| MemoryRepository.MemoryItemRepository.Update | src/main/java/hello/itemservice/repository/memory/MemoryItemRepository.java:31-36 | fails exactly when the id is unknown, and then changes nothing; otherwise the entry takes the payload's name, price and quantity and keeps its id, while the keys, the other entries and the counter stay as they were |
| MemoryRepository.MemoryItemRepository.FindById | src/main/java/hello/itemservice/repository/memory/MemoryItemRepository.java:39-41 | absent exactly when the id is not a key, never an error; a found item is stored and carries that id |
| MemoryRepository.MemoryItemRepository.FindAll | src/main/java/hello/itemservice/repository/memory/MemoryItemRepository.java:44-64 | exactly the stored items that pass both filters, in ascending id order |
| MemoryRepository.MemoryItemRepository.ClearStore | src/main/java/hello/itemservice/repository/memory/MemoryItemRepository.java:66-68 | the map becomes empty and the counter is kept |
| MemoryRepository.SaveScenario | src/test/java/hello/itemservice/domain/ItemRepositoryTest.java:56-67 | the saved item gets id 1 and findById returns it |
| MemoryRepository.UpdateScenario | src/test/java/hello/itemservice/domain/ItemRepositoryTest.java:69-85 | after the update findById returns the payload's name, price and quantity under the same id |
| MemoryRepository.FindItemsScenario | src/test/java/hello/itemservice/domain/ItemRepositoryTest.java:87-112 | three saves get ids 1, 2, 3, and every findAll of the test, including the one with a "" name, returns exactly the expected items in that order |
| MemoryRepository.ClearStoreScenario | src/main/java/hello/itemservice/repository/memory/MemoryItemRepository.java:66-68 | after clearStore the next save gets id 2, not 1, and the cleared id is no longer found |
| MemoryRepository.UpdateMissingScenario | src/main/java/hello/itemservice/repository/memory/MemoryItemRepository.java:32 | updating an unknown id fails and creates no entry |
| DynamicQuery.NameActive | src/main/java/hello/itemservice/repository/jdbctemplate/JdbcTemplateItemRepositoryV1.java:129 | defines the name guard every builder tests: StringUtils.hasText(itemName) |
| DynamicQuery.PriceActive | src/main/java/hello/itemservice/repository/jdbctemplate/JdbcTemplateItemRepositoryV1.java:135 | defines the price guard every builder tests: maxPrice != null |
| DynamicQuery.ActiveClauses | src/main/java/hello/itemservice/repository/jdbctemplate/JdbcTemplateItemRepositoryV1.java:129-141 | one clause per active condition, the name clause first and the price clause last |
| DynamicQuery.ClauseValues | src/main/java/hello/itemservice/repository/jdbctemplate/JdbcTemplateItemRepositoryV1.java:128-141 | one value per active clause, the name first and the bound last |
| DynamicQuery.FourShapes | src/main/java/hello/itemservice/repository/jdbctemplate/JdbcTemplateItemRepositoryV1.java:150-168 | every query is the base alone, base + " where" + one clause, or base + " where" + name clause + " and" + price clause, according to the active conditions |
| DynamicQuery.WhereIffActive | src/main/java/hello/itemservice/repository/jdbctemplate/JdbcTemplateItemRepositoryV1.java:121-125 | every query starts with its base, and " where" follows it if and only if some condition is active |
| DynamicQuery.BlankNameInactive | src/main/java/hello/itemservice/repository/jdbctemplate/JdbcTemplateItemRepositoryV1.java:129 | a null or whitespace-only name adds neither a clause nor a parameter |
| DynamicQuery.ComposeCount | src/main/java/hello/itemservice/repository/jdbctemplate/JdbcTemplateItemRepositoryV1.java:121-139 | a marker absent from the base, " where" and " and" occurs in the query as often as in its clauses |
| DynamicQuery.JoinAndCount | src/main/java/hello/itemservice/repository/jdbctemplate/JdbcTemplateItemRepositoryV1.java:136-139 | joining clauses with " and" adds no marker |
| DynamicQuery.MarkersPerCondition | src/main/java/hello/itemservice/repository/jdbctemplate/JdbcTemplateItemRepositoryV1.java:130-140 | when each clause holds one marker, the query holds one marker per active condition |
| DynamicQuery.NameParameterIffActive | src/main/java/hello/itemservice/repository/jdbctemplate/JdbcTemplateItemRepositoryV2.java:131-134 | the name parameter appears in the query if and only if the name condition is active |
| DynamicQuery.PriceParameterIffActive | src/main/java/hello/itemservice/repository/jdbctemplate/JdbcTemplateItemRepositoryV2.java:136-141 | the price parameter appears in the query if and only if the price condition is active |
| DynamicQuery.ComposeSplitsAtBase | src/main/java/hello/itemservice/repository/jdbctemplate/JdbcTemplateItemRepositoryV3.java:91-109 | what a builder appends after the base does not depend on the base |
| DynamicQuery.DifferentBasesDifferentQueries | src/main/java/hello/itemservice/repository/jdbctemplate/JdbcTemplateItemRepositoryV3.java:91 | builders whose bases differ in length never produce the same query |
| JdbcTemplateV1.FindAllQuery | src/main/java/hello/itemservice/repository/jdbctemplate/JdbcTemplateItemRepositoryV1.java:117-147 | the SQL is the base followed by the active clauses, joined as the reference definition says; the parameter list is the name and then the bound, each only when active |
| JdbcTemplateV1.MarkerFree | src/main/java/hello/itemservice/repository/jdbctemplate/JdbcTemplateItemRepositoryV1.java:121-137 | the base select, " where" and " and" hold no `?` |
| JdbcTemplateV1.OneMarkerEach | src/main/java/hello/itemservice/repository/jdbctemplate/JdbcTemplateItemRepositoryV1.java:130-139 | the name clause and the price clause each hold exactly one `?` |
| JdbcTemplateV1.MarkersMatchParams | src/main/java/hello/itemservice/repository/jdbctemplate/JdbcTemplateItemRepositoryV1.java:130-147 | the number of `?` markers in the SQL equals the length of the parameter list |
| JdbcTemplateV1.QueryShapes | src/main/java/hello/itemservice/repository/jdbctemplate/JdbcTemplateItemRepositoryV1.java:150-168 | the four shapes of the SQL; with no active condition the SQL is exactly the base and the parameter list is empty; " where" follows the base if and only if some condition is active |
| JdbcTemplateV2.FindAllQuery | src/main/java/hello/itemservice/repository/jdbctemplate/JdbcTemplateItemRepositoryV2.java:118-143 | the SQL is the base followed by the active named-parameter clauses, joined as the reference definition says |
| JdbcTemplateV2.NameParameterIffClause | src/main/java/hello/itemservice/repository/jdbctemplate/JdbcTemplateItemRepositoryV2.java:131-134 | the SQL mentions `:itemName` if and only if the name has text |
| JdbcTemplateV2.PriceParameterIffClause | src/main/java/hello/itemservice/repository/jdbctemplate/JdbcTemplateItemRepositoryV2.java:136-141 | the SQL mentions `:maxPrice` if and only if the bound is non-null |
| JdbcTemplateV2.QueryShapes | src/main/java/hello/itemservice/repository/jdbctemplate/JdbcTemplateItemRepositoryV2.java:124-141 | the four shapes of the SQL; the base alone when nothing is active; " where" if and only if some condition is active; " and" only between the two clauses |
| JdbcTemplateV3.BuildQuery | src/main/java/hello/itemservice/repository/jdbctemplate/JdbcTemplateItemRepositoryV3.java:94-109 | the appends after the base build the reference composition of the active clauses |
| JdbcTemplateV3.FindAllQuery | src/main/java/hello/itemservice/repository/jdbctemplate/JdbcTemplateItemRepositoryV3.java:85-112 | the SQL as written: the comma-less base followed by the active clauses; it always starts with that base |
| JdbcTemplateV3.FindAllQueryCorrected | src/main/java/hello/itemservice/repository/jdbctemplate/JdbcTemplateItemRepositoryV3.java:91 | with the comma restored the SQL is, for every condition, the SQL of the named-parameter variant |
| JdbcTemplateV3.AsWrittenAliasesPrice | src/main/java/hello/itemservice/repository/jdbctemplate/JdbcTemplateItemRepositoryV3.java:91 | the base as written contains `price quantity`, which SQL reads as price under the alias quantity |
| JdbcTemplateV3.AsWrittenDiffersFromV2 | src/main/java/hello/itemservice/repository/jdbctemplate/JdbcTemplateItemRepositoryV3.java:91 | for no condition does the query as written equal the named-parameter variant's query |
| JdbcTemplateV3.CorrectedSeparatesQuantity | src/main/java/hello/itemservice/repository/jdbctemplate/JdbcTemplateItemRepositoryV3.java:91 | the corrected base lists price and quantity as two entries |
| JdbcTemplateV3.QueryShapes | src/main/java/hello/itemservice/repository/jdbctemplate/JdbcTemplateItemRepositoryV3.java:91-109 | the four shapes over the comma-less base; " where" if and only if some condition is active; the price clause comes last |
| JpaV1.FindAllQuery | src/main/java/hello/itemservice/repository/jpa/JpaItemRepositoryV1.java:69-104 | the JPQL is the base followed by the active clauses; the parameter list holds the active values in clause order; a named parameter is bound if and only if its clause was appended, if and only if the JPQL mentions it, and it is bound to the condition's value |
| JpaV1.NameParameterIffClause | src/main/java/hello/itemservice/repository/jpa/JpaItemRepositoryV1.java:81-85 | the JPQL mentions `:itemName` if and only if the name has text |
| JpaV1.PriceParameterIffClause | src/main/java/hello/itemservice/repository/jpa/JpaItemRepositoryV1.java:87-93 | the JPQL mentions `:maxPrice` if and only if the bound is non-null |
| JpaV1.BothActiveLoggedJpql | src/main/java/hello/itemservice/repository/jpa/JpaItemRepositoryV1.java:113 | with both conditions active the JPQL is the logged text, written as its five parts |
| JpaV1.QueryShapes | src/main/java/hello/itemservice/repository/jpa/JpaItemRepositoryV1.java:70-93 | the four shapes of the JPQL; exactly `select i from Item i` when nothing is active; " where" if and only if some condition is active |
| JpaV2.LikePattern | src/main/java/hello/itemservice/repository/jpa/JpaItemRepositoryV2.java:52 | the pattern starts and ends with `%` and has the name, exactly, in between |
| JpaV2.FindAll | src/main/java/hello/itemservice/repository/jpa/JpaItemRepositoryV2.java:43-60 | the combined query if and only if both conditions are active, the name query if and only if only the name is, the price query if and only if only the bound is, and the unfiltered query if and only if neither is; names are passed as the LIKE pattern and bounds unchanged |
| JpaV2.ArgumentsMatchClauseValues | src/main/java/hello/itemservice/repository/jpa/JpaItemRepositoryV2.java:48-58 | the chosen query receives exactly the values the JPQL builder binds, in the same order, with the name wrapped as a LIKE pattern |
| JpaV2.BlankNameNotSearched | src/main/java/hello/itemservice/repository/jpa/JpaItemRepositoryV2.java:53-58 | a null or whitespace-only name never selects a name query: the price query when a bound is given, the unfiltered query otherwise |

## Left out

- Null fields of an Item and null DTO fields are not modelled. In Java a stored item with a null name makes findAll throw when the name filter is not empty (MemoryItemRepository.java line 54), and one with a null price throws when the bound is non-null and the item passes the name filter (line 61).
- Java integer widths are not modelled: `long` overflow of the sequence counter and `Integer` limits of price and quantity. Ids and amounts are unbounded integers.
- Concurrency is not modelled. The original store and counter are static and unsynchronised; here they are fields of one sequentially used object.
- Object aliasing is not modelled. The Java store keeps the caller's own Item object, and update mutates that object. Here Save stores a value and Update replaces the entry. This gives the same findById and findAll results only when each Item object is saved once and changed only through update. If one object is saved twice, Java maps both keys to that one object, which carries the second id, and findAll returns it twice when it passes the filters; a caller changing a saved or returned Item also changes the store. The key invariant and FindById's statement that a found item carries the id it was looked up by hold only under that restriction.
- MemoryRepository.MemoryItemRepository.Save: returns the item with its new id but does not set the id on the caller's own item, as Java's save does; the test reads the id back from that object.
- MemoryRepository.MemoryItemRepository.FindAll: assumes the HashMap iterates in ascending key order, which holds for the small keys of the test but is not promised by Java; membership does not depend on it.
- Characters are Dafny chars, not UTF-16 units; whitespace is Character.isWhitespace restricted to the Basic Multilingual Plane, which contains every whitespace character.
- Executing the SQL and JPQL is not modelled: the database's LIKE semantics, row mapping, and the binding done by BeanPropertySqlParameterSource.
- The TypedQuery of the JPA builder is modelled only by the map of parameters bound on it.
- JpaV1.BothActiveLoggedJpql: states the logged text as the concatenation of its five parts rather than as one literal.
- JdbcTemplateV2.FindAllQuery: returns no parameter list, because the repository binds every property of the condition by name.
- save, update and findById of the JDBC and JPA variants are not modelled. They delegate to JdbcTemplate, SimpleJdbcInsert, the EntityManager and Spring Data, whose behaviour is not visible here.
- The log calls of every builder are left out.
- The Querydsl repositories, the MyBatis mapper and the Spring Data interfaces are not part of this model; their queries are generated by code that is not visible here.
- Services, configuration, bootstrap, transactions and the web layer are not part of this model.

## Findings

| source | as written | input that shows it | evidently intended | confidence | as-written member | corrected member |
|---|---|---|---|---|---|---|
| src/main/java/hello/itemservice/repository/jdbctemplate/JdbcTemplateItemRepositoryV3.java:91 | the base select is `select id, item_name, price quantity from item`, with no comma between price and quantity | any condition, for example both fields null: the query selects id, item_name and price under the alias quantity, so the mapped Item gets the price as its quantity and no price | `select id, item_name, price, quantity from item`, the base of the other two JDBC builders | high; not executed | JdbcTemplateV3.AsWrittenDiffersFromV2 | JdbcTemplateV3.FindAllQueryCorrected |
