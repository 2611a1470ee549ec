/** The store's read views: pure functions of the current collections,
    recomputed on every call. */
module Getters {
  import opened Wrappers
  import opened JsValues
  import opened Seqs
  import opened Entities

  /** `countSold` must exceed this for a product to count as popular. */
  const PopularThreshold: real := 10.0

  /** Position `i` holds the first group called `name`, the one that
      `groups.find(g => g.name === name)` returns. */
  predicate FirstNamed(groups: seq<Group>, name: string, i: int) {
    && 0 <= i < |groups|
    && groups[i].name == name
    && forall j :: 0 <= j < i ==> groups[j].name != name
  }

  /** The first group called `name`, if any. */
  function FindGroup(groups: seq<Group>, name: string): (r: Option<nat>)
    ensures r.None? <==> forall g :: g in groups ==> g.name != name
    ensures r.Some? ==> FirstNamed(groups, name, r.value)
  {
    FindFirst(groups, (g: Group) => g.name == name)
  }

  /** `c.groupId === group.id`: a group without an id matches no category. */
  predicate CategoryInGroup(c: Category, id: Option<int>) {
    id == Some(c.groupId)
  }

  /** The value of a group's optional `id` property. */
  function IdValue(id: Option<int>): Value {
    match id
    case Some(n) => Num(n as real)
    case None => Undefined
  }

  /** `p.groupId === group.id`, on the product's raw `groupId`. */
  predicate ProductInGroup(p: Record, id: Option<int>) {
    StrictEquals(Get(p, "groupId"), IdValue(id))
  }

  /** `p.categoryId === categoryId`. */
  predicate ProductInCategory(p: Record, categoryId: real) {
    StrictEquals(Get(p, "categoryId"), Num(categoryId))
  }

  /** `p.countSold > 10`: the comparison converts `countSold` with
      `Number`, and NaN compares false. */
  predicate Popular(js: Runtime, p: Record) {
    match ToNumber(js, Get(p, "countSold"))
    case Some(n) => n > PopularThreshold
    case None => false
  }

  /** getCategoriesByGroup: nothing when no group has that name; otherwise
      the categories of the first group with that name, in order. */
  function CategoriesByGroup(groups: seq<Group>, categories: seq<Category>, name: string)
    : (r: seq<Category>)
    ensures (forall g :: g in groups ==> g.name != name) ==> r == []
    ensures forall i :: FirstNamed(groups, name, i) ==>
      && SubsequenceOf(r, categories)
      && forall c :: multiset(r)[c] ==
           if CategoryInGroup(c, groups[i].id) then multiset(categories)[c] else 0
  {
    match FindGroup(groups, name)
    case None => []
    case Some(i) => Filter(categories, (c: Category) => CategoryInGroup(c, groups[i].id))
  }

  /** getProductsByGroup: nothing when no group has that name; otherwise
      the products whose raw `groupId` is `===` the first such group's id,
      in order. */
  function ProductsByGroup(groups: seq<Group>, products: seq<Record>, name: string)
    : (r: seq<Record>)
    ensures (forall g :: g in groups ==> g.name != name) ==> r == []
    ensures forall i :: FirstNamed(groups, name, i) ==>
      && SubsequenceOf(r, products)
      && forall p :: multiset(r)[p] ==
           if ProductInGroup(p, groups[i].id) then multiset(products)[p] else 0
  {
    match FindGroup(groups, name)
    case None => []
    case Some(i) => Filter(products, (p: Record) => ProductInGroup(p, groups[i].id))
  }

  /** getProductsByCategory: the products of that category, in order. */
  function ProductsByCategory(products: seq<Record>, categoryId: real): (r: seq<Record>)
    ensures SubsequenceOf(r, products)
    ensures forall p :: multiset(r)[p] ==
                        if ProductInCategory(p, categoryId) then multiset(products)[p] else 0
  {
    Filter(products, (p: Record) => ProductInCategory(p, categoryId))
  }

  /** getPopularProducts: the products sold more than ten times, in order. */
  function PopularProducts(js: Runtime, products: seq<Record>): (r: seq<Record>)
    ensures SubsequenceOf(r, products)
    ensures forall p :: multiset(r)[p] == if Popular(js, p) then multiset(products)[p] else 0
  {
    Filter(products, (p: Record) => Popular(js, p))
  }

  /** `categories.map(c => c.name)`. */
  function Names(categories: seq<Category>): (r: seq<string>)
    ensures |r| == |categories|
    ensures forall i :: 0 <= i < |categories| ==> r[i] == categories[i].name
  {
    if categories == [] then [] else [categories[0].name] + Names(categories[1..])
  }

  /** categoryNames: the menu entries, "All" followed by every category's
      name in order. */
  function CategoryNames(categories: seq<Category>): (r: seq<string>)
    ensures |r| == |categories| + 1
    ensures r[0] == "All"
    ensures forall i :: 0 <= i < |categories| ==> r[i + 1] == categories[i].name
  {
    ["All"] + Names(categories)
  }

  /** Since the comparison is `===` on the raw field, a group that has no
      id selects exactly the products that have no `groupId` value. */
  lemma GroupWithoutIdSelectsUngrouped(groups: seq<Group>, products: seq<Record>, name: string, i: nat)
    requires FirstNamed(groups, name, i) && groups[i].id.None?
    ensures forall p :: p in ProductsByGroup(groups, products, name) <==>
                        p in products && Get(p, "groupId") == Undefined
  {
    var r := ProductsByGroup(groups, products, name);
    forall p ensures p in r <==> p in products && Get(p, "groupId") == Undefined {
      assert p in r <==> multiset(r)[p] > 0;
      assert p in products <==> multiset(products)[p] > 0;
    }
  }

  /** A group without an id has no categories, whatever their `groupId`.
      This rests on `Category` declaring `groupId` as a number that is
      always present; a raw category record lacking `groupId` would be
      selected by such a group, as a product lacking it is. */
  lemma GroupWithoutIdHasNoCategories(groups: seq<Group>, categories: seq<Category>, name: string, i: nat)
    requires FirstNamed(groups, name, i) && groups[i].id.None?
    ensures CategoriesByGroup(groups, categories, name) == []
  {
  }
}
