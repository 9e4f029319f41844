/** The product listing page (src/pages/Products.jsx): the pagination window and the prev/next
    clamps, the query sent to the backend, the two-level category tree, the breadcrumb lookup,
    and the filter state its handlers change. */
module Products {
  import opened Wrappers
  import Seqs
  import opened Catalog

  const PageSize: int := 12

  // ---------------------------------------------------------------- pagination

  /** getPageNumbers: all pages when there are at most five, otherwise a window of five
      consecutive pages inside [1, totalPages] that holds the current page when it is in range. */
  function PageNumbers(totalPages: int, currentPage: int): (r: seq<int>)
    ensures totalPages <= 5 ==>
      |r| == (if totalPages < 0 then 0 else totalPages) && forall i :: 0 <= i < |r| ==> r[i] == i + 1
    ensures totalPages > 5 ==>
      |r| == 5 && 1 <= r[0] && r[4] <= totalPages && forall i :: 0 <= i < 4 ==> r[i + 1] == r[i] + 1
    ensures totalPages > 5 && 1 <= currentPage <= totalPages ==> currentPage in r
  {
    if totalPages <= 5 then seq(if totalPages < 0 then 0 else totalPages, i => i + 1)
    else if currentPage <= 3 then [1, 2, 3, 4, 5]
    else if currentPage >= totalPages - 2 then
      [totalPages - 4, totalPages - 3, totalPages - 2, totalPages - 1, totalPages]
    else [currentPage - 2, currentPage - 1, currentPage, currentPage + 1, currentPage + 2]
  }

  /** The Previous button: `Math.max(1, prev - 1)`. */
  function PreviousPage(page: int): (r: int)
    ensures r >= 1
    ensures page > 1 ==> r == page - 1
    ensures page <= 1 ==> r == 1
  {
    if page - 1 > 1 then page - 1 else 1
  }

  /** The Next button: `Math.min(totalPages, prev + 1)`. */
  function NextPage(page: int, totalPages: int): (r: int)
    ensures r <= totalPages
    ensures page < totalPages ==> r == page + 1
    ensures page >= totalPages ==> r == totalPages
  {
    if page + 1 < totalPages then page + 1 else totalPages
  }

  /** Previous and Next keep an in-range page in range. */
  lemma PageStepsStayInRange(page: int, totalPages: int)
    requires 1 <= page <= totalPages
    ensures 1 <= PreviousPage(page) <= totalPages
    ensures 1 <= NextPage(page, totalPages) <= totalPages
  {
  }

  // ---------------------------------------------------------------- query

  datatype QueryValue = Text(text: string) | Number(n: int)

  datatype Param = Param(key: string, value: QueryValue)

  /** The backend's sort key for a sort option; an empty option adds no sort at all. */
  function SortParam(sortBy: string): (r: Option<string>)
    ensures r.None? <==> sortBy == ""
    ensures sortBy == "price-low" ==> r == Some("price")
    ensures sortBy == "price-high" ==> r == Some("-price")
    ensures sortBy == "rating" ==> r == Some("-averageRating")
    ensures sortBy !in {"", "price-low", "price-high", "rating"} ==> r == Some("-createdAt")
  {
    if sortBy == "" then None
    else if sortBy == "price-low" then Some("price")
    else if sortBy == "price-high" then Some("-price")
    else if sortBy == "rating" then Some("-averageRating")
    else Some("-createdAt")
  }

  function Optional(present: bool, p: Param): seq<Param> {
    if present then [p] else []
  }

  /** The parameters fetchProducts appends, in order. */
  function ProductQuery(category: string, sortBy: string, search: string, minRating: int, page: int): seq<Param>
  {
    Optional(category != "", Param("category", Text(category)))
    + Optional(SortParam(sortBy).Some?, Param("sort", Text(SortParam(sortBy).GetOr(""))))
    + Optional(search != "", Param("search", Text(search)))
    + Optional(minRating > 0, Param("minRating", Number(minRating)))
    + [Param("page", Number(page)), Param("limit", Number(PageSize))]
  }

  /** URLSearchParams.get: the first value under `key`. */
  function Lookup(ps: seq<Param>, key: string): Option<QueryValue>
  {
    if ps == [] then None else if ps[0].key == key then Some(ps[0].value) else Lookup(ps[1..], key)
  }

  lemma {:induction false} LookupAppend(a: seq<Param>, b: seq<Param>, key: string)
    ensures Lookup(a + b, key) == if Lookup(a, key).Some? then Lookup(a, key) else Lookup(b, key)
  {
    if a == [] {
      assert a + b == b;
    } else {
      assert (a + b)[0] == a[0];
      assert (a + b)[1..] == a[1..] + b;
      LookupAppend(a[1..], b, key);
    }
  }

  /** An optional parameter is found under its own key exactly when it is present. */
  lemma LookupOptional(present: bool, p: Param, key: string)
    ensures Lookup(Optional(present, p), key) == if present && p.key == key then Some(p.value) else None
  {
    if present {
      assert [p][1..] == [];
    }
  }

  /** Looking a key up in five concatenated parts. */
  lemma LookupChain(c: seq<Param>, s: seq<Param>, f: seq<Param>, m: seq<Param>, t: seq<Param>, k: string)
    ensures Lookup(c + s + f + m + t, k) ==
      if Lookup(c, k).Some? then Lookup(c, k)
      else if Lookup(s, k).Some? then Lookup(s, k)
      else if Lookup(f, k).Some? then Lookup(f, k)
      else if Lookup(m, k).Some? then Lookup(m, k)
      else Lookup(t, k)
  {
    LookupAppend(c + s + f + m, t, k);
    LookupAppend(c + s + f, m, k);
    LookupAppend(c + s, f, k);
    LookupAppend(c, s, k);
  }

  /** What the query holds under any one key. */
  lemma ProductQueryKey(category: string, sortBy: string, search: string, minRating: int, page: int, k: string)
    ensures Lookup(ProductQuery(category, sortBy, search, minRating, page), k) ==
      if category != "" && k == "category" then Some(Text(category))
      else if sortBy != "" && k == "sort" then Some(Text(SortParam(sortBy).value))
      else if search != "" && k == "search" then Some(Text(search))
      else if minRating > 0 && k == "minRating" then Some(Number(minRating))
      else if k == "page" then Some(Number(page))
      else if k == "limit" then Some(Number(PageSize))
      else None
  {
    var c := Optional(category != "", Param("category", Text(category)));
    var s := Optional(SortParam(sortBy).Some?, Param("sort", Text(SortParam(sortBy).GetOr(""))));
    var f := Optional(search != "", Param("search", Text(search)));
    var m := Optional(minRating > 0, Param("minRating", Number(minRating)));
    var t := [Param("page", Number(page)), Param("limit", Number(PageSize))];
    assert ProductQuery(category, sortBy, search, minRating, page) == c + s + f + m + t;
    LookupOptional(category != "", Param("category", Text(category)), k);
    LookupOptional(SortParam(sortBy).Some?, Param("sort", Text(SortParam(sortBy).GetOr(""))), k);
    LookupOptional(search != "", Param("search", Text(search)), k);
    LookupOptional(minRating > 0, Param("minRating", Number(minRating)), k);
    assert t == Optional(true, t[0]) + Optional(true, t[1]);
    LookupAppend(Optional(true, t[0]), Optional(true, t[1]), k);
    LookupOptional(true, t[0], k);
    LookupOptional(true, t[1], k);
    LookupChain(c, s, f, m, t, k);
  }

  /** Each filter reaches the query under its own key: the category only when non-empty, the
      mapped sort key only for a non-empty option, the search only when non-empty, the rating
      only when above zero, and the page and a limit of 12 always, as the last two parameters. */
  lemma ProductQueryLookup(category: string, sortBy: string, search: string, minRating: int, page: int)
    ensures var q := ProductQuery(category, sortBy, search, minRating, page);
      && Lookup(q, "category") == (if category != "" then Some(Text(category)) else None)
      && Lookup(q, "sort") == (if sortBy != "" then Some(Text(SortParam(sortBy).value)) else None)
      && Lookup(q, "search") == (if search != "" then Some(Text(search)) else None)
      && Lookup(q, "minRating") == (if minRating > 0 then Some(Number(minRating)) else None)
      && Lookup(q, "page") == Some(Number(page))
      && Lookup(q, "limit") == Some(Number(PageSize))
      && q[|q| - 2..] == [Param("page", Number(page)), Param("limit", Number(PageSize))]
  {
    ProductQueryKey(category, sortBy, search, minRating, page, "category");
    ProductQueryKey(category, sortBy, search, minRating, page, "sort");
    ProductQueryKey(category, sortBy, search, minRating, page, "search");
    ProductQueryKey(category, sortBy, search, minRating, page, "minRating");
    ProductQueryKey(category, sortBy, search, minRating, page, "page");
    ProductQueryKey(category, sortBy, search, minRating, page, "limit");
  }

  // ---------------------------------------------------------------- category tree

  /** A category with the categories shown beneath it. */
  datatype CategoryTree = Node(category: Category, children: seq<CategoryTree>)

  /** The four ways a child names its parent: by `_id` or `slug`, as a string or inside an
      embedded parent object. */
  predicate ChildOf(child: Category, parent: Category) {
    match child.parent
    case NoParent => false
    case ParentKey(k) => k == parent.id || k == parent.slug
    case ParentObject(id, slug) => id == parent.id || slug == parent.slug
  }

  /** The categories the listing keeps: those not marked inactive. */
  function ActiveCategories(all: seq<Category>): (r: seq<Category>)
    ensures forall c :: c in r ==> c in all && IsActive(c)
  {
    Seqs.Filter(IsActive, all)
  }

  /** Only categories explicitly marked inactive are dropped. */
  lemma ActiveCategoriesComplete(all: seq<Category>, c: Category)
    requires c in all && IsActive(c)
    ensures c in ActiveCategories(all)
  {
    Seqs.FilterKeeps(IsActive, all, c);
  }

  function Leaves(cs: seq<Category>): (r: seq<CategoryTree>)
    ensures |r| == |cs| && forall i :: 0 <= i < |cs| ==> r[i] == Node(cs[i], [])
  {
    seq(|cs|, i requires 0 <= i < |cs| => Node(cs[i], []))
  }

  /** The children listed under `p`. */
  function ChildrenOf(cats: seq<Category>, p: Category): seq<Category>
  {
    Seqs.Filter((c: Category) => ChildOf(c, p), Seqs.Filter(HasParent, cats))
  }

  /** The `map` step: each parentless category with its children attached. */
  function Attach(cats: seq<Category>, parents: seq<Category>): (r: seq<CategoryTree>)
    ensures |r| == |parents|
    ensures forall i :: 0 <= i < |parents| ==> r[i] == Node(parents[i], Leaves(ChildrenOf(cats, parents[i])))
  {
    seq(|parents|, i requires 0 <= i < |parents| => Node(parents[i], Leaves(ChildrenOf(cats, parents[i]))))
  }

  function Key(t: CategoryTree): int {
    OrderKey(t.category)
  }

  predicate SortedByOrder(ts: seq<CategoryTree>) {
    forall i, j :: 0 <= i < j < |ts| ==> Key(ts[i]) <= Key(ts[j])
  }

  /** Insert `t` before the first tree whose order is not smaller. */
  function InsertByOrder(t: CategoryTree, ts: seq<CategoryTree>): seq<CategoryTree>
  {
    if ts == [] then [t]
    else if Key(t) <= Key(ts[0]) then [t] + ts
    else [ts[0]] + InsertByOrder(t, ts[1..])
  }

  /** Inserting adds exactly `t`. */
  lemma {:induction false} InsertByOrderCount(t: CategoryTree, ts: seq<CategoryTree>)
    ensures multiset(InsertByOrder(t, ts)) == multiset(ts) + multiset{t}
  {
    if ts != [] && Key(t) > Key(ts[0]) {
      var rest := InsertByOrder(t, ts[1..]);
      InsertByOrderCount(t, ts[1..]);
      assert InsertByOrder(t, ts) == [ts[0]] + rest;
      assert multiset(ts) == multiset{ts[0]} + multiset(ts[1..]) by {
        assert ts == [ts[0]] + ts[1..];
      }
    }
  }

  /** Every tree after insertion is `t` or one of `ts`. */
  lemma InsertByOrderMembers(t: CategoryTree, ts: seq<CategoryTree>, x: CategoryTree)
    requires x in InsertByOrder(t, ts)
    ensures x == t || x in ts
  {
    InsertByOrderCount(t, ts);
    assert x in multiset(InsertByOrder(t, ts));
  }

  /** Inserting into a sorted sequence keeps it sorted. */
  lemma {:induction false} InsertByOrderSorted(t: CategoryTree, ts: seq<CategoryTree>)
    requires SortedByOrder(ts)
    ensures SortedByOrder(InsertByOrder(t, ts))
  {
    if ts == [] {
    } else if Key(t) <= Key(ts[0]) {
      ConsSorted(t, ts);
    } else {
      var tail := ts[1..];
      assert SortedByOrder(tail) by {
        forall i, j | 0 <= i < j < |tail| ensures Key(tail[i]) <= Key(tail[j]) {
          assert tail[i] == ts[i + 1] && tail[j] == ts[j + 1];
        }
      }
      var rest := InsertByOrder(t, tail);
      InsertByOrderSorted(t, tail);
      forall j | 0 <= j < |rest| ensures Key(ts[0]) <= Key(rest[j]) {
        InsertByOrderMembers(t, tail, rest[j]);
        if rest[j] != t {
          var m :| 0 <= m < |tail| && tail[m] == rest[j];
          assert ts[m + 1] == rest[j];
        }
      }
      ConsSorted(ts[0], rest);
    }
  }

  /** A tree no later than any tree of a sorted sequence can go in front of it. */
  lemma ConsSorted(x: CategoryTree, ts: seq<CategoryTree>)
    requires SortedByOrder(ts)
    requires forall j :: 0 <= j < |ts| ==> Key(x) <= Key(ts[j])
    ensures SortedByOrder([x] + ts)
  {
    var r := [x] + ts;
    forall i, j | 0 <= i < j < |r| ensures Key(r[i]) <= Key(r[j]) {
      assert r[j] == ts[j - 1];
      if i > 0 { assert r[i] == ts[i - 1]; }
    }
  }

  /** A stable sort by `order` (Array.prototype.sort is stable). */
  function SortByOrder(ts: seq<CategoryTree>): seq<CategoryTree>
  {
    if ts == [] then [] else InsertByOrder(ts[0], SortByOrder(ts[1..]))
  }

  /** The sort yields a sorted permutation of its input. */
  lemma {:induction false} SortByOrderSpec(ts: seq<CategoryTree>)
    ensures SortedByOrder(SortByOrder(ts))
    ensures multiset(SortByOrder(ts)) == multiset(ts)
  {
    if ts != [] {
      SortByOrderSpec(ts[1..]);
      InsertByOrderSorted(ts[0], SortByOrder(ts[1..]));
      InsertByOrderCount(ts[0], SortByOrder(ts[1..]));
      assert ts == [ts[0]] + ts[1..];
    }
  }

  /** The trees with a given order value, in their order. */
  function WithKey(ts: seq<CategoryTree>, k: int): seq<CategoryTree>
  {
    Seqs.Filter((t: CategoryTree) => Key(t) == k, ts)
  }

  lemma {:induction false} InsertByOrderStable(t: CategoryTree, ts: seq<CategoryTree>, k: int)
    ensures WithKey(InsertByOrder(t, ts), k) == if Key(t) == k then [t] + WithKey(ts, k) else WithKey(ts, k)
  {
    if ts != [] && Key(t) > Key(ts[0]) {
      InsertByOrderStable(t, ts[1..], k);
      assert ([ts[0]] + InsertByOrder(t, ts[1..]))[1..] == InsertByOrder(t, ts[1..]);
    }
  }

  /** Stability: trees with equal order keep their input order. */
  lemma {:induction false} SortByOrderStable(ts: seq<CategoryTree>, k: int)
    ensures WithKey(SortByOrder(ts), k) == WithKey(ts, k)
  {
    if ts != [] {
      SortByOrderStable(ts[1..], k);
      InsertByOrderStable(ts[0], SortByOrder(ts[1..]), k);
      assert ts == [ts[0]] + ts[1..];
      Seqs.FilterAppend((t: CategoryTree) => Key(t) == k, [ts[0]], ts[1..]);
    }
  }

  /** buildCategoryTree: parentless categories with their children, sorted by `order`. */
  function BuildCategoryTree(cats: seq<Category>): seq<CategoryTree>
  {
    SortByOrder(Attach(cats, Roots(cats)))
  }

  function Roots(cats: seq<Category>): seq<Category>
  {
    Seqs.Filter((c: Category) => !HasParent(c), cats)
  }

  /** The tree has one root per parentless category, sorted by `order` (absent counts as 0), with
      roots of equal order kept in input order. */
  lemma BuildCategoryTreeOrder(cats: seq<Category>, k: int)
    ensures |BuildCategoryTree(cats)| == |Roots(cats)|
    ensures SortedByOrder(BuildCategoryTree(cats))
    ensures WithKey(BuildCategoryTree(cats), k) == WithKey(Attach(cats, Roots(cats)), k)
  {
    SortByOrderSpec(Attach(cats, Roots(cats)));
    SortByOrderStable(Attach(cats, Roots(cats)), k);
    assert |multiset(BuildCategoryTree(cats))| == |multiset(Attach(cats, Roots(cats)))|;
  }

  /** The roots are exactly the parentless categories, each carrying its own children. */
  lemma BuildCategoryTreeRoots(cats: seq<Category>, n: CategoryTree)
    ensures n in BuildCategoryTree(cats) <==>
      n.category in cats && !HasParent(n.category) && n.children == Leaves(ChildrenOf(cats, n.category))
  {
    var roots := Roots(cats);
    var attached := Attach(cats, roots);
    SortByOrderSpec(attached);
    assert n in BuildCategoryTree(cats) <==> n in attached by {
      assert n in BuildCategoryTree(cats) <==> n in multiset(BuildCategoryTree(cats));
      assert n in attached <==> n in multiset(attached);
    }
    if n.category in cats && !HasParent(n.category) {
      Seqs.FilterKeeps((c: Category) => !HasParent(c), cats, n.category);
      var i :| 0 <= i < |roots| && roots[i] == n.category;
      assert attached[i] == Node(n.category, Leaves(ChildrenOf(cats, n.category)));
    }
  }

  /** A root's children are exactly the categories that name it as parent. */
  lemma ChildrenOfSpec(cats: seq<Category>, p: Category, c: Category)
    ensures Node(c, []) in Leaves(ChildrenOf(cats, p)) <==> c in cats && HasParent(c) && ChildOf(c, p)
  {
    var children := ChildrenOf(cats, p);
    if c in cats && HasParent(c) && ChildOf(c, p) {
      Seqs.FilterKeeps(HasParent, cats, c);
      Seqs.FilterKeeps((x: Category) => ChildOf(x, p), Seqs.Filter(HasParent, cats), c);
      var i :| 0 <= i < |children| && children[i] == c;
      assert Leaves(children)[i] == Node(c, []);
    }
    if Node(c, []) in Leaves(children) {
      var i :| 0 <= i < |children| && Leaves(children)[i] == Node(c, []);
      assert c in children;
    }
  }

  /** The tree the page shows holds only active categories, at the root and beneath it. */
  lemma ShownTreeIsActive(all: seq<Category>, n: CategoryTree)
    requires n in BuildCategoryTree(ActiveCategories(all))
    ensures IsActive(n.category) && n.category in all
    ensures forall ch :: ch in n.children ==> ch.children == [] && ch.category in all && IsActive(ch.category)
  {
    var cats := ActiveCategories(all);
    BuildCategoryTreeRoots(cats, n);
    forall ch | ch in n.children
      ensures ch.children == [] && ch.category in all && IsActive(ch.category)
    {
      var kids := ChildrenOf(cats, n.category);
      var i :| 0 <= i < |kids| && Leaves(kids)[i] == ch;
      assert kids[i] in kids;
    }
  }

  // ---------------------------------------------------------------- breadcrumb

  /** findCategory on one tree: the tree's own category, else a search of its children. */
  function FindInTree(t: CategoryTree, slug: string): Option<Category>
    decreases t, 1
  {
    if t.category.slug == slug then Some(t.category) else FindCategory(t.children, slug)
  }

  /** findCategory: the first category with the slug, depth first. */
  function FindCategory(ts: seq<CategoryTree>, slug: string): Option<Category>
    decreases ts, 0
  {
    if ts == [] then None
    else
      var found := FindInTree(ts[0], slug);
      if found.Some? then found else FindCategory(ts[1..], slug)
  }

  /** The categories of a tree in depth-first pre-order. */
  function FlattenTree(t: CategoryTree): seq<Category>
    decreases t, 1
  {
    [t.category] + Flatten(t.children)
  }

  function Flatten(ts: seq<CategoryTree>): seq<Category>
    decreases ts, 0
  {
    if ts == [] then [] else FlattenTree(ts[0]) + Flatten(ts[1..])
  }

  lemma {:induction false} FindInTreeIsFirst(t: CategoryTree, slug: string)
    ensures FindInTree(t, slug) == Seqs.Find((c: Category) => c.slug == slug, FlattenTree(t))
    decreases t, 1
  {
    var p := (c: Category) => c.slug == slug;
    FindCategoryIsFirst(t.children, slug);
    Seqs.FindAppend(p, [t.category], Flatten(t.children));
  }

  /** findCategory returns the first slug match of a depth-first pre-order walk. */
  lemma {:induction false} FindCategoryIsFirst(ts: seq<CategoryTree>, slug: string)
    ensures FindCategory(ts, slug) == Seqs.Find((c: Category) => c.slug == slug, Flatten(ts))
    decreases ts, 0
  {
    if ts != [] {
      FindInTreeIsFirst(ts[0], slug);
      FindCategoryIsFirst(ts[1..], slug);
      Seqs.FindAppend((c: Category) => c.slug == slug, FlattenTree(ts[0]), Flatten(ts[1..]));
    }
  }

  /** getBreadcrumb: nothing without a selection; the matched category's name when it has one;
      otherwise the raw slug. */
  function Breadcrumb(tree: seq<CategoryTree>, selected: string): (r: Option<string>)
    ensures r.None? <==> selected == ""
    ensures r.Some? ==> r.value != ""
    ensures selected != "" && FindCategory(tree, selected).None? ==> r == Some(selected)
    ensures selected != "" && FindCategory(tree, selected).Some? ==>
      var c := FindCategory(tree, selected).value;
      r == Some(if c.name != "" then c.name else selected)
  {
    if selected == "" then None
    else
      var found := FindCategory(tree, selected);
      if found.Some? && found.value.name != "" then Some(found.value.name) else Some(selected)
  }

  /** The breadcrumb names the first category with the selected slug in a depth-first pre-order
      walk of the tree, falling back to the slug when that category has no name. */
  lemma BreadcrumbNamesFirstMatch(tree: seq<CategoryTree>, selected: string, i: int)
    requires selected != ""
    requires 0 <= i < |Flatten(tree)| && Flatten(tree)[i].slug == selected
    requires forall j :: 0 <= j < i ==> Flatten(tree)[j].slug != selected
    ensures var c := Flatten(tree)[i];
      Breadcrumb(tree, selected) == Some(if c.name != "" then c.name else selected)
  {
    var p := (c: Category) => c.slug == selected;
    FindCategoryIsFirst(tree, selected);
    var k := Seqs.IndexOf(p, Flatten(tree));
    assert k == i;
  }

  // ---------------------------------------------------------------- filter state

  /** The filter and page state of the listing. */
  class ProductFilters {
    var selectedCategory: string
    var sortBy: string
    var searchQuery: string
    var minRating: int
    var currentPage: int

    /** Initial state from the URL: `pageParam` is `Number(page)`, 0 when absent or not a number. */
    constructor (categoryParam: string, sortParam: string, searchParam: string, pageParam: int)
      ensures selectedCategory == categoryParam && searchQuery == searchParam && minRating == 0
      ensures sortBy == (if sortParam != "" then sortParam else "newest")
      ensures currentPage == (if pageParam != 0 then pageParam else 1)
    {
      selectedCategory := categoryParam;
      sortBy := if sortParam != "" then sortParam else "newest";
      searchQuery := searchParam;
      minRating := 0;
      currentPage := if pageParam != 0 then pageParam else 1;
    }

    /** The query fetchProducts sends for the current state. */
    function Query(): seq<Param>
      reads this
    {
      ProductQuery(selectedCategory, sortBy, searchQuery, minRating, currentPage)
    }

    /** handleCategoryChange: a new category and back to page 1. */
    method CategoryChange(slug: string)
      modifies this
      ensures selectedCategory == slug && currentPage == 1
      ensures sortBy == old(sortBy) && searchQuery == old(searchQuery) && minRating == old(minRating)
    {
      selectedCategory := slug;
      currentPage := 1;
    }

    /** handleSortChange: a new sort option and back to page 1. */
    method SortChange(value: string)
      modifies this
      ensures sortBy == value && currentPage == 1
      ensures selectedCategory == old(selectedCategory) && searchQuery == old(searchQuery) && minRating == old(minRating)
    {
      sortBy := value;
      currentPage := 1;
    }

    /** The rating radio buttons set the minimum rating and nothing else. */
    method SetMinRating(rating: int)
      modifies this
      ensures minRating == rating
      ensures selectedCategory == old(selectedCategory) && sortBy == old(sortBy)
      ensures searchQuery == old(searchQuery) && currentPage == old(currentPage)
    {
      minRating := rating;
    }

    /** clearFilters: every filter back to its default and page 1. */
    method ClearFilters()
      modifies this
      ensures selectedCategory == "" && sortBy == "newest" && searchQuery == "" && minRating == 0 && currentPage == 1
      ensures Query() == [Param("sort", Text("-createdAt")), Param("page", Number(1)), Param("limit", Number(PageSize))]
    {
      selectedCategory := "";
      sortBy := "newest";
      searchQuery := "";
      minRating := 0;
      currentPage := 1;
    }

    /** The Previous button. */
    method GoPrevious()
      modifies this
      ensures currentPage == PreviousPage(old(currentPage))
      ensures selectedCategory == old(selectedCategory) && sortBy == old(sortBy)
      ensures searchQuery == old(searchQuery) && minRating == old(minRating)
    {
      currentPage := PreviousPage(currentPage);
    }

    /** The Next button. */
    method GoNext(totalPages: int)
      modifies this
      ensures currentPage == NextPage(old(currentPage), totalPages)
      ensures selectedCategory == old(selectedCategory) && sortBy == old(sortBy)
      ensures searchQuery == old(searchQuery) && minRating == old(minRating)
    {
      currentPage := NextPage(currentPage, totalPages);
    }

    /** A numbered page button. */
    method GoToPage(page: int)
      modifies this
      ensures currentPage == page
      ensures selectedCategory == old(selectedCategory) && sortBy == old(sortBy)
      ensures searchQuery == old(searchQuery) && minRating == old(minRating)
    {
      currentPage := page;
    }
  }
}
