/** The home page: two product derivations (featured, latest), the
    sequential categories-then-products fetch cycle, and render gating. */
module Home {
  import opened Catalog

  /** How many products each home-page section shows. */
  const FeaturedCount: nat := 4
  const LatestCount: nat := 4

  /** The message stored for any failure during the fetch cycle. */
  const FetchFailed: string := "Failed to fetch data"

  function Min(a: nat, b: nat): nat {
    if a <= b then a else b
  }

  // ---------------------------------------------------------------------
  // Derivations

  /** `products.slice(0, 4)`: the first four products in their own order. */
  function Featured(products: seq<Product>): (r: seq<Product>)
    ensures |r| == Min(FeaturedCount, |products|)
    ensures forall i :: 0 <= i < |r| ==> r[i] == products[i]
    ensures |products| <= FeaturedCount ==> r == products
  {
    products[..Min(FeaturedCount, |products|)]
  }

  /** Most recent first: no product is newer than one placed before it. */
  predicate SortedByRecency(s: seq<Product>) {
    forall i, j :: 0 <= i < j < |s| ==> s[i].creationAt >= s[j].creationAt
  }

  /** Places `x` before the first product of `t` that is not newer than it,
      so that `x` stays ahead of products with the same timestamp. */
  function Insert(x: Product, t: seq<Product>): (r: seq<Product>)
    ensures |r| == |t| + 1
    ensures multiset(r) == multiset(t) + multiset{x}
  {
    if t == [] || t[0].creationAt <= x.creationAt then [x] + t
    else
      assert t == [t[0]] + t[1..];
      [t[0]] + Insert(x, t[1..])
  }

  /** No product in `s` is newer than timestamp `bound`. */
  predicate NotNewerThan(s: seq<Product>, bound: int) {
    forall i :: 0 <= i < |s| ==> s[i].creationAt <= bound
  }

  lemma {:induction false} InsertKeepsBound(x: Product, t: seq<Product>, bound: int)
    requires NotNewerThan(t, bound) && x.creationAt <= bound
    ensures NotNewerThan(Insert(x, t), bound)
  {
    if t != [] && t[0].creationAt > x.creationAt {
      InsertKeepsBound(x, t[1..], bound);
    }
  }

  /** Inserting into a newest-first list keeps it newest first. */
  lemma {:induction false} InsertKeepsSorted(x: Product, t: seq<Product>)
    requires SortedByRecency(t)
    ensures SortedByRecency(Insert(x, t))
  {
    if t != [] && t[0].creationAt > x.creationAt {
      var rest := Insert(x, t[1..]);
      InsertKeepsSorted(x, t[1..]);
      InsertKeepsBound(x, t[1..], t[0].creationAt);
      var r := [t[0]] + rest;
      forall i, j | 0 <= i < j < |r| ensures r[i].creationAt >= r[j].creationAt {
        assert r[j] == rest[j - 1];
        if i > 0 {
          assert r[i] == rest[i - 1];
        }
      }
    }
  }

  /** The copy `[...products].sort((a, b) => b.creationAt - a.creationAt)`:
      the same products, newest first. */
  function SortByRecency(products: seq<Product>): (r: seq<Product>)
    ensures |r| == |products|
    ensures multiset(r) == multiset(products)
    ensures SortedByRecency(r)
  {
    if products == [] then []
    else
      assert products == [products[0]] + products[1..];
      var rest := SortByRecency(products[1..]);
      InsertKeepsSorted(products[0], rest);
      Insert(products[0], rest)
  }

  /** The products of `s` whose timestamp is `t`, in their order in `s`. */
  function WithTimestamp(s: seq<Product>, t: int): seq<Product> {
    if s == [] then []
    else (if s[0].creationAt == t then [s[0]] else []) + WithTimestamp(s[1..], t)
  }

  /** Inserting `x` never moves it past a product with its own timestamp. */
  lemma {:induction false} InsertKeepsTies(x: Product, t: seq<Product>, key: int)
    ensures WithTimestamp(Insert(x, t), key) == WithTimestamp([x] + t, key)
  {
    if t != [] && t[0].creationAt > x.creationAt {
      InsertKeepsTies(x, t[1..], key);
      assert ([t[0]] + Insert(x, t[1..]))[1..] == Insert(x, t[1..]);
      assert ([x] + t)[1..] == t;
      assert ([x] + t[1..])[1..] == t[1..];
    }
  }

  /** The sort is stable, as `Array.prototype.sort` is: products with equal
      timestamps keep their input order. */
  lemma {:induction false} SortIsStable(products: seq<Product>, key: int)
    ensures WithTimestamp(SortByRecency(products), key) == WithTimestamp(products, key)
  {
    if products != [] {
      SortIsStable(products[1..], key);
      InsertKeepsTies(products[0], SortByRecency(products[1..]), key);
      assert ([products[0]] + SortByRecency(products[1..]))[1..] == SortByRecency(products[1..]);
    }
  }

  /** A prefix draws on the sequence's own elements and no more of them. */
  lemma PrefixIsSubMultiset(s: seq<Product>, k: nat)
    requires k <= |s|
    ensures multiset(s[..k]) + multiset(s[k..]) == multiset(s)
  {
    assert s == s[..k] + s[k..];
  }

  /** The sorted copy cut to its first four: the latest products. */
  function Latest(products: seq<Product>): (r: seq<Product>)
    ensures |r| == Min(LatestCount, |products|)
    ensures SortedByRecency(r)
    ensures r == SortByRecency(products)[..|r|]
    ensures multiset(r) <= multiset(products)
  {
    var sorted := SortByRecency(products);
    PrefixIsSubMultiset(sorted, Min(LatestCount, |products|));
    sorted[..Min(LatestCount, |products|)]
  }

  /** In a newest-first list, nothing after position `k` is newer than
      anything before it. */
  lemma SortedSplit(s: seq<Product>, k: nat)
    requires SortedByRecency(s) && k <= |s|
    ensures forall x, y :: x in s[k..] && y in s[..k] ==> x.creationAt <= y.creationAt
  {
    forall x, y | x in s[k..] && y in s[..k] ensures x.creationAt <= y.creationAt {
      var j :| 0 <= j < |s| - k && s[k..][j] == x;
      var i :| 0 <= i < k && s[..k][i] == y;
      assert s[i] == y && s[k + j] == x;
    }
  }

  /** No product left out of `latest` is newer than one shown in it. */
  lemma LatestAreMostRecent(products: seq<Product>)
    ensures forall x, y ::
              x in multiset(products) - multiset(Latest(products)) && y in Latest(products) ==>
                x.creationAt <= y.creationAt
  {
    var sorted := SortByRecency(products);
    var k := |Latest(products)|;
    PrefixIsSubMultiset(sorted, k);
    SortedSplit(sorted, k);
    forall x: Product | x in multiset(products) - multiset(Latest(products)) ensures x in sorted[k..] {
      assert x in multiset(sorted[k..]);
    }
  }

  /** Sorting products that are already newest first leaves them as they
      are: the sort only ever moves a product past a strictly newer one, so
      equal timestamps keep their input order. */
  lemma {:induction false} SortKeepsSortedInput(products: seq<Product>)
    requires SortedByRecency(products)
    ensures SortByRecency(products) == products
  {
    if products != [] {
      var rest := products[1..];
      assert SortedByRecency(rest);
      SortKeepsSortedInput(rest);
    }
  }

  /** When the products arrive newest first, the two sections coincide. */
  lemma LatestOfSortedIsFeatured(products: seq<Product>)
    requires SortedByRecency(products)
    ensures Latest(products) == Featured(products)
  {
    SortKeepsSortedInput(products);
  }

  // ---------------------------------------------------------------------
  // Fetch lifecycle

  /** The result of one awaited request: the parsed body, or a throw. */
  datatype Step<T> = Received(data: T) | Threw

  /** A snapshot of the page's four state fields. */
  datatype HomeState = HomeState(
    loading: bool,
    error: Option<string>,
    products: seq<Product>,
    categories: seq<Category>)

  /** The state the page mounts with. */
  function Mounted(): HomeState {
    HomeState(true, None, [], [])
  }

  /** One run of `fetchData` from state `s`: categories first, then
      products; any throw records the fixed message; `loading` is cleared at
      the end whatever happened. The products request is never made when the
      categories request throws, so `prod` is then ignored. */
  function AfterFetch(s: HomeState, cat: Step<seq<Category>>, prod: Step<seq<Product>>): HomeState {
    match cat
    case Threw => s.(error := Some(FetchFailed), loading := false)
    case Received(cs) =>
      match prod
      case Threw => s.(categories := cs, error := Some(FetchFailed), loading := false)
      case Received(ps) => s.(categories := cs, products := ps, loading := false)
  }

  /** What a run of `fetchData` after mounting leaves behind. */
  lemma FetchCycleOutcome(cat: Step<seq<Category>>, prod: Step<seq<Product>>)
    ensures !AfterFetch(Mounted(), cat, prod).loading
    ensures var s := AfterFetch(Mounted(), cat, prod);
      (s.error == None <==> cat.Received? && prod.Received?) &&
      (s.error != None ==> s.error == Some(FetchFailed)) &&
      (cat.Received? && prod.Received? ==> s.categories == cat.data && s.products == prod.data) &&
      (cat.Received? && prod.Threw? ==> s.categories == cat.data && s.products == []) &&
      (cat.Threw? ==> s.categories == [] && s.products == [])
  {
  }

  /** The three renderings; the data view shows cards for both derivations. */
  datatype HomeView =
    | LoadingView
    | ErrorView(message: string)
    | DataView(featured: seq<Card>, categories: seq<Category>, latest: seq<Card>)

  /** Render gating: loading first, then a truthy error, then the data. */
  function View(s: HomeState): (v: HomeView)
    ensures v.LoadingView? <==> s.loading
    ensures v.ErrorView? <==> !s.loading && Truthy(s.error)
    ensures v.ErrorView? ==> v.message == s.error.value
    ensures v.DataView? ==>
      v.featured == Cards(Featured(s.products)) &&
      v.latest == Cards(Latest(s.products)) &&
      v.categories == s.categories
  {
    if s.loading then LoadingView
    else if Truthy(s.error) then ErrorView(s.error.value)
    else DataView(Cards(Featured(s.products)), s.categories, Cards(Latest(s.products)))
  }

  /** The page shows the loading view, then exactly one of the error view
      (after any throw) or the data view (after both requests succeed). */
  lemma ViewsOfOneCycle(cat: Step<seq<Category>>, prod: Step<seq<Product>>)
    ensures View(Mounted()) == LoadingView
    ensures var v := View(AfterFetch(Mounted(), cat, prod));
      (v == ErrorView(FetchFailed) <==> cat.Threw? || prod.Threw?) &&
      (v.DataView? <==> cat.Received? && prod.Received?)
  {
  }

  /** The home page component: its four `useState` fields and the steps of
      `fetchData` that write them. */
  class HomePage {
    var loading: bool
    var error: Option<string>
    var products: seq<Product>
    var categories: seq<Category>

    function State(): HomeState
      reads this
    {
      HomeState(loading, error, products, categories)
    }

    constructor ()
      ensures State() == Mounted()
    {
      loading, error, products, categories := true, None, [], [];
    }

    /** `setCategories(catData)` */
    method ReceiveCategories(data: seq<Category>)
      modifies this
      ensures State() == old(State()).(categories := data)
    {
      categories := data;
    }

    /** `setProducts(prodData)` */
    method ReceiveProducts(data: seq<Product>)
      modifies this
      ensures State() == old(State()).(products := data)
    {
      products := data;
    }

    /** The `catch`: a request threw. */
    method FailThrown()
      modifies this
      ensures State() == old(State()).(error := Some(FetchFailed))
    {
      error := Some(FetchFailed);
    }

    /** The `finally`. */
    method Settle()
      modifies this
      ensures State() == old(State()).(loading := false)
    {
      loading := false;
    }

    /** `fetchData`: the awaited steps in order inside try/catch/finally. */
    method FetchData(cat: Step<seq<Category>>, prod: Step<seq<Product>>)
      modifies this
      ensures State() == AfterFetch(old(State()), cat, prod)
    {
      match cat {
        case Threw =>
          FailThrown();
        case Received(cs) =>
          ReceiveCategories(cs);
          match prod {
            case Threw =>
              FailThrown();
            case Received(ps) =>
              ReceiveProducts(ps);
          }
      }
      Settle();
    }
  }
}
