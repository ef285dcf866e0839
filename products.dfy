/** The products listing page: one request whose outcome goes through a
    `.then/.then/.catch/.finally` chain, and render gating. */
module Products {
  import opened Catalog

  /** The message used when a not-OK reply carries no truthy `message`. */
  const ProductsFailed: string := "Failed to fetch products"

  /** How the single products request ends: an OK reply with its parsed
      list, a not-OK reply whose body may hold a `message`, or a throw (the
      network failed or a body did not parse) carrying the error's message. */
  datatype Reply =
    | Ok(data: seq<Product>)
    | NotOk(bodyMessage: Option<string>)
    | Threw(message: string)

  /** `err.message || "Failed to fetch products"`. */
  function NotOkMessage(message: Option<string>): (m: string)
    ensures m != ""
    ensures Truthy(message) ==> m == message.value
    ensures !Truthy(message) ==> m == ProductsFailed
  {
    if Truthy(message) then message.value else ProductsFailed
  }

  /** A snapshot of the page's three state fields. */
  datatype ProductsState = ProductsState(loading: bool, error: Option<string>, items: seq<Product>)

  /** The state the page mounts with. */
  function Mounted(): ProductsState {
    ProductsState(true, None, [])
  }

  /** One run of the fetch chain from state `s`: an OK reply writes the
      items; a not-OK reply and a throw both reach `.catch`, which writes the
      error's message; `.finally` clears `loading`. */
  function AfterFetch(s: ProductsState, reply: Reply): ProductsState {
    match reply
    case Ok(data) => s.(items := data, loading := false)
    case NotOk(message) => s.(error := Some(NotOkMessage(message)), loading := false)
    case Threw(message) => s.(error := Some(message), loading := false)
  }

  /** What the fetch chain after mounting leaves behind. */
  lemma FetchOutcome(reply: Reply)
    ensures var s := AfterFetch(Mounted(), reply);
      !s.loading &&
      (reply.Ok? ==> s.items == reply.data && s.error == None) &&
      (!reply.Ok? ==> s.items == []) &&
      (reply.NotOk? ==> s.error == Some(NotOkMessage(reply.bodyMessage))) &&
      (reply.Threw? ==> s.error == Some(reply.message))
  {
  }

  /** The three renderings, with the text the first two show. */
  datatype ProductsView =
    | LoadingView(text: string)
    | ErrorView(text: string)
    | ListView(cards: seq<Card>)

  const LoadingText: string := "Loading products..."
  const ErrorPrefix: string := "Error: "

  /** Render gating: loading first, then a truthy error, then the list. */
  function View(s: ProductsState): (v: ProductsView)
    ensures v.LoadingView? <==> s.loading
    ensures v.LoadingView? ==> v.text == LoadingText
    ensures v.ErrorView? <==> !s.loading && Truthy(s.error)
    ensures v.ErrorView? ==> v.text == ErrorPrefix + s.error.value
    ensures v.ListView? ==> v.cards == Cards(s.items)
  {
    if s.loading then LoadingView(LoadingText)
    else if Truthy(s.error) then ErrorView(ErrorPrefix + s.error.value)
    else ListView(Cards(s.items))
  }

  /** A not-OK reply always ends in the error view, showing the body's
      message when it has one and the fixed message otherwise. */
  lemma NotOkShowsError(message: Option<string>)
    ensures View(AfterFetch(Mounted(), NotOk(message))) ==
      ErrorView(ErrorPrefix + (if Truthy(message) then message.value else ProductsFailed))
  {
  }

  /** A throw whose message is empty leaves `error` falsy, so the page then
      shows the (empty) list instead of an error. */
  lemma EmptyThrowShowsEmptyList()
    ensures View(AfterFetch(Mounted(), Threw(""))) == ListView([])
  {
  }

  /** The products page component: its three `useState` fields and the
      handlers of the fetch chain that write them. */
  class ProductsPage {
    var loading: bool
    var error: Option<string>
    var items: seq<Product>

    function State(): ProductsState
      reads this
    {
      ProductsState(loading, error, items)
    }

    constructor ()
      ensures State() == Mounted()
    {
      loading, error, items := true, None, [];
    }

    /** `.then((data) => setItems(data))` after an OK reply. */
    method Succeed(data: seq<Product>)
      modifies this
      ensures State() == old(State()).(items := data)
    {
      items := data;
    }

    /** `.catch((err) => setError(err.message))` */
    method FailThrown(message: string)
      modifies this
      ensures State() == old(State()).(error := Some(message))
    {
      error := Some(message);
    }

    /** A not-OK reply: the first `.then` throws an error built from the
      body's message, which `.catch` then stores. */
    method FailNotOk(message: Option<string>)
      modifies this
      ensures State() == old(State()).(error := Some(NotOkMessage(message)))
      ensures error.value != ""
    {
      FailThrown(NotOkMessage(message));
    }

    /** `.finally(() => setLoading(false))` */
    method Settle()
      modifies this
      ensures State() == old(State()).(loading := false)
    {
      loading := false;
    }

    /** The whole chain for one reply. */
    method Fetch(reply: Reply)
      modifies this
      ensures State() == AfterFetch(old(State()), reply)
    {
      match reply {
        case Ok(data) => Succeed(data);
        case NotOk(message) => FailNotOk(message);
        case Threw(message) => FailThrown(message);
      }
      Settle();
    }
  }
}
