/**
 * The products page of src/components/Products.js: its component state, the
 * add-to-cart guard and request, the cart fetch, the debounced search and the
 * choice of what the product area shows.
 *
 * HTTP calls are not performed here. A handler that would issue a request
 * returns the request instead, and the request's completion is a separate
 * event carrying a `Response`. Timers are events too: a keystroke arms the
 * debounce timer and `TimerFired` is its expiry. Completions and timer expiries
 * may arrive in any order the caller chooses; the page, like the source, keeps
 * no request numbers and applies every completion as it arrives.
 */
module Products {
  import opened Common
  import opened Cart

  /** JavaScript truthiness of a value read from localStorage: a missing value
      (`null`) and the empty string are both falsy. */
  predicate Truthy(s: Option<string>)
  {
    s.Some? && s.value != ""
  }

  // ---------------------------------------------------------------------------
  // The duplicate guard and the add-to-cart decision

  /** `items.filter(item => item.productId === productId)`, where each item is
      represented by its `productId` property (None when the item has none). */
  function WithProductId(keys: seq<Option<string>>, productId: string): (r: seq<Option<string>>)
    ensures |r| <= |keys|
    ensures forall k :: k in r ==> k == Some(productId)
    ensures |r| > 0 <==> Some(productId) in keys
  {
    if keys == [] then []
    else
      var rest := WithProductId(keys[1..], productId);
      assert keys == [keys[0]] + keys[1..];
      if keys[0] == Some(productId) then [keys[0]] + rest else rest
  }

  /** `isItemInCart(items, productId)`: whether the filter above is non-empty. */
  function IsItemInCart(keys: seq<Option<string>>, productId: string): (r: bool)
    ensures r <==> exists i :: 0 <= i < |keys| && keys[i] == Some(productId)
  {
    |WithProductId(keys, productId)| > 0
  }

  /** The `productId` properties of the server's cart entries. */
  function EntryKeys(entries: seq<CartEntry>): (r: seq<Option<string>>)
    ensures |r| == |entries|
    ensures forall i :: 0 <= i < |entries| ==> r[i] == Some(entries[i].productId)
  {
    seq(|entries|, i requires 0 <= i < |entries| => Some(entries[i].productId))
  }

  /** The `productId` properties of derived cart items: catalog objects carry
      `_id`, not `productId`, so every one is absent. */
  function ProductKeys(items: seq<Product>): (r: seq<Option<string>>)
    ensures |r| == |items|
    ensures forall i :: 0 <= i < |items| ==> r[i] == None
  {
    seq(|items|, i requires 0 <= i < |items| => None)
  }

  const LoginPrompt: string := "Login to add an item to the Cart"
  const AlreadyInCart: string :=
    "Item already in cart. Use the cart sidebar to update quantity or remove item."

  /** The body of `POST /cart`. */
  datatype CartPost = CartPost(productId: string, qty: int)

  /** What `addToCart` does before any response: show a warning, or send one POST. */
  datatype AddToCartStep = Warn(message: string) | Post(body: CartPost)

  /**
   * `addToCart(token, items, products, productId, qty, options)` up to the
   * POST. Without a token it only warns; with one, an item already in `items`
   * only warns; otherwise it posts `{productId, qty}`. The duplicate check runs
   * before `options` is looked at, and both `options` branches send the same
   * body, so `options` has no effect.
   */
  function AddToCart(token: Option<string>, items: seq<Option<string>>, productId: string, qty: int, options: bool)
    : (r: AddToCartStep)
    ensures r == Warn(LoginPrompt) <==> !Truthy(token)
    ensures r == Warn(AlreadyInCart) <==>
      Truthy(token) && exists i :: 0 <= i < |items| && items[i] == Some(productId)
    ensures r.Post? <==> Truthy(token) && forall i :: 0 <= i < |items| ==> items[i] != Some(productId)
    ensures r.Post? ==> r.body == CartPost(productId, qty)
  {
    if !Truthy(token) then Warn(LoginPrompt)
    else if IsItemInCart(items, productId) then Warn(AlreadyInCart)
    else if options then Post(CartPost(productId, qty))
    else Post(CartPost(productId, qty))
  }

  // ---------------------------------------------------------------------------
  // The search URL

  /** The URL `performSearch(text)` requests: the product list for empty text,
      the search endpoint with the text appended verbatim otherwise. */
  function SearchUrl(endpoint: string, text: string): (url: string)
    ensures endpoint + "/products" <= url
  {
    if text == "" then endpoint + "/products"
    else endpoint + "/products" + "/search?value=" + text
  }

  /** Reads the searched text back from a URL built by SearchUrl. */
  function SearchedText(endpoint: string, url: string): Option<string>
  {
    var list := endpoint + "/products";
    var search := list + "/search?value=";
    if url == list then Some("")
    else if search <= url && |url| > |search| then Some(url[|search|..])
    else None
  }

  /** The search URL determines the searched text: SearchedText inverts SearchUrl. */
  lemma SearchUrlRoundTrip(endpoint: string, text: string)
    ensures SearchedText(endpoint, SearchUrl(endpoint, text)) == Some(text)
  {
    var list := endpoint + "/products";
    var search := list + "/search?value=";
    if text != "" {
      var url := SearchUrl(endpoint, text);
      assert url == search + text;
      assert |url| > |list| + 1;
      assert url[|search|..] == text;
    }
  }

  /** Different texts give different URLs. */
  lemma SearchUrlInjective(endpoint: string, a: string, b: string)
    requires SearchUrl(endpoint, a) == SearchUrl(endpoint, b)
    ensures a == b
  {
    SearchUrlRoundTrip(endpoint, a);
    SearchUrlRoundTrip(endpoint, b);
  }

  // ---------------------------------------------------------------------------
  // The debounce

  /** An input to the debounced search: a keystroke with the field's new text,
      or the expiry of the armed timer. */
  datatype SearchEvent = Keystroke(text: string) | TimerFired

  /**
   * The searches a run of events starts, given the text of the armed timer
   * (None when no timer is armed). A keystroke cancels the armed timer and arms
   * a new one for its own text; an expiry searches the armed text, if any, and
   * leaves no timer armed. Returns the searched texts and the final armed text.
   */
  function Debounced(events: seq<SearchEvent>, armed: Option<string>): (seq<string>, Option<string>)
  {
    if events == [] then ([], armed)
    else match events[0]
      case Keystroke(t) => Debounced(events[1..], Some(t))
      case TimerFired =>
        var after := Debounced(events[1..], None);
        (if armed.Some? then [armed.value] + after.0 else after.0, after.1)
  }

  /** The number of keystrokes among the events. */
  function Keystrokes(events: seq<SearchEvent>): nat
  {
    if events == [] then 0
    else (if events[0].Keystroke? then 1 else 0) + Keystrokes(events[1..])
  }

  /** The number of timer expiries among the events. */
  function Expiries(events: seq<SearchEvent>): nat
  {
    if events == [] then 0
    else (if events[0].TimerFired? then 1 else 0) + Expiries(events[1..])
  }

  /** Each search is started by an expiry, and each consumes one arming: there
      are no more searches than expiries, nor than keystrokes (plus the timer
      armed at the start). */
  lemma {:induction false} DebouncedBounds(events: seq<SearchEvent>, armed: Option<string>)
    ensures |Debounced(events, armed).0| <= Expiries(events)
    ensures |Debounced(events, armed).0| <= Keystrokes(events) + (if armed.Some? then 1 else 0)
  {
    if events != [] {
      match events[0]
      case Keystroke(t) => DebouncedBounds(events[1..], Some(t));
      case TimerFired => DebouncedBounds(events[1..], None);
    }
  }

  /** Keystrokes with no expiry between them start nothing, and only the last
      keystroke's text stays armed. */
  lemma {:induction false} DebouncedKeystrokes(texts: seq<string>, events: seq<SearchEvent>, armed: Option<string>)
    requires |texts| > 0 && |events| == |texts|
    requires forall i :: 0 <= i < |texts| ==> events[i] == Keystroke(texts[i])
    ensures Debounced(events, armed) == ([], Some(texts[|texts| - 1]))
  {
    if |texts| > 1 {
      DebouncedKeystrokes(texts[1..], events[1..], Some(texts[0]));
    }
  }

  /** A burst of keystrokes followed by one expiry searches exactly once, for
      the last keystroke's text, and leaves no timer armed. */
  lemma {:induction false} DebouncedBurst(texts: seq<string>, events: seq<SearchEvent>, armed: Option<string>)
    requires |texts| > 0 && |events| == |texts| + 1
    requires forall i :: 0 <= i < |texts| ==> events[i] == Keystroke(texts[i])
    requires events[|texts|] == TimerFired
    ensures Debounced(events, armed) == ([texts[|texts| - 1]], None)
  {
    if |texts| == 1 {
      var tail := events[1..];
      assert events[0] == Keystroke(texts[0]) && tail == [TimerFired] && tail[1..] == [];
      var after := Debounced(tail[1..], None);
      assert after == ([], None);
      assert Debounced(tail, Some(texts[0])).0 == [texts[0]] + after.0 == [texts[0]];
      assert Debounced(tail, Some(texts[0])).1 == None;
    } else {
      DebouncedBurst(texts[1..], events[1..], Some(texts[0]));
    }
  }

  // ---------------------------------------------------------------------------
  // The render choice

  /** What the product area shows. */
  datatype View = Spinner | Grid | NoProductsFound

  /** `loading ? spinner : (searchValid ? grid : "No Products Found")`. */
  function RenderChoice(loading: bool, searchValid: bool): (v: View)
    ensures v == Spinner <==> loading
    ensures v == Grid <==> !loading && searchValid
    ensures v == NoProductsFound <==> !loading && !searchValid
  {
    if loading then Spinner else if searchValid then Grid else NoProductsFound
  }

  // ---------------------------------------------------------------------------
  // The page

  const CartFetchFailed: string :=
    "Could not fetch cart details. Check that the backend is running, reachable and returns valid JSON."

  /** The state of the `Products` component. */
  class ProductsPage {
    /** `config.endpoint`, the prefix of every request URL. */
    const endpoint: string
    /** The catalog, or the last search's results. */
    var products: seq<Product>
    var loading: bool
    var searchValid: bool
    /** The text the armed debounce timer will search; None when no timer is armed. */
    var armedSearch: Option<string>
    /** The server's cart, as the last successful cart response gave it. */
    var cartItems: seq<CartEntry>
    /** The derived cart shown in the sidebar. */
    var updatedCartItems: seq<Product>
    /** Set when the join threw inside the cart effect: the error escapes React's
        effect and the page can no longer render. */
    var crashed: bool

    /** The state on mount, after the cart effect's first run on an empty cart. */
    constructor (endpoint: string)
      ensures this.endpoint == endpoint
      ensures products == [] && loading && searchValid && armedSearch == None
      ensures cartItems == [] && updatedCartItems == [] && !crashed
    {
      this.endpoint := endpoint;
      products, loading, searchValid, armedSearch := [], true, true, None;
      cartItems, updatedCartItems, crashed := [], [], false;
    }

    /** What the product area shows in this state. */
    function CurrentView(): (v: View)
      reads this
      ensures v == Grid ==> !loading && searchValid
    {
      RenderChoice(loading, searchValid)
    }

    /** Completion of the initial `GET /products` (`performAPICall`): success
        stores the catalog and ends loading; failure only marks the search
        invalid, so loading never ends. */
    method ProductsLoaded(outcome: Response<seq<Product>>)
      modifies this
      ensures outcome.Success? ==> products == outcome.data && !loading && searchValid == old(searchValid)
      ensures outcome.Failure? ==> products == old(products) && loading == old(loading) && !searchValid
      ensures armedSearch == old(armedSearch) && cartItems == old(cartItems)
      ensures updatedCartItems == old(updatedCartItems) && crashed == old(crashed)
    {
      if outcome.Success? {
        products := outcome.data;
        loading := false;
      } else {
        searchValid := false;
      }
    }

    /** `debounceSearch`: cancel the armed timer and arm a new one for `text`. */
    method SearchInput(text: string)
      modifies this`armedSearch
      ensures armedSearch == Some(text)
    {
      armedSearch := Some(text);
    }

    /** Expiry of the armed timer: `performSearch` on the armed text. Returns
        the URL requested, or None when no timer was armed. */
    method SearchTimerFired() returns (url: Option<string>)
      modifies this`armedSearch
      ensures old(armedSearch).Some? ==> url == Some(SearchUrl(endpoint, old(armedSearch).value))
      ensures old(armedSearch).None? ==> url == None
      ensures armedSearch == None
    {
      url := if armedSearch.Some? then Some(SearchUrl(endpoint, armedSearch.value)) else None;
      armedSearch := None;
    }

    /** Feeds keystrokes and expiries to the debounce in order, collecting the
        search URLs requested. */
    method RunSearchEvents(events: seq<SearchEvent>) returns (urls: seq<string>)
      modifies this`armedSearch
      ensures var (texts, armed) := Debounced(events, old(armedSearch));
        armedSearch == armed &&
        |urls| == |texts| &&
        forall i :: 0 <= i < |texts| ==> urls[i] == SearchUrl(endpoint, texts[i])
    {
      urls := [];
      ghost var done: seq<string> := [];
      for n := 0 to |events|
        invariant Debounced(events, old(armedSearch)).0 == done + Debounced(events[n..], armedSearch).0
        invariant Debounced(events, old(armedSearch)).1 == Debounced(events[n..], armedSearch).1
        invariant |urls| == |done|
        invariant forall i :: 0 <= i < |done| ==> urls[i] == SearchUrl(endpoint, done[i])
      {
        assert events[n..][1..] == events[n + 1..];
        match events[n]
        case Keystroke(t) =>
          SearchInput(t);
        case TimerFired =>
          var text := armedSearch;
          var url := SearchTimerFired();
          if text.Some? {
            urls := urls + [url.value];
            done := done + [text.value];
          }
      }
    }

    /** Completion of a search request: success shows the results; a 404 (no
        match) clears the products; any other failure keeps them. Every failure
        marks the search invalid. */
    method SearchSettled(outcome: Response<seq<Product>>)
      modifies this
      ensures outcome.Success? ==> products == outcome.data && searchValid
      ensures outcome.Failure? && outcome.status == Some(404) ==> products == [] && !searchValid
      ensures outcome.Failure? && outcome.status != Some(404) ==> products == old(products) && !searchValid
      ensures loading == old(loading) && armedSearch == old(armedSearch) && cartItems == old(cartItems)
      ensures updatedCartItems == old(updatedCartItems) && crashed == old(crashed)
    {
      if outcome.Success? {
        products := outcome.data;
        searchValid := true;
      } else {
        if outcome.status == Some(404) {
          products := [];
        }
        searchValid := false;
      }
    }

    /** The effect that runs whenever `cartItems` changes: join it against the
        current products. A join that throws crashes the page. */
    method CartItemsChanged()
      modifies this, set p | p in products
      ensures products == old(products) && cartItems == old(cartItems)
      ensures loading == old(loading) && searchValid == old(searchValid) && armedSearch == old(armedSearch)
      ensures AllMatched(cartItems, products) ==>
        updatedCartItems == JoinedCart(cartItems, products) && crashed == old(crashed)
      ensures !AllMatched(cartItems, products) ==> updatedCartItems == old(updatedCartItems) && crashed
      ensures var k := FirstUnmatched(cartItems, products);
        forall p :: p in products ==> p.qty == QtyAfterJoin(cartItems[..k], products, p, old(p.qty))
    {
      var r := GenerateCartItemsFrom(cartItems, products);
      if r.Ok? {
        updatedCartItems := r.value;
      } else {
        crashed := true;
      }
    }

    /** `fetchCart(token)` up to the request: no token, no `GET /cart`. */
    method FetchCart(token: Option<string>) returns (requested: bool)
      ensures requested <==> Truthy(token)
    {
      if !Truthy(token) {
        return false;
      }
      requested := true;
    }

    /** Completion of `GET /cart`: success replaces the cart and runs the cart
        effect; a failure leaves the cart and reports the server's message for
        a 400 and a fixed message otherwise. */
    method CartFetched(outcome: Response<seq<CartEntry>>) returns (message: Option<string>)
      modifies this, set p | p in products
      ensures products == old(products)
      ensures loading == old(loading) && searchValid == old(searchValid) && armedSearch == old(armedSearch)
      ensures outcome.Success? ==> cartItems == outcome.data && message == None
      ensures outcome.Success? && AllMatched(outcome.data, products) ==>
        updatedCartItems == JoinedCart(outcome.data, products) && crashed == old(crashed)
      ensures outcome.Success? && !AllMatched(outcome.data, products) ==>
        updatedCartItems == old(updatedCartItems) && crashed
      ensures outcome.Failure? ==>
        cartItems == old(cartItems) && updatedCartItems == old(updatedCartItems) && crashed == old(crashed) &&
        message == Some(if outcome.status == Some(400) then outcome.message else CartFetchFailed)
      ensures outcome.Success? ==> var k := FirstUnmatched(outcome.data, products);
        forall p :: p in products ==> p.qty == QtyAfterJoin(outcome.data[..k], products, p, old(p.qty))
      ensures outcome.Failure? ==> forall p :: p in products ==> p.qty == old(p.qty)
    {
      if outcome.Success? {
        cartItems := outcome.data;
        CartItemsChanged();
        message := None;
      } else if outcome.status == Some(400) {
        message := Some(outcome.message);
      } else {
        message := Some(CartFetchFailed);
      }
    }

    /** The product card's "Add to Cart": `addToCart(token, cartItems, products,
        id, 1, true)`, checked against the server's cart entries. */
    method AddFromCard(token: Option<string>, productId: string) returns (step: AddToCartStep)
      ensures !Truthy(token) ==> step == Warn(LoginPrompt)
      ensures Truthy(token) && (exists i :: 0 <= i < |cartItems| && cartItems[i].productId == productId) ==>
        step == Warn(AlreadyInCart)
      ensures Truthy(token) && (forall i :: 0 <= i < |cartItems| ==> cartItems[i].productId != productId) ==>
        step == Post(CartPost(productId, 1))
    {
      step := AddToCart(token, EntryKeys(cartItems), productId, 1, true);
    }

    /** The cart stepper's + and − buttons: `addToCart(token, items, products,
        id, value ± 1, false)` with the derived cart items. Those items have no
        `productId` property, so the duplicate guard never stops the stepper. */
    method StepQuantity(token: Option<string>, productId: string, value: int, plus: bool)
      returns (step: AddToCartStep)
      ensures !Truthy(token) ==> step == Warn(LoginPrompt)
      ensures Truthy(token) ==> step == Post(CartPost(productId, if plus then value + 1 else value - 1))
    {
      var temp := if plus then value + 1 else value - 1;
      step := AddToCart(token, ProductKeys(updatedCartItems), productId, temp, false);
    }

    /** Completion of `POST /cart`: success replaces the cart wholesale with the
        response and runs the cart effect; a failure is only logged. */
    method CartPosted(outcome: Response<seq<CartEntry>>)
      modifies this, set p | p in products
      ensures products == old(products)
      ensures loading == old(loading) && searchValid == old(searchValid) && armedSearch == old(armedSearch)
      ensures outcome.Success? ==> cartItems == outcome.data
      ensures outcome.Success? && AllMatched(outcome.data, products) ==>
        updatedCartItems == JoinedCart(outcome.data, products) && crashed == old(crashed)
      ensures outcome.Success? && !AllMatched(outcome.data, products) ==>
        updatedCartItems == old(updatedCartItems) && crashed
      ensures outcome.Failure? ==>
        cartItems == old(cartItems) && updatedCartItems == old(updatedCartItems) && crashed == old(crashed)
      ensures outcome.Success? ==> var k := FirstUnmatched(outcome.data, products);
        forall p :: p in products ==> p.qty == QtyAfterJoin(outcome.data[..k], products, p, old(p.qty))
      ensures outcome.Failure? ==> forall p :: p in products ==> p.qty == old(p.qty)
    {
      if outcome.Success? {
        cartItems := outcome.data;
        CartItemsChanged();
      }
    }
  }

  // ---------------------------------------------------------------------------
  // Event traces

  /** Typing "p", "ph", "pho" quickly and letting the timer expire once
      requests one search, for "pho". */
  method TypingBurstSearchesOnce(endpoint: string) returns (urls: seq<string>)
    ensures urls == [SearchUrl(endpoint, "pho")]
  {
    var page := new ProductsPage(endpoint);
    var events := [Keystroke("p"), Keystroke("ph"), Keystroke("pho"), TimerFired];
    DebouncedBurst(["p", "ph", "pho"], events, None);
    urls := page.RunSearchEvents(events);
  }

  /** When the cart response arrives before the catalog, the cart effect joins
      a non-empty cart against an empty product list, and the page crashes. */
  method CartBeforeCatalogCrashes(endpoint: string) returns (crashed: bool)
    ensures crashed
  {
    var page := new ProductsPage(endpoint);
    var cart := [CartEntry("A", 1)];
    assert FirstMatch([], cart[0].productId) == None;
    assert !AllMatched(cart, page.products);
    var _ := page.CartFetched(Success(cart));
    crashed := page.crashed;
  }

  /** Stepping a quantity of 1 down sends quantity 0 for that product. */
  method StepDownToZero(endpoint: string, token: string, productId: string) returns (step: AddToCartStep)
    requires token != ""
    ensures step == Post(CartPost(productId, 0))
  {
    var page := new ProductsPage(endpoint);
    step := page.StepQuantity(Some(token), productId, 1, false);
  }
}
