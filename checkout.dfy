/** The checkout page: which modal is open, which product is selected, and
    how a submitted passenger form becomes a cart item. */
module Checkout {
  import opened Wrappers
  import opened Booking
  import opened Store
  import opened Pricing

  /** The page's state: its three state variables and the store's cart. */
  datatype PageState = PageState(
    modalVisible: bool,
    cartSummaryVisible: bool,
    selectedProduct: Option<Product>,
    cart: seq<CartItem>)

  /** The user actions, one per handler. */
  datatype Event =
    | ShowModal(product: Product)
    | CloseModal
    | ShowCartSummary
    | CloseCartSummary
    | FormSubmit(values: Passenger)

  /** The page as first rendered: both modals closed, nothing selected, empty cart. */
  const Initial := PageState(false, false, None, [])

  /** The effect of one handler on the page state. */
  function Step(s: PageState, e: Event): (t: PageState)
    // Only a submit with a product selected changes the cart, and it appends
    // exactly the item built from the selection and the form values.
    ensures e.FormSubmit? && s.selectedProduct.Some? ==>
              t.cart == s.cart + [CartItem(s.selectedProduct.value, e.values)]
    ensures t.cart != s.cart ==> e.FormSubmit? && s.selectedProduct.Some?
    // Only showing the modal changes the selection; nothing clears it.
    ensures e.ShowModal? ==> t.selectedProduct == Some(e.product)
    ensures t.selectedProduct != s.selectedProduct ==> e.ShowModal?
    ensures s.selectedProduct.Some? ==> t.selectedProduct.Some?
    // The product modal opens on ShowModal and closes on cancel and on submit.
    ensures e.ShowModal? ==> t.modalVisible
    ensures e.CloseModal? || e.FormSubmit? ==> !t.modalVisible
    ensures t.modalVisible != s.modalVisible ==> e.ShowModal? || e.CloseModal? || e.FormSubmit?
    // The summary opens and closes whatever the cart holds.
    ensures e.ShowCartSummary? ==> t.cartSummaryVisible
    ensures e.CloseCartSummary? ==> !t.cartSummaryVisible
    ensures t.cartSummaryVisible != s.cartSummaryVisible ==> e.ShowCartSummary? || e.CloseCartSummary?
  {
    match e
    case ShowModal(p) => s.(selectedProduct := Some(p), modalVisible := true)
    case CloseModal => s.(modalVisible := false)
    case ShowCartSummary => s.(cartSummaryVisible := true)
    case CloseCartSummary => s.(cartSummaryVisible := false)
    case FormSubmit(v) =>
      var cart := if s.selectedProduct.Some? then s.cart + [CartItem(s.selectedProduct.value, v)] else s.cart;
      s.(cart := cart, modalVisible := false)
  }

  /** The page state after the handlers for `events` ran, in order, from `s`. */
  function Run(s: PageState, events: seq<Event>): PageState
    decreases |events|
  {
    if events == [] then s else Run(Step(s, events[0]), events[1..])
  }

  /** The number of form submissions among `events`. */
  function Submissions(events: seq<Event>): nat
  {
    if events == [] then 0 else (if events[0].FormSubmit? then 1 else 0) + Submissions(events[1..])
  }

  /** Running handlers twice in a row is running them once on the combined list. */
  lemma {:induction false} RunConcat(s: PageState, a: seq<Event>, b: seq<Event>)
    ensures Run(s, a + b) == Run(Run(s, a), b)
    decreases |a|
  {
    if a != [] {
      assert (a + b)[0] == a[0];
      assert (a + b)[1..] == a[1..] + b;
      RunConcat(Step(s, a[0]), a[1..], b);
    } else {
      assert a + b == b;
    }
  }

  /** The cart is append-only across any run of the handlers. */
  lemma {:induction false} RunAppendOnly(s: PageState, events: seq<Event>)
    ensures s.cart <= Run(s, events).cart
    decreases |events|
  {
    if events != [] {
      RunAppendOnly(Step(s, events[0]), events[1..]);
    }
  }

  /** Once a product was selected some product stays selected, whatever follows. */
  lemma {:induction false} RunKeepsSomeSelection(s: PageState, events: seq<Event>)
    requires s.selectedProduct.Some?
    ensures Run(s, events).selectedProduct.Some?
    decreases |events|
  {
    if events != [] {
      RunKeepsSomeSelection(Step(s, events[0]), events[1..]);
    }
  }

  /** Without a ShowModal, submitting and closing leave the selection as it was. */
  lemma {:induction false} RunWithoutShowKeepsSelection(s: PageState, events: seq<Event>)
    requires forall i :: 0 <= i < |events| ==> !events[i].ShowModal?
    ensures Run(s, events).selectedProduct == s.selectedProduct
    decreases |events|
  {
    if events != [] {
      assert !events[0].ShowModal?;
      RunWithoutShowKeepsSelection(Step(s, events[0]), events[1..]);
    }
  }

  /** The selection is the product of the last ShowModal, however many submits
      and closes followed it. */
  lemma SelectionFromLastShow(s: PageState, a: seq<Event>, p: Product, b: seq<Event>)
    requires forall i :: 0 <= i < |b| ==> !b[i].ShowModal?
    ensures Run(s, a + [ShowModal(p)] + b).selectedProduct == Some(p)
  {
    RunConcat(s, a + [ShowModal(p)], b);
    RunConcat(s, a, [ShowModal(p)]);
    RunWithoutShowKeepsSelection(Run(s, a + [ShowModal(p)]), b);
  }

  /** With a product selected, every submission adds exactly one cart item. */
  lemma {:induction false} RunCartGrowsBySubmissions(s: PageState, events: seq<Event>)
    requires s.selectedProduct.Some?
    ensures |Run(s, events).cart| == |s.cart| + Submissions(events)
    decreases |events|
  {
    if events != [] {
      RunCartGrowsBySubmissions(Step(s, events[0]), events[1..]);
    }
  }

  /** No run adds more items than it has submissions. */
  lemma {:induction false} RunCartBoundedBySubmissions(s: PageState, events: seq<Event>)
    ensures |Run(s, events).cart| <= |s.cart| + Submissions(events)
    decreases |events|
  {
    if events != [] {
      RunCartBoundedBySubmissions(Step(s, events[0]), events[1..]);
    }
  }

  /** With a product selected, the total grows by one ticket per submission. */
  lemma RunTotalPrice(s: PageState, events: seq<Event>)
    requires s.selectedProduct.Some?
    ensures TotalPrice(Run(s, events).cart) == TotalPrice(s.cart) + TicketPrice * Submissions(events)
  {
    RunCartGrowsBySubmissions(s, events);
  }

  /** Submitting before any product was ever chosen adds nothing to the cart. */
  lemma {:induction false} SubmitWithoutSelection(s: PageState, events: seq<Event>)
    requires s.selectedProduct == None
    requires forall i :: 0 <= i < |events| ==> !events[i].ShowModal?
    ensures Run(s, events).cart == s.cart
    decreases |events|
  {
    if events != [] {
      assert !events[0].ShowModal?;
      SubmitWithoutSelection(Step(s, events[0]), events[1..]);
    }
  }

  /** The handlers other than the submit are idempotent. */
  lemma HandlersIdempotent(s: PageState, e: Event)
    requires !e.FormSubmit?
    ensures Step(Step(s, e), e) == Step(s, e)
  {
  }

  /** The summary can be opened on an empty cart, and then shows a zero total. */
  lemma SummaryOpensOnEmptyCart()
    ensures Run(Initial, [ShowCartSummary]).cartSummaryVisible
    ensures Run(Initial, [ShowCartSummary]).cart == []
    ensures TotalPrice(Run(Initial, [ShowCartSummary]).cart) == 0
  {
  }

  /** Selecting a product and submitting the form books one ticket. */
  lemma SingleBooking(p: Product, v: Passenger)
    ensures Run(Initial, [ShowModal(p), FormSubmit(v)]).cart == [CartItem(p, v)]
    ensures !Run(Initial, [ShowModal(p), FormSubmit(v)]).modalVisible
    ensures TotalPrice(Run(Initial, [ShowModal(p), FormSubmit(v)]).cart) == 1200
  {
    var evs := [ShowModal(p), FormSubmit(v)];
    RunConcat(Initial, [ShowModal(p)], [FormSubmit(v)]);
    assert evs == [ShowModal(p)] + [FormSubmit(v)];
    assert Run(Initial, [ShowModal(p)]) == Run(Step(Initial, ShowModal(p)), []);
    var s1 := Step(Initial, ShowModal(p));
    assert Run(s1, [FormSubmit(v)]) == Run(Step(s1, FormSubmit(v)), []);
  }

  /** Booking the same product twice gives two separate items and twice the price. */
  lemma SameProductTwice(p: Product, v: Passenger, w: Passenger)
    ensures Run(Initial, [ShowModal(p), FormSubmit(v), ShowModal(p), FormSubmit(w)]).cart
            == [CartItem(p, v), CartItem(p, w)]
    ensures TotalPrice(Run(Initial, [ShowModal(p), FormSubmit(v), ShowModal(p), FormSubmit(w)]).cart) == 2400
  {
    var once := [ShowModal(p), FormSubmit(v)];
    var again := [ShowModal(p), FormSubmit(w)];
    assert once + again == [ShowModal(p), FormSubmit(v), ShowModal(p), FormSubmit(w)];
    SingleBooking(p, v);
    RunConcat(Initial, once, again);
    var s2 := Run(Initial, once);
    RunConcat(s2, [ShowModal(p)], [FormSubmit(w)]);
    assert again == [ShowModal(p)] + [FormSubmit(w)];
    assert Run(s2, [ShowModal(p)]) == Run(Step(s2, ShowModal(p)), []);
    var s3 := Step(s2, ShowModal(p));
    assert Run(s3, [FormSubmit(w)]) == Run(Step(s3, FormSubmit(w)), []);
  }

  /** The page component: its state variables and the store it created. */
  class Home {
    var modalVisible: bool
    var cartSummaryVisible: bool
    var selectedProduct: Option<Product>
    const cartStore: CartStore

    /** The page's state as a value. */
    function State(): PageState
      reads this, cartStore
    {
      PageState(modalVisible, cartSummaryVisible, selectedProduct, cartStore.cart)
    }

    /** First render: both modals hidden, no selection, a fresh empty store. */
    constructor ()
      ensures fresh(cartStore)
      ensures State() == Initial
    {
      modalVisible := false;
      cartSummaryVisible := false;
      selectedProduct := None;
      cartStore := new CartStore();
    }

    /** "Add to Cart" on a product card: select it and open the passenger form. */
    method ShowModal(product: Product)
      modifies this
      ensures selectedProduct == Some(product) && modalVisible
      ensures cartSummaryVisible == old(cartSummaryVisible)
      ensures cartStore.cart == old(cartStore.cart)
      ensures State() == Step(old(State()), Event.ShowModal(product))
    {
      selectedProduct := Some(product);
      modalVisible := true;
    }

    /** Cancel on the passenger form: hide it, keep everything else. */
    method CloseModal()
      modifies this
      ensures !modalVisible
      ensures cartSummaryVisible == old(cartSummaryVisible)
      ensures selectedProduct == old(selectedProduct)
      ensures cartStore.cart == old(cartStore.cart)
      ensures State() == Step(old(State()), Event.CloseModal)
    {
      modalVisible := false;
    }

    /** "View Cart Summary": open the summary, whatever the cart holds. */
    method ShowCartSummary()
      modifies this
      ensures cartSummaryVisible
      ensures modalVisible == old(modalVisible)
      ensures selectedProduct == old(selectedProduct)
      ensures cartStore.cart == old(cartStore.cart)
      ensures State() == Step(old(State()), Event.ShowCartSummary)
    {
      cartSummaryVisible := true;
    }

    /** OK or cancel on the summary: hide it. */
    method CloseCartSummary()
      modifies this
      ensures !cartSummaryVisible
      ensures modalVisible == old(modalVisible)
      ensures selectedProduct == old(selectedProduct)
      ensures cartStore.cart == old(cartStore.cart)
      ensures State() == Step(old(State()), Event.CloseCartSummary)
    {
      cartSummaryVisible := false;
    }

    /** The form's finish handler: add the booking if a product is selected,
        then close the passenger form. */
    method HandleFormSubmit(values: Passenger)
      modifies this, cartStore
      ensures old(selectedProduct).Some? ==>
                cartStore.cart == old(cartStore.cart) + [CartItem(old(selectedProduct).value, values)]
      ensures old(selectedProduct).None? ==> cartStore.cart == old(cartStore.cart)
      ensures !modalVisible
      ensures cartSummaryVisible == old(cartSummaryVisible)
      ensures selectedProduct == old(selectedProduct)
      ensures State() == Step(old(State()), Event.FormSubmit(values))
    {
      if selectedProduct.Some? {
        cartStore.AddCartItem(CartItem(selectedProduct.value, values));
      }
      CloseModal();
    }

    /** The total shown in the summary: one ticket price per cart item. */
    function CalculateTotalPrice(): (total: nat)
      reads this, cartStore
      ensures total == SumOfItemPrices(cartStore.cart)
      ensures cartStore.cart == [] ==> total == 0
    {
      TotalPriceIsSumOfItemPrices(cartStore.cart);
      TotalPrice(cartStore.cart)
    }
  }
}
