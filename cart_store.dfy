/** The page-global cart of the shop script: the in-memory list of line
    items together with the copy last written to the browser's local
    storage, and the operations the pages call on it. */
module Store {
  import opened Wrappers
  import opened JsText
  import opened Cart

  /** How an operation ended. Every outcome but `Done` is reported to the
      user and leaves both the cart and its stored copy as they were. */
  datatype Status =
    | Done
    | InvalidArgument  // a required argument is empty or not a number
    | NotFound         // no entry has the given name
    | Unparsed         // the typed quantity is NaN; the cart is only re-rendered
    | EmptyCart        // checkout was asked for with nothing in the cart
    | FieldMissing     // a checkout input is absent from the page
    | FieldBlank       // a checkout input is empty once trimmed

  /** The four checkout inputs; `None` for an input the page does not have. */
  datatype CheckoutForm = CheckoutForm(
    fullName: Option<string>,
    mobileNumber: Option<string>,
    shippingAddress: Option<string>,
    deliveryTime: Option<string>)

  /** A form value the checkout refuses: nothing left once trimmed. */
  predicate Blank(s: string) {
    Trim(s) == []
  }

  /** The page has all four checkout inputs. */
  predicate AllPresent(form: CheckoutForm) {
    form.fullName.Some? && form.mobileNumber.Some? && form.shippingAddress.Some? && form.deliveryTime.Some?
  }

  /** All four checkout inputs are there and none is blank. */
  predicate AllFilled(form: CheckoutForm) {
    && AllPresent(form)
    && !Blank(form.fullName.value)
    && !Blank(form.mobileNumber.value)
    && !Blank(form.shippingAddress.value)
    && !Blank(form.deliveryTime.value)
  }

  /** What a render shows: nothing (its page lacks the view), the listing
      with its total (and, in the cart view, the empty-cart notice), or an
      integrity failure that aborts the render. */
  datatype View = Skipped | Shown(emptyNotice: bool, total: int) | Failed

  class CartStore {
    /** The cart the page works on. */
    var items: seq<Item>
    /** The cart as last written to local storage. */
    var stored: seq<Item>

    /** The stored copy mirrors the cart. */
    ghost predicate Synced()
      reads this
    {
      stored == items
    }

    /** Page load: the stored cart when there is one, else an empty cart
        that is written back at once. */
    constructor Load(persisted: Option<seq<Item>>)
      ensures Synced()
      ensures items == if persisted.Some? then persisted.value else []
    {
      items := if persisted.Some? then persisted.value else [];
      stored := items;
    }

    /** addToCart: one more unit of `name`, or a new entry for it. */
    method AddToCart(name: string, price: Option<int>, image: string) returns (status: Status)
      modifies this
      ensures status == if AddRejected(name, price, image) then InvalidArgument else Done
      ensures status == Done ==> items == Added(old(items), name, price.value, image) && Synced()
      ensures status != Done ==> items == old(items) && stored == old(stored)
    {
      if AddRejected(name, price, image) {
        return InvalidArgument;
      }
      var existing := FindIndex(items, name);
      if existing.Some? {
        var i := existing.value;
        items := items[i := items[i].(quantity := items[i].quantity + 1)];
      } else {
        items := items + [Item(name, price.value, 1, image)];
      }
      stored := items;
      status := Done;
    }

    /** removeFromCart: drop every entry called `name`. */
    method RemoveFromCart(name: string) returns (status: Status)
      modifies this
      ensures status == if name == [] then InvalidArgument else Done
      ensures status == Done ==> items == Without(old(items), name) && Synced()
      ensures status != Done ==> items == old(items) && stored == old(stored)
    {
      if name == [] {
        return InvalidArgument;
      }
      items := Without(items, name);
      stored := items;
      status := Done;
    }

    /** updateQuantity: parse the typed quantity, then set it on the entry
        called `name`, or remove that entry when the quantity is below 1.
        `raw` is `None` when no quantity was passed. */
    method UpdateQuantity(name: string, raw: Option<string>) returns (status: Status)
      modifies this
      ensures name == [] || raw.None? ==> status == InvalidArgument
      ensures name != [] && raw.Some? && ParseInt(raw.value).None? ==> status == Unparsed
      ensures (name != [] && raw.Some? && ParseInt(raw.value).Some? && FindIndex(old(items), name).None?)
        ==> status == NotFound
      ensures (status == Done)
        <==> (name != [] && raw.Some? && ParseInt(raw.value).Some? && FindIndex(old(items), name).Some?)
      ensures (status == Done && ParseInt(raw.value).value >= 1)
        ==> items == WithQuantity(old(items), name, ParseInt(raw.value).value) && Synced()
      ensures (status == Done && ParseInt(raw.value).value < 1)
        ==> items == Without(old(items), name) && Synced()
      ensures status != Done ==> items == old(items) && stored == old(stored)
    {
      if name == [] || raw.None? {
        return InvalidArgument;
      }
      var q := ParseInt(raw.value);
      if q.None? {
        return Unparsed;
      }
      var found := FindIndex(items, name);
      if found.None? {
        return NotFound;
      }
      if q.value >= 1 {
        var i := found.value;
        items := items[i := items[i].(quantity := q.value)];
        stored := items;
        status := Done;
      } else {
        status := RemoveFromCart(name);
      }
    }

    /** renderCart, reduced to what it computes: `present` says whether the
        page has the cart view. */
    method RenderCart(present: bool) returns (view: View)
      ensures !present ==> view == Skipped
      ensures present ==> (view == Failed <==> !Intact(items))
      ensures present && Intact(items) ==> view == Shown(items == [], Sum(items))
    {
      if !present {
        return Skipped;
      }
      var total := ComputeTotal(items);
      view := if total.None? then Failed else Shown(items == [], total.value);
    }

    /** renderOrderSummary, reduced to what it computes: `present` says
        whether the page has the order-summary view. */
    method RenderOrderSummary(present: bool) returns (view: View)
      ensures !present ==> view == Skipped
      ensures present ==> (view == Failed <==> !Intact(items))
      ensures present && Intact(items) ==> view == Shown(false, Sum(items))
    {
      if !present {
        return Skipped;
      }
      var total := ComputeTotal(items);
      view := if total.None? then Failed else Shown(false, total.value);
    }

    /** completePurchase: refuse an empty cart, a missing input or a blank
        one, in that order; otherwise empty the cart. */
    method CompletePurchase(form: CheckoutForm) returns (status: Status)
      modifies this
      ensures old(items) == [] ==> status == EmptyCart
      ensures old(items) != [] && !AllPresent(form) ==> status == FieldMissing
      ensures old(items) != [] && AllPresent(form) && !AllFilled(form) ==> status == FieldBlank
      ensures status == Done <==> old(items) != [] && AllFilled(form)
      ensures status == Done ==> items == [] && Synced()
      ensures status != Done ==> items == old(items) && stored == old(stored)
    {
      if items == [] {
        return EmptyCart;
      }
      if !AllPresent(form) {
        return FieldMissing;
      }
      if !AllFilled(form) {
        return FieldBlank;
      }
      items := [];
      stored := items;
      status := Done;
    }
  }

  /** A session on an empty cart: a mug added twice, the cart rendered, a
      non-numeric quantity ignored, then the quantity set to 0. */
  method ExampleSession() {
    var store := new CartStore.Load(None);
    var s := store.AddToCart("Mug", Some(999), "mug.png");
    assert store.items == [Item("Mug", 999, 1, "mug.png")];
    s := store.AddToCart("Mug", Some(999), "mug.png");
    assert store.items == [Item("Mug", 999, 2, "mug.png")];
    var view := store.RenderCart(true);
    assert view == Shown(false, 1998);
    ParseIntWithoutDigits("abc");
    s := store.UpdateQuantity("Mug", Some("abc"));
    assert s == Unparsed && store.items == [Item("Mug", 999, 2, "mug.png")];
    ParseIntDecimal(0);
    assert Decimal(0) == "0";
    s := store.UpdateQuantity("Mug", Some("0"));
    assert s == Done && store.items == [] && store.Synced();
    s := store.CompletePurchase(CheckoutForm(Some("A"), Some("1"), Some("x"), Some("now")));
    assert s == EmptyCart;
  }
}
