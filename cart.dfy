/** The cart dialog: per-item quantities, the running total, and the order
    built from the cart. The item list itself belongs to the dialog's owner. */
module Cart {
  import opened Wrappers
  import opened Store
  import ProductPage

  /** A quantity as `parseInt` yields it: a whole number, or NaN for text
      that does not start with a number. */
  datatype Qty = Num(n: int) | NaN

  /** `Math.max(1, q)`: at least 1 for a number, NaN for NaN. */
  function Clamp(q: Qty): (r: Qty)
    ensures r.Num? <==> q.Num?
    ensures q.Num? && q.n >= 1 ==> r == q
    ensures q.Num? && q.n < 1 ==> r == Num(1)
  {
    match q
    case Num(n) => if n >= 1 then q else Num(1)
    case NaN => NaN
  }

  /** Every stored quantity is NaN or at least 1. */
  ghost predicate Clamped(qs: map<int, Qty>) {
    forall id :: id in qs ==> qs[id].NaN? || qs[id].n >= 1
  }

  /** `quantities[id] || 1`, the quantity shown and counted for an id: a
      missing entry, 0 and NaN all read as 1. */
  function Shown(qs: map<int, Qty>, id: int): (r: int)
    ensures r != 0
    ensures r == 1 || (id in qs && qs[id] == Num(r))
    ensures id in qs && qs[id].Num? && qs[id].n != 0 ==> r == qs[id].n
    ensures id !in qs || qs[id].NaN? ==> r == 1
    ensures Clamped(qs) ==> r >= 1
  {
    if id in qs && qs[id].Num? && qs[id].n != 0 then qs[id].n else 1
  }

  /** The initial quantity state: a fold over the items that maps each
      item's id to 1. */
  function InitialQuantities(items: seq<CartItem>): (m: map<int, Qty>)
    ensures m.Keys == set it | it in items :: it.id
    ensures forall id :: id in m ==> m[id] == Num(1)
  {
    if items == [] then map[]
    else
      var n := |items| - 1;
      assert forall it :: it in items <==> it in items[..n] || it == items[n];
      InitialQuantities(items[..n])[items[n].id := Num(1)]
  }

  /** No item of the cart has a negative price. */
  ghost predicate NonNegativePrices(items: seq<CartItem>)
  {
    forall i :: 0 <= i < |items| ==> items[i].price >= 0
  }

  /** The running total: a left fold from 0 that adds each item's price
      times its shown quantity. */
  function Total(items: seq<CartItem>, qs: map<int, Qty>): (r: int)
    ensures items == [] ==> r == 0
  {
    if items == [] then 0
    else
      var n := |items| - 1;
      Total(items[..n], qs) + items[n].price * Shown(qs, items[n].id)
  }

  /** The sum of the items' prices, taken from the front. */
  function PriceSum(items: seq<CartItem>): (r: int)
    ensures NonNegativePrices(items) ==> r >= 0
  {
    if items == [] then 0 else items[0].price + PriceSum(items[1..])
  }

  /** The sum of the prices of the items with the given cart id. */
  function PriceOf(items: seq<CartItem>, id: int): (r: int)
  {
    if items == [] then 0
    else (if items[0].id == id then items[0].price else 0) + PriceOf(items[1..], id)
  }

  /** The total of a cart made of two parts is the sum of their totals. */
  lemma {:induction false} TotalAppend(a: seq<CartItem>, b: seq<CartItem>, qs: map<int, Qty>)
    ensures Total(a + b, qs) == Total(a, qs) + Total(b, qs)
  {
    if b == [] {
      assert a + b == a;
    } else {
      var n := |b| - 1;
      assert (a + b)[..|a + b| - 1] == a + b[..n];
      TotalAppend(a, b[..n], qs);
    }
  }

  /** The total taken from the front: the first item's subtotal plus the rest's total. */
  lemma TotalCons(x: CartItem, rest: seq<CartItem>, qs: map<int, Qty>)
    ensures Total([x] + rest, qs) == x.price * Shown(qs, x.id) + Total(rest, qs)
  {
    TotalAppend([x], rest, qs);
    assert [x][..0] == [];
  }

  /** When every item is counted once, the total is the sum of the prices;
      so it is for the initial quantities. */
  lemma {:induction false} TotalOfSingles(items: seq<CartItem>, qs: map<int, Qty>)
    requires forall i :: 0 <= i < |items| ==> Shown(qs, items[i].id) == 1
    ensures Total(items, qs) == PriceSum(items)
  {
    if items != [] {
      TotalCons(items[0], items[1..], qs);
      assert [items[0]] + items[1..] == items;
      TotalOfSingles(items[1..], qs);
    }
  }

  lemma InitialTotal(items: seq<CartItem>)
    ensures Total(items, InitialQuantities(items)) == PriceSum(items)
  {
    var qs := InitialQuantities(items);
    forall i | 0 <= i < |items| ensures Shown(qs, items[i].id) == 1 {
      assert items[i] in items;
    }
    TotalOfSingles(items, qs);
  }

  /** A non-negative price times a quantity of at least 1 is at least the
      price. */
  lemma ScaledAtLeast(price: int, q: int)
    requires price >= 0 && q >= 1
    ensures price * q >= price
  {
    assert price * q - price == price * (q - 1);
  }

  /** With stored quantities of at least 1 and no negative price, the total is
      never below the plain sum of the prices. */
  lemma {:induction false} TotalAtLeastPriceSum(items: seq<CartItem>, qs: map<int, Qty>)
    requires Clamped(qs) && NonNegativePrices(items)
    ensures Total(items, qs) >= PriceSum(items) >= 0
  {
    if items != [] {
      TotalCons(items[0], items[1..], qs);
      assert [items[0]] + items[1..] == items;
      TotalAtLeastPriceSum(items[1..], qs);
      ScaledAtLeast(items[0].price, Shown(qs, items[0].id));
    }
  }

  /** Setting one id's quantity to k moves the total by (k minus what was
      shown) for every unit of price carried by items with that id. */
  lemma {:induction false} TotalAfterChange(items: seq<CartItem>, qs: map<int, Qty>, id: int, k: int)
    requires k != 0
    ensures Total(items, qs[id := Num(k)]) == Total(items, qs) + (k - Shown(qs, id)) * PriceOf(items, id)
  {
    if items != [] {
      TotalAfterChange(items[1..], qs, id, k);
      ChangedHead(items, qs, id, k);
    }
  }

  /** The step of `TotalAfterChange`: the first item adds its own share to
      what the rest of the cart moves. */
  lemma ChangedHead(items: seq<CartItem>, qs: map<int, Qty>, id: int, k: int)
    requires items != [] && k != 0
    requires Total(items[1..], qs[id := Num(k)]) == Total(items[1..], qs) + (k - Shown(qs, id)) * PriceOf(items[1..], id)
    ensures Total(items, qs[id := Num(k)]) == Total(items, qs) + (k - Shown(qs, id)) * PriceOf(items, id)
  {
    var rest, qs' := items[1..], qs[id := Num(k)];
    TotalCons(items[0], rest, qs);
    TotalCons(items[0], rest, qs');
    assert [items[0]] + rest == items;
    if items[0].id == id {
      assert Shown(qs', id) == k;
      assert PriceOf(items, id) == items[0].price + PriceOf(rest, id);
      ChangedFirstLine(items[0].price, Shown(qs, id), k, PriceOf(rest, id));
    } else {
      assert Shown(qs', items[0].id) == Shown(qs, items[0].id);
      assert PriceOf(items, id) == PriceOf(rest, id);
    }
  }

  /** The arithmetic of one changed line: a line of price p moving from s to
      k pairs adds (k - s) * p to what the rest already moves. */
  lemma ChangedFirstLine(p: int, s: int, k: int, rest: int)
    ensures p * k + (k - s) * rest == p * s + (k - s) * (p + rest)
  {
    assert p * k == p * s + p * (k - s);
    assert (k - s) * (p + rest) == (k - s) * p + (k - s) * rest;
  }

  /** A NaN quantity counts exactly as a missing one. */
  lemma {:induction false} NaNCountsAsMissing(items: seq<CartItem>, qs: map<int, Qty>, id: int)
    ensures Total(items, qs[id := NaN]) == Total(items, qs - {id})
  {
    if items != [] {
      var n := |items| - 1;
      NaNCountsAsMissing(items[..n], qs, id);
      assert Shown(qs[id := NaN], items[n].id) == Shown(qs - {id}, items[n].id);
    }
  }

  /** One line of the order for a cart item; the quantity is looked up under
      the item's backend id, with the same default of 1. */
  function LineFor(item: CartItem, qs: map<int, Qty>): (r: OrderLine)
    ensures r.shoe == item.backendId && r.variant == item.variantId && r.size == item.selectedSize
    ensures r.quantity != 0 && (Clamped(qs) ==> r.quantity >= 1)
    ensures item.backendId !in qs ==> r.quantity == 1
  {
    OrderLine(item.backendId, item.variantId, item.selectedSize, Shown(qs, item.backendId))
  }

  /** `items.map(item => ...)`: one line per cart item, in cart order. */
  function OrderLines(items: seq<CartItem>, qs: map<int, Qty>): (r: seq<OrderLine>)
    ensures |r| == |items|
    ensures forall i :: 0 <= i < |items| ==> r[i] == LineFor(items[i], qs)
  {
    if items == [] then [] else [LineFor(items[0], qs)] + OrderLines(items[1..], qs)
  }

  /** The sum of price times ordered quantity over the lines of an order. */
  function LinesTotal(items: seq<CartItem>, lines: seq<OrderLine>): (r: int)
    requires |items| == |lines|
  {
    if items == [] then 0 else items[0].price * lines[0].quantity + LinesTotal(items[1..], lines[1..])
  }

  /** When every item's cart id is its backend id, each line orders the
      quantity the dialog shows, and the lines add up to the order's total. */
  lemma {:induction false} LinesAgreeWithTotal(items: seq<CartItem>, qs: map<int, Qty>)
    requires forall i :: 0 <= i < |items| ==> items[i].id == items[i].backendId
    ensures forall i :: 0 <= i < |items| ==> OrderLines(items, qs)[i].quantity == Shown(qs, items[i].id)
    ensures LinesTotal(items, OrderLines(items, qs)) == Total(items, qs)
  {
    if items != [] {
      var lines := OrderLines(items, qs);
      LinesAgreeWithTotal(items[1..], qs);
      assert lines[1..] == OrderLines(items[1..], qs);
      assert lines[0].quantity == Shown(qs, items[0].id);
      TotalCons(items[0], items[1..], qs);
      assert [items[0]] + items[1..] == items;
      assert LinesTotal(items, lines) == items[0].price * lines[0].quantity + LinesTotal(items[1..], lines[1..]);
    }
  }

  /** An item whose cart id differs from its backend id: its quantity is
      stored under the cart id but the order line looks it up under the
      backend id, so the dialog shows and charges 2 pairs and orders 1. */
  lemma KeyMismatchOrdersDefault()
    ensures var item := CartItem(7, "Runner", 5000, "", [], 3, "Black", "9", Some(1), "img");
            var qs := map[7 := Num(2)];
            && Shown(qs, item.id) == 2
            && Total([item], qs) == 10000
            && OrderLines([item], qs) == [OrderLine(3, Some(1), "9", 1)]
  {
  }

  /** The customer fields of the cart's order form; `address` has no input. */
  datatype CustomerForm = CustomerForm(name: string, email: string, address: string, phone: string)

  /** The order posted from the cart. */
  function CartOrder(form: CustomerForm, items: seq<CartItem>, qs: map<int, Qty>): (r: OrderRequest)
    ensures r.clientName == form.name && r.email == form.email && r.phone == form.phone
    ensures r.total == Total(items, qs) && |r.items| == |items|
    ensures r.items == OrderLines(items, qs)
    ensures forall i :: 0 <= i < |items| ==>
      && r.items[i].shoe == items[i].backendId
      && r.items[i].variant == items[i].variantId
      && r.items[i].size == items[i].selectedSize
      && r.items[i].quantity == Shown(qs, items[i].backendId)
  {
    OrderRequest(form.name, form.email, form.phone, Total(items, qs), OrderLines(items, qs))
  }

  /** Buying one product with "Buy Now" posts the same order as adding it to
      an empty cart and checking out with the quantity left at its default. */
  lemma BuyNowIsSingleItemCheckout(p: Product, form: ProductPage.OrderForm, color: string, size: string, image: string)
    ensures var item := ProductPage.CartItemFor(p, color, size, image);
            CartOrder(CustomerForm(form.name, form.email, form.address, form.phone), [item], InitialQuantities([item]))
              == ProductPage.BuyNowOrder(p, form, color, size)
  {
    var item := ProductPage.CartItemFor(p, color, size, image);
    var qs := InitialQuantities([item]);
    assert [item][..0] == [];
    assert Shown(qs, item.backendId) == 1 by {
      assert item in [item];
    }
    assert Total([item], qs) == p.price;
    assert OrderLines([item], qs) == [LineFor(item, qs)];
  }

  /** The functions the cart dialog calls on its owner after a successful order. */
  datatype Callback = OrderComplete | Close

  /** The state of the cart dialog. */
  class CartModal {
    var items: seq<CartItem>
    var quantities: map<int, Qty>
    var formData: CustomerForm
    var isSubmitting: bool
    var submitError: string

    /** Stored quantities are clamped, and no error is shown while a
        submission is in flight. */
    ghost predicate Valid()
      reads this
    {
      && Clamped(quantities)
      && (isSubmitting ==> submitError == "")
    }

    /** The dialog as first rendered with the owner's items: each item's id
        starts at quantity 1. */
    constructor (items: seq<CartItem>)
      ensures Valid()
      ensures this.items == items && quantities == InitialQuantities(items)
      ensures formData == CustomerForm("", "", "", "")
      ensures !isSubmitting && submitError == ""
    {
      this.items := items;
      quantities := InitialQuantities(items);
      formData := CustomerForm("", "", "", "");
      isSubmitting, submitError := false, "";
    }

    /** The owner re-renders the dialog with a changed item list (an item
        added or removed). The quantity state is only initialised on the
        first render, so it is kept: an item whose id has no entry reads as
        quantity 1, and an id already in the map keeps its stored quantity. */
    method ReceiveItems(newItems: seq<CartItem>)
      requires Valid()
      modifies this`items
      ensures Valid()
      ensures items == newItems
    {
      items := newItems;
    }

    /** The quantity input for an item (`quantities[item.id] || 1`). */
    method DisplayedQuantity(id: int) returns (q: int)
      requires Valid()
      ensures q >= 1
      ensures q == Shown(quantities, id)
      ensures id in quantities && quantities[id].Num? ==> q == quantities[id].n
      ensures id !in quantities || quantities[id].NaN? ==> q == 1
    {
      q := Shown(quantities, id);
    }

    /** The total shown under the items. */
    method DisplayedTotal() returns (t: int)
      requires Valid()
      ensures t == Total(items, quantities)
      ensures NonNegativePrices(items) ==> t >= PriceSum(items) >= 0
    {
      t := Total(items, quantities);
      if forall i :: 0 <= i < |items| ==> items[i].price >= 0 {
        TotalAtLeastPriceSum(items, quantities);
      }
    }

    /** A quantity input change, `parseInt` of the typed text: stored as
        `Math.max(1, q)` under that id; every other id keeps its quantity. */
    method ChangeQuantity(id: int, q: Qty)
      requires Valid()
      modifies this`quantities
      ensures Valid()
      ensures quantities == old(quantities)[id := Clamp(q)]
      ensures q.Num? ==> Shown(quantities, id) == if q.n >= 1 then q.n else 1
      ensures q.NaN? ==> Shown(quantities, id) == 1
    {
      quantities := quantities[id := Clamp(q)];
    }

    /** Typing in the name field. */
    method EditName(name: string)
      requires Valid()
      modifies this`formData
      ensures Valid()
      ensures formData == old(formData).(name := name)
    {
      formData := formData.(name := name);
    }

    /** Typing in the email field. */
    method EditEmail(email: string)
      requires Valid()
      modifies this`formData
      ensures Valid()
      ensures formData == old(formData).(email := email)
    {
      formData := formData.(email := email);
    }

    /** Typing in the phone field. */
    method EditPhone(phone: string)
      requires Valid()
      modifies this`formData
      ensures Valid()
      ensures formData == old(formData).(phone := phone)
    {
      formData := formData.(phone := phone);
    }

    /** Submitting the cart's order form, up to the request: the flags enter
        the submitting state and the order that is posted is returned. */
    method BeginSubmit() returns (order: OrderRequest)
      requires Valid()
      modifies this`isSubmitting, this`submitError
      ensures Valid()
      ensures isSubmitting && submitError == ""
      ensures order == CartOrder(formData, items, quantities)
    {
      isSubmitting := true;
      submitError := "";
      order := CartOrder(formData, items, quantities);
    }

    /** The order request completing. Success calls the owner's
        `onOrderComplete` and then `onClose`; failure shows the retry
        message; either way the submission is over. */
    method FinishSubmit(outcome: OrderOutcome) returns (calls: seq<Callback>)
      requires Valid()
      modifies this`isSubmitting, this`submitError
      ensures Valid()
      ensures !isSubmitting
      ensures outcome.Accepted? ==> calls == [OrderComplete, Close] && submitError == old(submitError)
      ensures outcome.Rejected? ==> calls == [] && submitError == RetryMessage
    {
      isSubmitting := false;
      match outcome
      case Accepted(_) =>
        calls := [OrderComplete, Close];
      case Rejected =>
        calls := [];
        submitError := RetryMessage;
    }
  }
}
