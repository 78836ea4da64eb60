/** The cart store (src/context/CartContext.jsx): the items in the cart, the billing history,
    and the running total. Cart items are song objects; prices are in cents. */
module Cart {
  import opened Js
  import opened Collections
  import opened Catalog

  datatype Customer = Customer(name: string, email: string)

  /** An invoice. `id` and `createdAt` are missing until `recordInvoice` stamps them. */
  datatype Invoice = Invoice(
    id: Option<string>, createdAt: Option<string>,
    amount: int, gateway: string, status: string, reference: string, customer: Customer,
    items: seq<Song>)

  /** `item.price || 0`. */
  function PriceOrZero(item: Song): int {
    item.price.GetOr(0)
  }

  /** `items.reduce((sum, item) => sum + (item.price || 0), 0)`. */
  function Total(items: seq<Song>): (r: int)
    ensures items == [] ==> r == 0
    ensures |items| == 1 ==> r == PriceOrZero(items[0])
    ensures (forall i :: 0 <= i < |items| ==> PriceOrZero(items[i]) >= 0) ==> r >= 0
  {
    if items == [] then 0 else PriceOrZero(items[0]) + Total(items[1..])
  }

  lemma {:induction false} TotalAppend(a: seq<Song>, b: seq<Song>)
    ensures Total(a + b) == Total(a) + Total(b)
  {
    if a == [] {
      assert a + b == b;
    } else {
      assert (a + b)[1..] == a[1..] + b;
      TotalAppend(a[1..], b);
    }
  }

  /** Adding an item adds its price, or nothing when it has none. */
  lemma TotalOfAppended(items: seq<Song>, item: Song)
    ensures Total(items + [item]) == Total(items) + (if item.price.Some? then item.price.value else 0)
  {
    TotalAppend(items, [item]);
  }

  function IdOf(item: Song): Option<Scalar> {
    item.id
  }

  /** No two items in the cart share an id. */
  ghost predicate UniqueIds(items: seq<Song>) {
    DistinctKeys(items, IdOf)
  }

  /** `items.find((item) => item.id === id)` finds something. */
  predicate HasId(items: seq<Song>, id: Option<Scalar>) {
    exists k :: 0 <= k < |items| && items[k].id == id
  }

  function ItemIdIsNot(id: Option<Scalar>): Song -> bool {
    (item: Song) => item.id != id
  }

  function ItemIdIs(id: Option<Scalar>): Song -> bool {
    (item: Song) => item.id == id
  }

  function InvoiceIdIsNot(id: Option<string>): Invoice -> bool {
    (invoice: Invoice) => invoice.id != id
  }

  /** The cart's total is the total of the items kept plus that of the items removed. */
  lemma {:induction false} TotalSplitsById(items: seq<Song>, id: Option<Scalar>)
    ensures Total(items) == Total(Filter(items, ItemIdIsNot(id))) + Total(Filter(items, ItemIdIs(id)))
  {
    if items != [] {
      TotalSplitsById(items[1..], id);
      var head := [items[0]];
      assert Filter(items, ItemIdIsNot(id)) == (if items[0].id != id then head else []) + Filter(items[1..], ItemIdIsNot(id));
      assert Filter(items, ItemIdIs(id)) == (if items[0].id == id then head else []) + Filter(items[1..], ItemIdIs(id));
      TotalAppend(if items[0].id != id then head else [], Filter(items[1..], ItemIdIsNot(id)));
      TotalAppend(if items[0].id == id then head else [], Filter(items[1..], ItemIdIs(id)));
    }
  }

  /** With ids unique, exactly one item carries the id of item `k`. */
  lemma {:induction false} OnlyOneWithId(items: seq<Song>, k: nat)
    requires UniqueIds(items) && k < |items|
    ensures Filter(items, ItemIdIs(items[k].id)) == [items[k]]
  {
    var id := items[k].id;
    assert UniqueIds(items[1..]) by {
      forall i, j | 0 <= i < j < |items[1..]| ensures IdOf(items[1..][i]) != IdOf(items[1..][j]) {
        assert items[1..][i] == items[i + 1] && items[1..][j] == items[j + 1];
      }
    }
    if k == 0 {
      forall i | 0 <= i < |items[1..]| ensures !ItemIdIs(id)(items[1..][i]) {
        assert items[1..][i] == items[i + 1];
        assert IdOf(items[0]) != IdOf(items[i + 1]);
      }
      FilterKeepsNone(items[1..], ItemIdIs(id));
    } else {
      assert IdOf(items[0]) != IdOf(items[k]);
      assert items[1..][k - 1] == items[k];
      OnlyOneWithId(items[1..], k - 1);
    }
  }

  /** With ids unique, removing an id takes exactly that item's price off the total. */
  lemma TotalAfterRemove(items: seq<Song>, k: nat)
    requires UniqueIds(items) && k < |items|
    ensures Total(Filter(items, ItemIdIsNot(items[k].id))) == Total(items) - PriceOrZero(items[k])
  {
    TotalSplitsById(items, items[k].id);
    OnlyOneWithId(items, k);
  }

  /** `recordInvoice`'s new entry: `{ id: `inv_${Date.now()}`, createdAt: new Date().toISOString(), ...invoice }`. */
  function Stamped(invoice: Invoice, now: int, isoNow: string): (r: Invoice)
    ensures r.id == (if invoice.id.Some? then invoice.id else Some("inv_" + DecimalString(now)))
    ensures r.createdAt == (if invoice.createdAt.Some? then invoice.createdAt else Some(isoNow))
    ensures r.(id := invoice.id, createdAt := invoice.createdAt) == invoice
  {
    invoice.(id := Some("inv_" + DecimalString(now)).OverriddenBy(invoice.id),
             createdAt := Some(isoNow).OverriddenBy(invoice.createdAt))
  }

  /** The two state cells of `CartProvider`. */
  class CartStore {
    var items: seq<Song>
    var billingHistory: seq<Invoice>

    ghost predicate Valid()
      reads this
    {
      UniqueIds(items)
    }

    constructor ()
      ensures Valid() && items == [] && billingHistory == []
    {
      items := [];
      billingHistory := [];
    }

    /** `total`. */
    function TotalPrice(): (r: int)
      reads this
      ensures r == Total(items)
    {
      Total(items)
    }

    /** `addItem`: an item whose id is already in the cart changes nothing; a new one goes last. */
    method AddItem(item: Song)
      requires Valid()
      modifies this`items
      ensures Valid()
      ensures HasId(old(items), item.id) ==> items == old(items)
      ensures !HasId(old(items), item.id) ==> items == old(items) + [item]
    {
      if !HasId(items, item.id) {
        var next := items + [item];
        forall i, j | 0 <= i < j < |next| ensures IdOf(next[i]) != IdOf(next[j]) {
          if j < |items| {
            assert next[i] == items[i] && next[j] == items[j];
          } else {
            assert next[i] == items[i];
          }
        }
        items := next;
      }
    }

    /** `removeItem`: the items with that id go; the others stay, in order. */
    method RemoveItem(id: Option<Scalar>)
      requires Valid()
      modifies this`items
      ensures Valid()
      ensures items == Filter(old(items), ItemIdIsNot(id))
      ensures !HasId(items, id)
    {
      FilterKeepsDistinctKeys(items, ItemIdIsNot(id), IdOf);
      items := Filter(items, ItemIdIsNot(id));
      assert forall k :: 0 <= k < |items| ==> items[k] in items;
    }

    /** `clearCart`. */
    method ClearCart()
      modifies this`items
      ensures Valid() && items == []
    {
      items := [];
    }

    /** `recordInvoice`: the stamped invoice goes first and the cart is emptied. `now` and
        `isoNow` are the clock's readings. */
    method RecordInvoice(invoice: Invoice, now: int, isoNow: string)
      modifies this
      ensures Valid()
      ensures billingHistory == [Stamped(invoice, now, isoNow)] + old(billingHistory)
      ensures items == []
    {
      billingHistory := [Stamped(invoice, now, isoNow)] + billingHistory;
      ClearCart();
    }

    /** `removeInvoice`: the items are not touched. */
    method RemoveInvoice(id: Option<string>)
      modifies this`billingHistory
      ensures billingHistory == Filter(old(billingHistory), InvoiceIdIsNot(id))
      ensures forall invoice :: invoice in billingHistory ==> invoice.id != id
    {
      billingHistory := Filter(billingHistory, InvoiceIdIsNot(id));
    }
  }
}
