/** The checkout page (src/pages/Cart.jsx): recommendations and the payment callback. */
module CartPage {
  import opened Js
  import opened Collections
  import opened Catalog
  import opened Cart

  /** `!items.find((item) => item.id === song.id)`. */
  function NotInCart(items: seq<Song>): Song -> bool {
    (song: Song) => !HasId(items, song.id)
  }

  /** `songs.filter((song) => !items.find((item) => item.id === song.id)).slice(0, 3)`. */
  function Recommendations(songs: seq<Song>, items: seq<Song>): (r: seq<Song>)
    ensures |r| <= 3
    ensures forall s :: s in r ==> s in songs && !HasId(items, s.id)
    ensures Subsequence(r, songs)
    ensures |r| < 3 ==> forall s :: s in songs && !HasId(items, s.id) ==> s in r
    ensures |r| <= |Filter(songs, NotInCart(items))| && r == Filter(songs, NotInCart(items))[..|r|]
  {
    var eligible := Filter(songs, NotInCart(items));
    FilterIsSubsequence(songs, NotInCart(items));
    var r := Take(eligible, 3);
    PrefixIsSubsequence(r, eligible);
    SubsequenceTransitive(r, eligible, songs);
    assert forall s :: s in r ==> s in eligible;
    r
  }

  /** A prefix is a subsequence. */
  lemma {:induction false} PrefixIsSubsequence<T>(r: seq<T>, s: seq<T>)
    requires |r| <= |s| && r == s[..|r|]
    ensures Subsequence(r, s)
  {
    if r != [] {
      assert r[1..] == s[1..][..|r| - 1];
      PrefixIsSubsequence(r[1..], s[1..]);
    }
  }

  lemma {:induction false} SubsequenceTransitive<T>(a: seq<T>, b: seq<T>, c: seq<T>)
    requires Subsequence(a, b) && Subsequence(b, c)
    ensures Subsequence(a, c)
    decreases |c|
  {
    if a != [] && c != [] {
      if b[0] == c[0] {
        if a[0] == b[0] {
          SubsequenceTransitive(a[1..], b[1..], c[1..]);
        } else {
          SubsequenceTransitive(a, b[1..], c[1..]);
          SubsequenceSkip(a, c);
        }
      } else {
        SubsequenceTransitive(a, b, c[1..]);
        SubsequenceSkip(a, c);
      }
    }
  }

  /** What a payment widget reports on success. */
  datatype Payment = Payment(amount: int, gateway: string, status: string, reference: string, customer: Customer)

  /** The invoice `handlePaymentSuccess` builds: the payment's fields and the cart's current items. */
  function InvoiceFor(payment: Payment, items: seq<Song>): (r: Invoice)
    ensures r.id.None? && r.createdAt.None?
    ensures r.amount == payment.amount && r.gateway == payment.gateway && r.status == payment.status
    ensures r.reference == payment.reference && r.customer == payment.customer
    ensures r.items == items
  {
    Invoice(None, None, payment.amount, payment.gateway, payment.status, payment.reference, payment.customer, items)
  }

  /** The page's own state cell. */
  class CheckoutPage {
    var lastInvoice: Option<Invoice>

    constructor ()
      ensures lastInvoice == None
    {
      lastInvoice := None;
    }

    /** `handlePaymentSuccess`: record the invoice (which empties the cart) and remember it. */
    method HandlePaymentSuccess(cart: CartStore, payment: Payment, now: int, isoNow: string)
      modifies this, cart
      ensures lastInvoice == Some(InvoiceFor(payment, old(cart.items)))
      ensures cart.billingHistory == [Stamped(InvoiceFor(payment, old(cart.items)), now, isoNow)] + old(cart.billingHistory)
      ensures cart.items == [] && cart.Valid()
    {
      var invoice := InvoiceFor(payment, cart.items);
      cart.RecordInvoice(invoice, now, isoNow);
      lastInvoice := Some(invoice);
    }
  }
}
