/**
 * The cart state of script.js: the shared `cart` array that the add-to-cart,
 * "+", "-", clear and checkout handlers change in place, the browser's
 * localStorage that checkout writes to, and what `updateCart` shows after
 * every change.
 */
module CartEngine {
  import opened Wrappers
  import opened LineItems

  /** The localStorage key checkout saves the cart under. */
  const StorageKey: string := "demoCart"
  /** The page checkout navigates to. */
  const CheckoutPage: string := "checkout.html"
  /** The toast shown when checkout is pressed on an empty cart. */
  const EmptyCartMessage: string := "Your cart is empty."

  /** What pressing checkout leads to: a toast and nothing else, or a redirect. */
  datatype CheckoutOutcome = EmptyCartNotice(message: string) | Redirect(url: string)

  /** One rendered line of the dropdown: name, thumbnail, quantity and `price * qty`. */
  datatype Row = Row(name: string, img: Option<string>, qty: nat, amount: real)

  /** What `updateCart` puts on screen: the lines in cart order, the empty indicator, the total and the badge. */
  datatype View = View(rows: seq<Row>, emptyShown: bool, total: real, badge: nat)

  /** The browser's localStorage, holding the saved cart snapshots by key. */
  class LocalStorage {
    var entries: map<string, seq<LineItem>>

    constructor ()
      ensures entries == map[]
    {
      entries := map[];
    }

    /** `localStorage.setItem(key, value)`: overwrite one key, keep all others. */
    method SetItem(key: string, value: seq<LineItem>)
      modifies this
      ensures entries == old(entries)[key := value]
    {
      entries := entries[key := value];
    }
  }

  /** `cart.find(i => i.name === name)`: the index of the first line called `name`, or -1 when there is none. */
  method Find(items: seq<LineItem>, name: string) returns (k: int)
    ensures -1 <= k < |items|
    ensures k == -1 <==> !HasName(items, name)
    ensures k >= 0 ==> items[k].name == name && forall j :: 0 <= j < k ==> items[j].name != name
  {
    k := 0;
    while k < |items|
      invariant 0 <= k <= |items|
      invariant forall j :: 0 <= j < k ==> items[j].name != name
    {
      if items[k].name == name {
        return;
      }
      k := k + 1;
    }
    k := -1;
  }

  /** The cart: the ordered array of line items, changed in place by the page's handlers. */
  class Cart {
    var items: seq<LineItem>

    /** Names are unique and every quantity is at least one. */
    ghost predicate Valid()
      reads this
    {
      WellFormed(items)
    }

    /** `const cart = []`. */
    constructor ()
      ensures Valid() && items == []
    {
      items := [];
    }

    /** `recalcBadge`: the sum of the quantities. */
    function BadgeCount(): (n: nat)
      reads this
      requires Valid()
      ensures n == Badge(items)
      ensures n == 0 <==> items == []
    {
      BadgeZeroIffEmpty(items);
      Badge(items)
    }

    /** The total of `updateCart`: the sum of `price * qty`. */
    function CartTotal(): (t: real)
      reads this
      ensures items == [] ==> t == 0.0
      ensures PricesNonNegative(items) ==> t >= 0.0
    {
      Total(items)
    }

    /** add-to-cart: bump the line called `name`, or append `{name, price, img, qty: 1}`. */
    method Add(name: string, price: real, img: Option<string>)
      requires Valid()
      modifies this
      ensures Valid()
      ensures items == Added(old(items), name, price, img)
      ensures BadgeCount() == old(BadgeCount()) + 1
      ensures var k := IndexOf(old(items), name);
        CartTotal() == old(CartTotal()) + (if k == -1 then price else old(items)[k].price)
    {
      ghost var before := items;
      AddKeepsWellFormed(before, name, price, img);
      AddSums(before, name, price, img);
      var k := Find(items, name);
      assert k == IndexOf(before, name);
      if k == -1 {
        items := items + [LineItem(name, price, img, 1)];
      } else {
        items := items[k := items[k].(qty := items[k].qty + 1)];
      }
      assert items == Added(before, name, price, img);
    }

    /** The "+" button of line `i`: `item.qty++`. */
    method Increase(i: nat)
      requires Valid() && i < |items|
      modifies this
      ensures Valid()
      ensures items == Increased(old(items), i)
      ensures BadgeCount() == old(BadgeCount()) + 1
      ensures CartTotal() == old(CartTotal()) + old(items[i].price)
    {
      IncreaseKeepsWellFormed(items, i);
      IncreaseSums(items, i);
      items := items[i := items[i].(qty := items[i].qty + 1)];
    }

    /** The "-" button of line `i`: `item.qty--` above one, `cart.splice(index, 1)` at one. */
    method Decrease(i: nat)
      requires Valid() && i < |items|
      modifies this
      ensures Valid()
      ensures items == Decreased(old(items), i)
      ensures BadgeCount() == old(BadgeCount()) - 1
      ensures CartTotal() == old(CartTotal()) - old(items[i].price)
    {
      DecreaseKeepsWellFormed(items, i);
      DecreaseSums(items, i);
      if items[i].qty > 1 {
        items := items[i := items[i].(qty := items[i].qty - 1)];
      } else {
        items := items[..i] + items[i + 1..];
      }
    }

    /** The clear button: `cart.length = 0`. */
    method Clear()
      requires Valid()
      modifies this
      ensures Valid() && items == []
      ensures BadgeCount() == 0 && CartTotal() == 0.0
    {
      items := [];
    }

    /**
     * The checkout button: on an empty cart only the toast, with storage and the
     * cart untouched; otherwise the current lines are saved under `demoCart` and
     * the page moves on to the checkout page.
     */
    method Checkout(store: LocalStorage) returns (outcome: CheckoutOutcome)
      requires Valid()
      modifies store
      ensures items == old(items)
      ensures items == [] ==> outcome == EmptyCartNotice(EmptyCartMessage) && store.entries == old(store.entries)
      ensures items != [] ==> outcome == Redirect(CheckoutPage) && store.entries == old(store.entries)[StorageKey := items]
    {
      if |items| == 0 {
        return EmptyCartNotice(EmptyCartMessage);
      }
      store.SetItem(StorageKey, items);
      outcome := Redirect(CheckoutPage);
    }

    /**
     * `updateCart`: one row per line in cart order with the line's `price * qty`,
     * the empty indicator exactly when the cart is empty, the total and the badge.
     */
    method Render() returns (v: View)
      requires Valid()
      ensures |v.rows| == |items|
      ensures forall j :: 0 <= j < |items| ==>
        v.rows[j] == Row(items[j].name, items[j].img, items[j].qty, LineTotal(items[j]))
      ensures v.emptyShown <==> items == []
      ensures v.total == Total(items) && v.badge == Badge(items)
      ensures v.badge == 0 <==> v.emptyShown
    {
      var rows: seq<Row> := [];
      var j := 0;
      while j < |items|
        invariant 0 <= j <= |items|
        invariant |rows| == j
        invariant forall m :: 0 <= m < j ==>
          rows[m] == Row(items[m].name, items[m].img, items[m].qty, LineTotal(items[m]))
      {
        var item := items[j];
        rows := rows + [Row(item.name, item.img, item.qty, item.price * (item.qty as real))];
        j := j + 1;
      }
      var badge := BadgeCount();
      v := View(rows, |items| == 0, CartTotal(), badge);
    }
  }
}
