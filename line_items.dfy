/**
 * The cart array of script.js as a value: an ordered sequence of line items
 * `{name, price, img, qty}`, the two reductions computed from it (badge and
 * total), and the effect of each cart operation on the sequence.
 */
module LineItems {
  import opened Wrappers

  /** One entry of the cart array. `img` is the thumbnail's `src`, absent when the menu item has no image. */
  datatype LineItem = LineItem(name: string, price: real, img: Option<string>, qty: nat)

  /** No two line items share a name. */
  ghost predicate NamesUnique(items: seq<LineItem>)
  {
    forall i, j :: 0 <= i < j < |items| ==> items[i].name != items[j].name
  }

  /** No line item has a quantity below one. */
  ghost predicate QtyPositive(items: seq<LineItem>)
  {
    forall i :: 0 <= i < |items| ==> items[i].qty >= 1
  }

  /** No line item has a negative price. */
  ghost predicate PricesNonNegative(items: seq<LineItem>)
  {
    forall i :: 0 <= i < |items| ==> items[i].price >= 0.0
  }

  /** The invariant every cart operation keeps. */
  ghost predicate WellFormed(items: seq<LineItem>)
  {
    NamesUnique(items) && QtyPositive(items)
  }

  /** True when some line item is called `name`. */
  ghost predicate HasName(items: seq<LineItem>, name: string)
  {
    exists i :: 0 <= i < |items| && items[i].name == name
  }

  /** The badge: `cart.reduce((s, i) => s + i.qty, 0)`, a left fold. */
  function Badge(items: seq<LineItem>): nat
  {
    if items == [] then 0 else Badge(items[..|items| - 1]) + items[|items| - 1].qty
  }

  /** What one line contributes to the total: `i.price * i.qty`. */
  function LineTotal(x: LineItem): (r: real)
    ensures x.price >= 0.0 ==> r >= 0.0
  {
    x.price * (x.qty as real)
  }

  /** The total: `cart.reduce((sum, i) => sum + i.price * i.qty, 0)`, a left fold. Prices of at least 0 give a total of at least 0. */
  function Total(items: seq<LineItem>): (t: real)
    ensures PricesNonNegative(items) ==> t >= 0.0
  {
    if items == [] then 0.0 else Total(items[..|items| - 1]) + LineTotal(items[|items| - 1])
  }

  /** `cart.find(i => i.name === name)` as an index: the first line item called `name`, or -1. */
  function IndexOf(items: seq<LineItem>, name: string): (k: int)
    ensures -1 <= k < |items|
    ensures k == -1 <==> !HasName(items, name)
    ensures k >= 0 ==> items[k].name == name && forall j :: 0 <= j < k ==> items[j].name != name
  {
    if items == [] then -1
    else if items[0].name == name then 0
    else
      var k := IndexOf(items[1..], name);
      assert forall j :: 0 < j < |items| ==> items[j] == items[1..][j - 1];
      if k == -1 then -1 else k + 1
  }

  /** The cart after add-to-cart: bump the quantity of the line item called `name`, or append a new one. */
  function Added(items: seq<LineItem>, name: string, price: real, img: Option<string>): (r: seq<LineItem>)
    ensures |items| <= |r| <= |items| + 1
    ensures forall j :: 0 <= j < |items| ==> r[j].name == items[j].name && r[j].price == items[j].price
    ensures |r| == |items| + 1 ==> r[|items|] == LineItem(name, price, img, 1)
  {
    var k := IndexOf(items, name);
    if k == -1 then items + [LineItem(name, price, img, 1)]
    else items[k := items[k].(qty := items[k].qty + 1)]
  }

  /** The cart after the "+" button of line `i`. */
  function Increased(items: seq<LineItem>, i: nat): (r: seq<LineItem>)
    requires i < |items|
    ensures |r| == |items|
    ensures forall j :: 0 <= j < |items| ==> r[j].name == items[j].name && r[j].qty >= items[j].qty
  {
    items[i := items[i].(qty := items[i].qty + 1)]
  }

  /** The cart after the "-" button of line `i`: decrement, or splice the line out at quantity one. */
  function Decreased(items: seq<LineItem>, i: nat): (r: seq<LineItem>)
    requires i < |items|
    ensures |r| == if items[i].qty > 1 then |items| else |items| - 1
    ensures forall j :: 0 <= j < i ==> r[j] == items[j]
  {
    if items[i].qty > 1 then items[i := items[i].(qty := items[i].qty - 1)]
    else items[..i] + items[i + 1..]
  }

  /** `n` add-to-cart clicks on the same menu item. */
  function AddedTimes(items: seq<LineItem>, name: string, price: real, img: Option<string>, n: nat): seq<LineItem>
  {
    if n == 0 then items else Added(AddedTimes(items, name, price, img, n - 1), name, price, img)
  }

  /**
   * `n` clicks of the "-" button in row `i` of the dropdown. Every click re-renders,
   * so a line keeps its row while its quantity falls; once it is spliced out, the
   * line after it moves up into row `i` and further clicks there decrease that one.
   * When the cart has no row `i` left, a click has nothing to act on.
   */
  function DecreasedTimes(items: seq<LineItem>, i: nat, n: nat): seq<LineItem>
  {
    if n == 0 then items
    else
      var r := DecreasedTimes(items, i, n - 1);
      if i < |r| then Decreased(r, i) else r
  }

  lemma {:induction false} DecreasedTimesStep(items: seq<LineItem>, i: nat, n: nat)
    requires i < |items| && n < items[i].qty
    ensures DecreasedTimes(items, i, n) == items[i := items[i].(qty := items[i].qty - n)]
  {
    if n > 0 {
      DecreasedTimesStep(items, i, n - 1);
    }
  }

  // ---------------------------------------------------------------------------
  // The reductions

  /** Both reductions distribute over concatenation. */
  lemma {:induction false} SumsOfConcat(a: seq<LineItem>, b: seq<LineItem>)
    ensures Badge(a + b) == Badge(a) + Badge(b)
    ensures Total(a + b) == Total(a) + Total(b)
  {
    if b == [] {
      assert a + b == a;
    } else {
      var b' := b[..|b| - 1];
      assert (a + b)[..|a + b| - 1] == a + b';
      SumsOfConcat(a, b');
    }
  }

  /** The reductions of a single line item. */
  lemma SumsOfSingle(x: LineItem)
    ensures Badge([x]) == x.qty && Total([x]) == LineTotal(x)
  {
    assert [x][..0] == [];
  }

  /** One more or one fewer unit of a line moves its share of the total by its price. */
  lemma LineTotalStep(x: LineItem, q: nat)
    requires q == x.qty + 1 || q + 1 == x.qty
    ensures LineTotal(x.(qty := q)) == LineTotal(x) + (if q == x.qty + 1 then x.price else -x.price)
  {
  }

  /** The reductions of a cart with line `x` between `a` and `b`. */
  lemma SumsOfSplit(a: seq<LineItem>, x: LineItem, b: seq<LineItem>)
    ensures Badge(a + [x] + b) == Badge(a) + x.qty + Badge(b)
    ensures Total(a + [x] + b) == Total(a) + LineTotal(x) + Total(b)
  {
    SumsOfConcat(a + [x], b);
    SumsOfConcat(a, [x]);
    SumsOfSingle(x);
  }

  /** Replacing line `i` changes the badge and the total by exactly that line's difference. */
  lemma SumsOfUpdate(items: seq<LineItem>, i: nat, x: LineItem)
    requires i < |items|
    ensures Badge(items[i := x]) == Badge(items) - items[i].qty + x.qty
    ensures Total(items[i := x]) == Total(items) - LineTotal(items[i]) + LineTotal(x)
  {
    SplitAt(items, i);
    SplitAt(items[i := x], i);
    assert items[i := x][..i] == items[..i] && items[i := x][i + 1..] == items[i + 1..];
    SumsOfSplit(items[..i], items[i], items[i + 1..]);
    SumsOfSplit(items[..i], x, items[i + 1..]);
  }

  /** Removing line `i` takes exactly that line's share out of the badge and the total. */
  lemma SumsOfRemove(items: seq<LineItem>, i: nat)
    requires i < |items|
    ensures Badge(items[..i] + items[i + 1..]) == Badge(items) - items[i].qty
    ensures Total(items[..i] + items[i + 1..]) == Total(items) - LineTotal(items[i])
  {
    SplitAt(items, i);
    SumsWithoutLine(items[..i], items[i], items[i + 1..]);
  }

  /** A cart is the lines before `i`, line `i`, and the lines after it. */
  lemma SplitAt(items: seq<LineItem>, i: nat)
    requires i < |items|
    ensures items == items[..i] + [items[i]] + items[i + 1..]
  {
  }

  /** Taking `x` out from between `a` and `b` subtracts exactly its share. */
  lemma SumsWithoutLine(a: seq<LineItem>, x: LineItem, b: seq<LineItem>)
    ensures Badge(a + b) == Badge(a + [x] + b) - x.qty
    ensures Total(a + b) == Total(a + [x] + b) - LineTotal(x)
  {
    SumsOfSplit(a, x, b);
    SumsOfConcat(a, b);
  }

  /** The badge is positive exactly when the (well-formed) cart is non-empty. */
  lemma {:induction false} BadgeZeroIffEmpty(items: seq<LineItem>)
    requires QtyPositive(items)
    ensures Badge(items) == 0 <==> items == []
    ensures Badge(items) >= |items|
  {
    if items != [] {
      BadgeZeroIffEmpty(items[..|items| - 1]);
    }
  }

  // ---------------------------------------------------------------------------
  // add-to-cart

  /** A name already in the cart: that line's quantity goes up by one; length, order and every other line stay. */
  lemma AddExisting(items: seq<LineItem>, name: string, price: real, img: Option<string>, k: nat)
    requires k < |items| && items[k].name == name && NamesUnique(items)
    ensures var r := Added(items, name, price, img);
      && |r| == |items|
      && r[k] == items[k].(qty := items[k].qty + 1)
      && forall j :: 0 <= j < |items| && j != k ==> r[j] == items[j]
  {
    assert IndexOf(items, name) == k;
  }

  /** A new name: the line `{name, price, img, qty: 1}` is appended at the end. */
  lemma AddNew(items: seq<LineItem>, name: string, price: real, img: Option<string>)
    requires !HasName(items, name)
    ensures Added(items, name, price, img) == items + [LineItem(name, price, img, 1)]
  {
  }

  /** add-to-cart keeps names unique and quantities positive. */
  lemma AddKeepsWellFormed(items: seq<LineItem>, name: string, price: real, img: Option<string>)
    requires WellFormed(items)
    ensures WellFormed(Added(items, name, price, img))
  {
  }

  /** add-to-cart raises the badge by one and the total by the price of the line it touched. */
  lemma AddSums(items: seq<LineItem>, name: string, price: real, img: Option<string>)
    ensures Badge(Added(items, name, price, img)) == Badge(items) + 1
    ensures var k := IndexOf(items, name);
      Total(Added(items, name, price, img)) == Total(items) + (if k == -1 then price else items[k].price)
  {
    var k := IndexOf(items, name);
    if k == -1 {
      AppendSums(items, LineItem(name, price, img, 1));
    } else {
      IncreaseSums(items, k);
    }
  }

  /** Appending a line adds exactly its quantity to the badge and its `price * qty` to the total. */
  lemma AppendSums(items: seq<LineItem>, x: LineItem)
    ensures Badge(items + [x]) == Badge(items) + x.qty
    ensures Total(items + [x]) == Total(items) + LineTotal(x)
  {
    SumsOfConcat(items, [x]);
    SumsOfSingle(x);
  }

  /** A line appended under a name the cart lacks is found at the end. */
  lemma {:induction false} IndexOfAppended(items: seq<LineItem>, x: LineItem)
    requires !HasName(items, x.name)
    ensures IndexOf(items + [x], x.name) == |items|
  {
    if items != [] {
      assert (items + [x])[1..] == items[1..] + [x];
      assert !HasName(items[1..], x.name) by {
        forall j | 0 <= j < |items[1..]| ensures items[1..][j].name != x.name {
          assert items[1..][j] == items[j + 1];
        }
      }
      IndexOfAppended(items[1..], x);
    }
  }

  /** Adding a name the cart lacks `n` times leaves it with one line of that name, of quantity `n`, at the end. */
  lemma {:induction false} AddedTimesAbsent(items: seq<LineItem>, name: string, price: real, img: Option<string>, n: nat)
    requires n >= 1 && !HasName(items, name)
    ensures AddedTimes(items, name, price, img, n) == items + [LineItem(name, price, img, n)]
  {
    if n > 1 {
      AddedTimesAbsent(items, name, price, img, n - 1);
      var s := items + [LineItem(name, price, img, n - 1)];
      assert AddedTimes(items, name, price, img, n) == Added(s, name, price, img);
      IndexOfAppended(items, LineItem(name, price, img, n - 1));
      assert s[|items| := s[|items|].(qty := n)] == items + [LineItem(name, price, img, n)];
    }
  }

  /** From an empty cart, `n` clicks on one menu item give the single line `{name, price, img, qty: n}`. */
  lemma AddedTimesFromEmpty(name: string, price: real, img: Option<string>, n: nat)
    requires n >= 1
    ensures AddedTimes([], name, price, img, n) == [LineItem(name, price, img, n)]
  {
    AddedTimesAbsent([], name, price, img, n);
  }

  // ---------------------------------------------------------------------------
  // increase and decrease

  /** "+" changes only line `i`, and only its quantity, by one. */
  lemma IncreaseOnlyTouchesLine(items: seq<LineItem>, i: nat)
    requires i < |items|
    ensures var r := Increased(items, i);
      && |r| == |items|
      && r[i].name == items[i].name && r[i].price == items[i].price && r[i].img == items[i].img
      && r[i].qty == items[i].qty + 1
      && forall j :: 0 <= j < |items| && j != i ==> r[j] == items[j]
  {
  }

  /** "+" keeps names unique and quantities positive. */
  lemma IncreaseKeepsWellFormed(items: seq<LineItem>, i: nat)
    requires i < |items| && WellFormed(items)
    ensures WellFormed(Increased(items, i))
  {
  }

  /** "+" raises the badge by one and the total by that line's price. */
  lemma IncreaseSums(items: seq<LineItem>, i: nat)
    requires i < |items|
    ensures Badge(Increased(items, i)) == Badge(items) + 1
    ensures Total(Increased(items, i)) == Total(items) + items[i].price
  {
    SumsOfUpdate(items, i, items[i].(qty := items[i].qty + 1));
    LineTotalStep(items[i], items[i].qty + 1);
  }

  /**
   * "-" on a line of quantity above one changes only that line's quantity, by one;
   * on a line of quantity one it removes that line and keeps the others in their order.
   */
  lemma DecreaseOnlyTouchesLine(items: seq<LineItem>, i: nat)
    requires i < |items|
    ensures var r := Decreased(items, i);
      if items[i].qty > 1 then
        && |r| == |items|
        && r[i].name == items[i].name && r[i].price == items[i].price && r[i].img == items[i].img
        && r[i].qty == items[i].qty - 1
        && forall j :: 0 <= j < |items| && j != i ==> r[j] == items[j]
      else
        && |r| == |items| - 1
        && (forall j :: 0 <= j < i ==> r[j] == items[j])
        && (forall j :: i < j < |items| ==> r[j - 1] == items[j])
  {
  }

  /** "-" keeps names unique and quantities positive: no line ever reaches quantity zero. */
  lemma DecreaseKeepsWellFormed(items: seq<LineItem>, i: nat)
    requires i < |items| && WellFormed(items)
    ensures WellFormed(Decreased(items, i))
  {
    var r := Decreased(items, i);
    if items[i].qty <= 1 {
      forall a, b | 0 <= a < b < |r| ensures r[a].name != r[b].name {
        var a' := if a < i then a else a + 1;
        var b' := if b < i then b else b + 1;
        assert r[a] == items[a'] && r[b] == items[b'];
      }
    }
  }

  /** "-" lowers the badge by one and the total by that line's price. */
  lemma DecreaseSums(items: seq<LineItem>, i: nat)
    requires i < |items| && items[i].qty >= 1
    ensures Badge(Decreased(items, i)) == Badge(items) - 1
    ensures Total(Decreased(items, i)) == Total(items) - items[i].price
  {
    if items[i].qty > 1 {
      DecrementSums(items, i);
    } else {
      RemoveLastUnitSums(items, i);
    }
  }

  lemma DecrementSums(items: seq<LineItem>, i: nat)
    requires i < |items| && items[i].qty > 1
    ensures Badge(items[i := items[i].(qty := items[i].qty - 1)]) == Badge(items) - 1
    ensures Total(items[i := items[i].(qty := items[i].qty - 1)]) == Total(items) - items[i].price
  {
    SumsOfUpdate(items, i, items[i].(qty := items[i].qty - 1));
    LineTotalStep(items[i], items[i].qty - 1);
  }

  lemma RemoveLastUnitSums(items: seq<LineItem>, i: nat)
    requires i < |items| && items[i].qty == 1
    ensures Badge(items[..i] + items[i + 1..]) == Badge(items) - 1
    ensures Total(items[..i] + items[i + 1..]) == Total(items) - items[i].price
  {
    SumsOfRemove(items, i);
    assert LineTotal(items[i]) == items[i].price;
  }

  /** "-" undoes "+" on the same line. */
  lemma DecreaseUndoesIncrease(items: seq<LineItem>, i: nat)
    requires i < |items| && items[i].qty >= 1
    ensures Decreased(Increased(items, i), i) == items
  {
    assert Decreased(Increased(items, i), i) == items[i := items[i]];
  }

  /** "-" on the line add-to-cart touched undoes that add-to-cart. */
  lemma DecreaseUndoesAdd(items: seq<LineItem>, name: string, price: real, img: Option<string>)
    requires QtyPositive(items)
    ensures var k := IndexOf(items, name);
      var j := if k == -1 then |items| else k;
      j < |Added(items, name, price, img)| && Decreased(Added(items, name, price, img), j) == items
  {
    var k := IndexOf(items, name);
    var r := Added(items, name, price, img);
    if k == -1 {
      assert r[..|items|] == items;
    } else {
      assert r[k].qty > 1;
      assert Decreased(r, k) == items[k := items[k]];
    }
  }

  /** Pressing "-" as many times as the line's quantity removes exactly that line. */
  lemma DecreasedTimesRemoves(items: seq<LineItem>, i: nat)
    requires i < |items| && items[i].qty >= 1
    ensures DecreasedTimes(items, i, items[i].qty) == items[..i] + items[i + 1..]
  {
    var q := items[i].qty;
    DecreasedTimesStep(items, i, q - 1);
    var r := items[i := items[i].(qty := 1)];
    assert DecreasedTimes(items, i, q) == Decreased(r, i);
    assert r[..i] == items[..i] && r[i + 1..] == items[i + 1..];
  }
}
