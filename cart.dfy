/**
 * The shopping cart of useCart.ts as values: one line per product id,
 * merged on add, removed when its quantity drops below one, and the
 * count and selected total recomputed from the lines.
 */
module Cart {
  import opened Seqs

  datatype CartItem = CartItem(id: int, name: string, price: int, quantity: int, image: string, selected: bool)

  /** What `addToCart` receives: a line without quantity and selection. */
  datatype CartProduct = CartProduct(id: int, name: string, price: int, image: string)

  /** One line per product id, and every quantity at least one. */
  ghost predicate WellFormed(lines: seq<CartItem>) {
    (forall i, j :: 0 <= i < j < |lines| ==> lines[i].id != lines[j].id) &&
    (forall i :: 0 <= i < |lines| ==> lines[i].quantity >= 1)
  }

  predicate HasLine(lines: seq<CartItem>, id: int) {
    exists l :: l in lines && l.id == id
  }

  /**
   * `addToCart`: a product already in the cart gets one more unit on its
   * line (name, price and image stay as they were); a new product is
   * appended with one unit, selected.
   */
  function AddedToCart(lines: seq<CartItem>, p: CartProduct): (r: seq<CartItem>)
    ensures HasLine(r, p.id)
    ensures HasLine(lines, p.id) ==> (|r| == |lines| &&
      forall i :: 0 <= i < |lines| ==> r[i] == if lines[i].id == p.id then lines[i].(quantity := lines[i].quantity + 1) else lines[i])
    ensures !HasLine(lines, p.id) ==> (|r| == |lines| + 1 && r[..|lines|] == lines &&
      r[|lines|] == CartItem(p.id, p.name, p.price, 1, p.image, true))
  {
    if HasLine(lines, p.id) then
      Map(lines, (l: CartItem) => if l.id == p.id then l.(quantity := l.quantity + 1) else l)
    else
      lines + [CartItem(p.id, p.name, p.price, 1, p.image, true)]
  }

  /** `updateQuantity`: below one the line is removed, otherwise only its quantity changes. */
  function QuantitySet(lines: seq<CartItem>, id: int, n: int): (r: seq<CartItem>)
    ensures n < 1 ==> r == LineRemoved(lines, id)
    ensures n < 1 ==> forall l :: l in r <==> l in lines && l.id != id
    ensures n < 1 ==> forall l :: multiset(r)[l] == if l.id != id then multiset(lines)[l] else 0
    ensures n >= 1 ==> (|r| == |lines| &&
      forall i :: 0 <= i < |lines| ==> r[i] == if lines[i].id == id then lines[i].(quantity := n) else lines[i])
  {
    if n < 1 then LineRemoved(lines, id)
    else Map(lines, (l: CartItem) => if l.id == id then l.(quantity := n) else l)
  }

  /** `toggleSelect`. */
  function SelectionToggled(lines: seq<CartItem>, id: int): (r: seq<CartItem>)
    ensures |r| == |lines|
    ensures forall i :: 0 <= i < |lines| ==> r[i] == if lines[i].id == id then lines[i].(selected := !lines[i].selected) else lines[i]
  {
    Map(lines, (l: CartItem) => if l.id == id then l.(selected := !l.selected) else l)
  }

  /** `removeItem`. */
  function LineRemoved(lines: seq<CartItem>, id: int): (r: seq<CartItem>)
    ensures forall l :: l in r <==> l in lines && l.id != id
    ensures forall l :: multiset(r)[l] == if l.id != id then multiset(lines)[l] else 0
  {
    FilterMultiset(lines, (l: CartItem) => l.id != id);
    Filter(lines, (l: CartItem) => l.id != id)
  }

  /** `clearSelectedItems`. */
  function SelectedCleared(lines: seq<CartItem>): (r: seq<CartItem>)
    ensures forall l :: l in r <==> l in lines && !l.selected
    ensures forall l :: multiset(r)[l] == if !l.selected then multiset(lines)[l] else 0
  {
    FilterMultiset(lines, (l: CartItem) => !l.selected);
    Filter(lines, (l: CartItem) => !l.selected)
  }

  /** `selectedItems`. */
  function SelectedLines(lines: seq<CartItem>): (r: seq<CartItem>)
    ensures forall l :: l in r <==> l in lines && l.selected
    ensures forall l :: multiset(r)[l] == if l.selected then multiset(lines)[l] else 0
  {
    FilterMultiset(lines, (l: CartItem) => l.selected);
    Filter(lines, (l: CartItem) => l.selected)
  }

  /**
   * The three filters keep the lines' order: filtering a concatenation
   * filters each part in turn.
   */
  lemma FiltersKeepOrder(a: seq<CartItem>, b: seq<CartItem>, id: int)
    ensures LineRemoved(a + b, id) == LineRemoved(a, id) + LineRemoved(b, id)
    ensures SelectedCleared(a + b) == SelectedCleared(a) + SelectedCleared(b)
    ensures SelectedLines(a + b) == SelectedLines(a) + SelectedLines(b)
  {
    FilterConcat(a, b, (l: CartItem) => l.id != id);
    FilterConcat(a, b, (l: CartItem) => !l.selected);
    FilterConcat(a, b, (l: CartItem) => l.selected);
  }

  /** `getCartCount`: the sum of the quantities, never negative when no quantity is. */
  function Count(lines: seq<CartItem>): (r: int)
    ensures (forall l :: l in lines ==> l.quantity >= 0) ==> r >= 0
  {
    if lines == [] then 0
    else
      assert forall l :: l in lines[1..] ==> l in lines;
      lines[0].quantity + Count(lines[1..])
  }

  /**
   * The sum of price times quantity, as `totalPrice` and `createOrder`
   * reduce it; never negative when no price or quantity is.
   */
  function Amount(lines: seq<CartItem>): (r: int)
    ensures (forall l :: l in lines ==> l.price >= 0 && l.quantity >= 0) ==> r >= 0
  {
    if lines == [] then 0
    else
      assert forall l :: l in lines[1..] ==> l in lines;
      lines[0].price * lines[0].quantity + Amount(lines[1..])
  }

  /** `totalPrice`: the amount of the selected lines only, never negative when no price or quantity is. */
  function SelectedTotal(lines: seq<CartItem>): (r: int)
    ensures (forall l :: l in lines ==> l.price >= 0 && l.quantity >= 0) ==> r >= 0
  {
    Amount(SelectedLines(lines))
  }

  lemma {:induction false} CountConcat(a: seq<CartItem>, b: seq<CartItem>)
    ensures Count(a + b) == Count(a) + Count(b)
  {
    if a != [] {
      assert (a + b)[1..] == a[1..] + b;
      CountConcat(a[1..], b);
    } else {
      assert a + b == b;
    }
  }

  lemma {:induction false} AmountConcat(a: seq<CartItem>, b: seq<CartItem>)
    ensures Amount(a + b) == Amount(a) + Amount(b)
  {
    if a != [] {
      assert (a + b)[1..] == a[1..] + b;
      AmountConcat(a[1..], b);
    } else {
      assert a + b == b;
    }
  }

  /** Over well-formed lines, a positive count means a non-empty cart, and every line adds at least one. */
  lemma {:induction false} CountAtLeastLines(lines: seq<CartItem>)
    requires WellFormed(lines)
    ensures Count(lines) >= |lines|
  {
    if lines != [] {
      CountAtLeastLines(lines[1..]);
    }
  }

  /** The lines as a sum over selected and unselected ones: count and amount split exactly. */
  lemma {:induction false} SelectionSplits(lines: seq<CartItem>)
    ensures Count(lines) == Count(SelectedLines(lines)) + Count(SelectedCleared(lines))
    ensures Amount(lines) == SelectedTotal(lines) + Amount(SelectedCleared(lines))
  {
    if lines != [] {
      SelectionSplits(lines[1..]);
      var sel := (l: CartItem) => l.selected;
      var unsel := (l: CartItem) => !l.selected;
      assert Filter(lines, sel) == (if lines[0].selected then [lines[0]] else []) + Filter(lines[1..], sel);
      assert Filter(lines, unsel) == (if lines[0].selected then [] else [lines[0]]) + Filter(lines[1..], unsel);
      CountConcat(if lines[0].selected then [lines[0]] else [], Filter(lines[1..], sel));
      CountConcat(if lines[0].selected then [] else [lines[0]], Filter(lines[1..], unsel));
      AmountConcat(if lines[0].selected then [lines[0]] else [], Filter(lines[1..], sel));
      AmountConcat(if lines[0].selected then [] else [lines[0]], Filter(lines[1..], unsel));
    }
  }

  /** After clearing the selected lines nothing is selected, so the total is zero. */
  lemma SelectedClearedTotalsZero(lines: seq<CartItem>)
    ensures SelectedTotal(SelectedCleared(lines)) == 0
  {
    FilterNone(SelectedCleared(lines), (l: CartItem) => l.selected);
  }

  /** Two adds of a new product leave one line for it, with quantity two. */
  lemma AddTwiceMerges(lines: seq<CartItem>, p: CartProduct)
    requires !HasLine(lines, p.id)
    ensures AddedToCart(AddedToCart(lines, p), p) == lines + [CartItem(p.id, p.name, p.price, 2, p.image, true)]
  {
    var once := AddedToCart(lines, p);
    assert once[|lines|] in once;
    var twice := AddedToCart(once, p);
    assert |twice| == |lines| + 1;
    forall i | 0 <= i < |lines| ensures twice[i] == lines[i] {
      assert lines[i] in lines;
    }
  }

  /** Adding one product raises the count by exactly one on a well-formed cart. */
  lemma {:induction false} AddedCountsOne(lines: seq<CartItem>, p: CartProduct)
    requires WellFormed(lines)
    ensures Count(AddedToCart(lines, p)) == Count(lines) + 1
  {
    if HasLine(lines, p.id) {
      IncrementedCount(lines, p.id);
    } else {
      CountConcat(lines, [CartItem(p.id, p.name, p.price, 1, p.image, true)]);
    }
  }

  lemma {:induction false} IncrementedCount(lines: seq<CartItem>, id: int)
    requires WellFormed(lines) && HasLine(lines, id)
    ensures Count(Map(lines, (l: CartItem) => if l.id == id then l.(quantity := l.quantity + 1) else l)) == Count(lines) + 1
  {
    var f := (l: CartItem) => if l.id == id then l.(quantity := l.quantity + 1) else l;
    var r := Map(lines, f);
    assert r[1..] == Map(lines[1..], f);
    if lines[0].id == id {
      forall l | l in lines[1..] ensures l.id != id {
        var k :| 0 <= k < |lines[1..]| && lines[1..][k] == l;
        assert lines[k + 1] == l;
      }
      assert Map(lines[1..], f) == lines[1..];
    } else {
      assert HasLine(lines[1..], id) by {
        var l :| l in lines && l.id == id;
        assert l in lines[1..] by {
          assert lines == [lines[0]] + lines[1..];
        }
      }
      IncrementedCount(lines[1..], id);
    }
  }

  /** Every operation that rewrites the lines keeps them well formed. */
  lemma AddedKeepsWellFormed(lines: seq<CartItem>, p: CartProduct)
    requires WellFormed(lines)
    ensures WellFormed(AddedToCart(lines, p))
  {
    var r := AddedToCart(lines, p);
    if !HasLine(lines, p.id) {
      forall i, j | 0 <= i < j < |r| ensures r[i].id != r[j].id {
        if j == |lines| {
          assert r[i] in lines;
        }
      }
    }
  }

  lemma QuantitySetKeepsWellFormed(lines: seq<CartItem>, id: int, n: int)
    requires WellFormed(lines)
    ensures WellFormed(QuantitySet(lines, id, n))
  {
    if n < 1 {
      LineRemovedKeepsWellFormed(lines, id);
    }
  }

  lemma SelectionToggledKeepsWellFormed(lines: seq<CartItem>, id: int)
    requires WellFormed(lines)
    ensures WellFormed(SelectionToggled(lines, id))
  {
  }

  /** A filter of well-formed lines is well formed: it keeps order and drops lines. */
  lemma {:induction false} FilterKeepsWellFormed(lines: seq<CartItem>, p: CartItem -> bool)
    requires WellFormed(lines)
    ensures WellFormed(Filter(lines, p))
  {
    if lines != [] {
      FilterKeepsWellFormed(lines[1..], p);
      var rest := Filter(lines[1..], p);
      if p(lines[0]) {
        var r := [lines[0]] + rest;
        forall j | 0 < j < |r| ensures r[0].id != r[j].id {
          assert r[j] in rest;
          var k :| 0 <= k < |lines[1..]| && lines[1..][k] == r[j];
          assert lines[k + 1] == r[j];
        }
      }
    }
  }

  lemma LineRemovedKeepsWellFormed(lines: seq<CartItem>, id: int)
    requires WellFormed(lines)
    ensures WellFormed(LineRemoved(lines, id))
  {
    FilterKeepsWellFormed(lines, (l: CartItem) => l.id != id);
  }

  lemma SelectedClearedKeepsWellFormed(lines: seq<CartItem>)
    requires WellFormed(lines)
    ensures WellFormed(SelectedCleared(lines))
  {
    FilterKeepsWellFormed(lines, (l: CartItem) => !l.selected);
  }

  /** Toggling the same line twice restores the cart. */
  lemma ToggleTwiceRestores(lines: seq<CartItem>, id: int)
    ensures SelectionToggled(SelectionToggled(lines, id), id) == lines
  {
    var r := SelectionToggled(SelectionToggled(lines, id), id);
    assert forall i :: 0 <= i < |lines| ==> r[i] == lines[i];
  }

}
