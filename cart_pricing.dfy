/**
 * A cart snapshot read by the pricing functions: every line item becomes a
 * record with a numeric price and quantity. The lemmas say how each cart
 * transition moves the total.
 */
module CartPricing {
  import opened Cart
  import opened Pricing

  /** A line item as the pricing functions see it. */
  function AsElement(x: LineItem): (e: Element)
    ensures Priced(e) && Contribution(e) == x.price * x.quantity
  {
    Record(Num(Finite(x.price)), Num(Finite(x.quantity)))
  }

  /** A cart snapshot as the pricing functions see it: an array with one element per entry, in order. */
  function AsProducts(s: seq<LineItem>): Products
  {
    Arr(seq(|s|, k requires 0 <= k < |s| => AsElement(s[k])))
  }

  /** The total of a cart snapshot, as calculateTotalPrice computes it. */
  function CartTotal(s: seq<LineItem>): (r: real)
    ensures s == [] ==> r == 0.0
  {
    TotalPrice(AsProducts(s))
  }

  lemma AsProductsConcat(a: seq<LineItem>, b: seq<LineItem>)
    ensures AsProducts(a + b).elements == AsProducts(a).elements + AsProducts(b).elements
  {
  }

  /** The total of a non-empty cart: its first entry's contribution plus the total of the rest. */
  lemma TotalCons(x: LineItem, s: seq<LineItem>)
    ensures CartTotal([x] + s) == Contribution(AsElement(x)) + CartTotal(s)
  {
    var a, b := AsProducts([x]).elements, AsProducts(s).elements;
    AsProductsConcat([x], s);
    assert AsProducts([x] + s) == Arr(a + b);
    TotalAdditive(a, b);
    SinglePriced(x.price, x.quantity);
    assert AsProducts([x]) == Arr([Record(Num(Finite(x.price)), Num(Finite(x.quantity)))]);
  }

  /** Adding an item raises the total by exactly its price times its quantity. */
  lemma TotalAfterAdd(s: seq<LineItem>, x: LineItem)
    ensures CartTotal(s + [x]) == CartTotal(s) + Contribution(AsElement(x))
  {
    AsProductsConcat(s, [x]);
    TotalAdditive(AsProducts(s).elements, AsProducts([x]).elements);
    SinglePriced(x.price, x.quantity);
  }

  /** Removing an id lowers the total by exactly the total of the entries carrying that id. */
  lemma {:induction false} TotalAfterRemove(s: seq<LineItem>, id: int)
    ensures CartTotal(WithoutId(s, id)) == CartTotal(s) - CartTotal(WithId(s, id))
  {
    if s != [] {
      var x, rest := s[0], s[1..];
      TotalAfterRemove(rest, id);
      assert s == [x] + rest;
      TotalCons(x, rest);
      if x.id == id {
        assert WithoutId(s, id) == WithoutId(rest, id);
        assert WithId(s, id) == [x] + WithId(rest, id);
        TotalCons(x, WithId(rest, id));
      } else {
        assert WithoutId(s, id) == [x] + WithoutId(rest, id);
        assert WithId(s, id) == WithId(rest, id);
        TotalCons(x, WithoutId(rest, id));
      }
    }
  }

  /** `n` copies of one line item. */
  function Copies(item: LineItem, n: nat): seq<LineItem>
  {
    seq(n, _ => item)
  }

  /**
   * Changing the entries of an id to `item` leaves the other entries' share of
   * the total alone and makes the matching entries total as many copies of `item`.
   */
  lemma {:induction false} TotalAfterChange(s: seq<LineItem>, item: LineItem)
    ensures CartTotal(ReplaceById(s, item)) == CartTotal(WithoutId(s, item.id)) + CartTotal(Copies(item, |WithId(s, item.id)|))
  {
    if s != [] {
      var x, rest := s[0], s[1..];
      var n := |WithId(rest, item.id)|;
      TotalAfterChange(rest, item);
      var r := ReplaceById(s, item);
      assert r == [r[0]] + ReplaceById(rest, item);
      TotalCons(r[0], ReplaceById(rest, item));
      if x.id == item.id {
        assert r[0] == item;
        assert WithoutId(s, item.id) == WithoutId(rest, item.id);
        assert |WithId(s, item.id)| == n + 1;
        assert Copies(item, n + 1) == [item] + Copies(item, n);
        TotalCons(item, Copies(item, n));
      } else {
        assert r[0] == x;
        assert WithoutId(s, item.id) == [x] + WithoutId(rest, item.id);
        assert WithId(s, item.id) == WithId(rest, item.id);
        TotalCons(x, WithoutId(rest, item.id));
      }
    }
  }
}
