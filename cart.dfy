/**
 * The cart store: an ordered sequence of line items that the storefront
 * overwrites as a whole on every transition. Each new sequence is computed
 * purely from the previous one (append, filter by id, map-with-replace by id);
 * those computations are the functions below, and the class CartStore holds
 * the current sequence and applies them.
 */
module Cart {

  /** Product metadata the cart never inspects; it is carried through unchanged. */
  datatype Details = Details(
    name: string,
    description: string,
    category: int,
    image: string,
    colors: seq<string>,
    sizes: seq<string>)

  /** A catalogue product, as handed to removeItem. */
  datatype Product = Product(id: int, price: real, details: Details)

  /**
   * A product placed in the cart together with a quantity. Ids need not be
   * unique; price and quantity are plain numbers the cart never validates.
   */
  datatype LineItem = LineItem(id: int, price: real, quantity: real, details: Details)

  /** The entries whose id differs from `id`, in their original order (the filter of removeItem). */
  function WithoutId(s: seq<LineItem>, id: int): (r: seq<LineItem>)
    ensures |r| <= |s|
    ensures forall k :: 0 <= k < |r| ==> r[k].id != id
    ensures forall k :: 0 <= k < |r| ==> r[k] in s
  {
    if s == [] then []
    else if s[0].id == id then WithoutId(s[1..], id)
    else [s[0]] + WithoutId(s[1..], id)
  }

  /** The entries whose id equals `id`, in their original order. */
  function WithId(s: seq<LineItem>, id: int): (r: seq<LineItem>)
    ensures |r| <= |s|
    ensures forall k :: 0 <= k < |r| ==> r[k].id == id
    ensures forall k :: 0 <= k < |r| ==> r[k] in s
  {
    if s == [] then []
    else if s[0].id == id then [s[0]] + WithId(s[1..], id)
    else WithId(s[1..], id)
  }

  /** Every entry whose id equals `item.id` replaced by `item` (the map of changeQuantity). */
  function ReplaceById(s: seq<LineItem>, item: LineItem): (r: seq<LineItem>)
    ensures |r| == |s|
    ensures forall k :: 0 <= k < |s| ==> r[k] == (if s[k].id == item.id then item else s[k])
  {
    if s == [] then []
    else [if s[0].id == item.id then item else s[0]] + ReplaceById(s[1..], item)
  }

  // ---------------------------------------------------------------------------
  // Removal by id

  /** Removal distributes over concatenation: the survivors keep their relative order. */
  lemma {:induction false} WithoutIdConcat(a: seq<LineItem>, b: seq<LineItem>, id: int)
    ensures WithoutId(a + b, id) == WithoutId(a, id) + WithoutId(b, id)
  {
    if a == [] {
      assert a + b == b;
    } else {
      assert (a + b)[1..] == a[1..] + b;
      WithoutIdConcat(a[1..], b, id);
    }
  }

  /** Removal keeps every entry with a different id, as often as it occurred, and no other entry. */
  lemma {:induction false} WithoutIdCounts(s: seq<LineItem>, id: int, x: LineItem)
    ensures multiset(WithoutId(s, id))[x] == if x.id == id then 0 else multiset(s)[x]
  {
    if s != [] {
      WithoutIdCounts(s[1..], id, x);
      assert s == [s[0]] + s[1..];
    }
  }

  /** Removal leaves the sequence as it was exactly when no entry carries the id. */
  lemma WithoutIdIdentity(s: seq<LineItem>, id: int)
    ensures WithoutId(s, id) == s <==> forall k :: 0 <= k < |s| ==> s[k].id != id
  {
    if forall k :: 0 <= k < |s| ==> s[k].id != id {
      WithoutIdNoMatch(s, id);
    }
  }

  lemma {:induction false} WithoutIdNoMatch(s: seq<LineItem>, id: int)
    requires forall k :: 0 <= k < |s| ==> s[k].id != id
    ensures WithoutId(s, id) == s
  {
    if s != [] {
      WithoutIdNoMatch(s[1..], id);
    }
  }

  /** Removing the same id twice is the same as removing it once. */
  lemma WithoutIdIdempotent(s: seq<LineItem>, id: int)
    ensures WithoutId(WithoutId(s, id), id) == WithoutId(s, id)
  {
    WithoutIdNoMatch(WithoutId(s, id), id);
  }

  /** The entries with an id and those without it together make up the whole sequence. */
  lemma {:induction false} PartitionById(s: seq<LineItem>, id: int)
    ensures |WithId(s, id)| + |WithoutId(s, id)| == |s|
    ensures multiset(WithId(s, id)) + multiset(WithoutId(s, id)) == multiset(s)
  {
    if s != [] {
      PartitionById(s[1..], id);
      assert s == [s[0]] + s[1..];
    }
  }

  // ---------------------------------------------------------------------------
  // Selection by id, and appending

  /** Selection by id distributes over concatenation. */
  lemma {:induction false} WithIdConcat(a: seq<LineItem>, b: seq<LineItem>, id: int)
    ensures WithId(a + b, id) == WithId(a, id) + WithId(b, id)
  {
    if a == [] {
      assert a + b == b;
    } else {
      assert (a + b)[1..] == a[1..] + b;
      WithIdConcat(a[1..], b, id);
    }
  }

  /**
   * Appending never merges by id: two items added with the same id stay two
   * separate entries, in the order they were added.
   */
  lemma AppendNeverMerges(s: seq<LineItem>, x: LineItem, y: LineItem)
    requires x.id == y.id
    ensures WithId(s + [x] + [y], x.id) == WithId(s, x.id) + [x, y]
  {
    WithIdConcat(s + [x], [y], x.id);
    WithIdConcat(s, [x], x.id);
  }

  /** Removing an id right after appending an item with that id undoes the append. */
  lemma RemoveAfterAppend(s: seq<LineItem>, x: LineItem)
    ensures WithoutId(s + [x], x.id) == WithoutId(s, x.id)
  {
    WithoutIdConcat(s, [x], x.id);
  }

  // ---------------------------------------------------------------------------
  // Replacement by id

  /** Replacement leaves the sequence as it was exactly when every matching entry already equals the item. */
  lemma ReplaceByIdIdentity(s: seq<LineItem>, item: LineItem)
    ensures ReplaceById(s, item) == s <==> forall k :: 0 <= k < |s| && s[k].id == item.id ==> s[k] == item
  {
    var r := ReplaceById(s, item);
    if r == s {
      forall k | 0 <= k < |s| && s[k].id == item.id ensures s[k] == item {
        assert r[k] == item;
      }
    }
  }

  /** In particular, replacing by an id that no entry carries is a no-op. */
  lemma ReplaceUnknownId(s: seq<LineItem>, item: LineItem)
    requires forall k :: 0 <= k < |s| ==> s[k].id != item.id
    ensures ReplaceById(s, item) == s
  {
    ReplaceByIdIdentity(s, item);
  }

  /** Replacing twice with the same item is the same as replacing once. */
  lemma ReplaceByIdIdempotent(s: seq<LineItem>, item: LineItem)
    ensures ReplaceById(ReplaceById(s, item), item) == ReplaceById(s, item)
  {
    ReplaceByIdIdentity(ReplaceById(s, item), item);
  }

  /** Removing an id after replacing its entries gives the same cart as removing it directly. */
  lemma {:induction false} RemoveAfterReplace(s: seq<LineItem>, item: LineItem)
    ensures WithoutId(ReplaceById(s, item), item.id) == WithoutId(s, item.id)
  {
    if s != [] {
      RemoveAfterReplace(s[1..], item);
      assert ReplaceById(s, item)[1..] == ReplaceById(s[1..], item);
    }
  }

  // ---------------------------------------------------------------------------
  // The store

  /** The cart's state container: `items` is replaced by each transition. */
  class CartStore {
    var items: seq<LineItem>

    /** A new store holds no items. */
    constructor ()
      ensures items == []
    {
      items := [];
    }

    /** Appends `item` at the end, whether or not an entry with its id is already present. */
    method AddItem(item: LineItem)
      modifies this
      ensures items == old(items) + [item]
      ensures |items| == |old(items)| + 1 && items[..|old(items)|] == old(items) && items[|items| - 1] == item
    {
      items := items + [item];
    }

    /** Drops every entry whose id equals the product's; keeps the rest in order. */
    method RemoveItem(product: Product)
      modifies this
      ensures items == WithoutId(old(items), product.id)
      ensures forall k :: 0 <= k < |items| ==> items[k].id != product.id
    {
      items := WithoutId(items, product.id);
    }

    /** Replaces every entry whose id equals `item.id` by `item`; all other entries stay as they are. */
    method ChangeQuantity(item: LineItem)
      modifies this
      ensures items == ReplaceById(old(items), item)
      ensures |items| == |old(items)|
      ensures forall k :: 0 <= k < |items| ==> items[k] == if old(items)[k].id == item.id then item else old(items)[k]
    {
      items := ReplaceById(items, item);
    }

    /** Empties the cart, from any state. */
    method Clear()
      modifies this
      ensures items == []
    {
      items := [];
    }
  }
}
