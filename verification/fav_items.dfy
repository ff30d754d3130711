/** `fav_items`: total quantity per item name over all line items of all of
    a customer's POS invoices.

    The handler fills a Python dict in a nested loop; the dict is modelled as
    the sequence of its keys in insertion order plus a `map` from key to
    value. The specification is `Favourites`, one entry per distinct item
    name in order of first appearance. */
module FavItems {

  /** A POS invoice item row: `item_name` and `qty`. */
  datatype LineItem = LineItem(itemName: string, qty: real)

  /** One `{"item_name": ..., "qty": ...}` entry of the reply. */
  datatype FavItem = FavItem(itemName: string, qty: real)

  /** All line items of the invoices, invoice after invoice. */
  function Flatten(invoices: seq<seq<LineItem>>): (items: seq<LineItem>)
  {
    if invoices == [] then [] else Flatten(invoices[..|invoices| - 1]) + invoices[|invoices| - 1]
  }

  /** The item names of `items`, in order. */
  function Names(items: seq<LineItem>): (names: seq<string>)
    ensures |names| == |items|
    ensures forall k :: 0 <= k < |items| ==> names[k] == items[k].itemName
  {
    if items == [] then [] else Names(items[..|items| - 1]) + [items[|items| - 1].itemName]
  }

  /** Each name of `names` once, in order of first appearance. */
  function Distinct(names: seq<string>): (d: seq<string>)
  {
    if names == [] then []
    else
      var init, last := names[..|names| - 1], names[|names| - 1];
      if last in init then Distinct(init) else Distinct(init) + [last]
  }

  /** Sum of `qty` over the items named `name`. */
  function TotalQty(items: seq<LineItem>, name: string): (total: real)
  {
    if items == [] then 0.0
    else
      var init, last := items[..|items| - 1], items[|items| - 1];
      TotalQty(init, name) + (if last.itemName == name then last.qty else 0.0)
  }

  /** The reply `fav_items` promises for the line items `items`. */
  function Favourites(items: seq<LineItem>): (favs: seq<FavItem>)
    ensures |favs| == |Distinct(Names(items))|
  {
    var d := Distinct(Names(items));
    seq(|d|, k requires 0 <= k < |d| => FavItem(d[k], TotalQty(items, d[k])))
  }

  predicate NoDuplicates(s: seq<string>)
  {
    forall i, j :: 0 <= i < j < |s| ==> s[i] != s[j]
  }

  /** Position of the first occurrence of `x` in `s`. */
  function FirstIndex(s: seq<string>, x: string): (p: nat)
    requires x in s
    ensures p < |s| && s[p] == x && x !in s[..p]
  {
    if s[0] == x then 0
    else
      var p := FirstIndex(s[1..], x);
      assert s[1..][..p] == s[1..p + 1];
      assert s[..p + 1] == [s[0]] + s[1..p + 1];
      p + 1
  }

  lemma FirstIndexUnique(s: seq<string>, x: string, p: nat)
    requires p < |s| && s[p] == x && x !in s[..p]
    ensures FirstIndex(s, x) == p
  {
  }

  /** Appending a name moves no first occurrence of an earlier name. */
  lemma FirstIndexAppend(s: seq<string>, x: string, y: string)
    requires y in s
    ensures y in s + [x] && FirstIndex(s + [x], y) == FirstIndex(s, y)
  {
    var p := FirstIndex(s, y);
    assert (s + [x])[..p] == s[..p];
    FirstIndexUnique(s + [x], y, p);
  }

  /** `Distinct` keeps exactly the names of its input, each once. */
  lemma {:induction false} DistinctSpec(names: seq<string>)
    ensures forall x :: x in Distinct(names) <==> x in names
    ensures NoDuplicates(Distinct(names))
  {
    if names != [] {
      var init, last := names[..|names| - 1], names[|names| - 1];
      assert names == init + [last];
      DistinctSpec(init);
    }
  }

  /** `Distinct` lists names in order of their first appearance. */
  lemma {:induction false} DistinctFirstAppearanceOrder(names: seq<string>)
    ensures forall x :: x in Distinct(names) <==> x in names
    ensures forall i, j :: 0 <= i < j < |Distinct(names)| ==>
      FirstIndex(names, Distinct(names)[i]) < FirstIndex(names, Distinct(names)[j])
  {
    DistinctSpec(names);
    if names != [] {
      var init, last := names[..|names| - 1], names[|names| - 1];
      assert names == init + [last];
      DistinctFirstAppearanceOrder(init);
      var d, d0 := Distinct(names), Distinct(init);
      forall y | y in init
        ensures FirstIndex(names, y) == FirstIndex(init, y)
      {
        FirstIndexAppend(init, last, y);
      }
      if last !in init {
        assert d == d0 + [last];
        FirstIndexUnique(names, last, |init|);
        forall i, j | 0 <= i < j < |d|
          ensures FirstIndex(names, d[i]) < FirstIndex(names, d[j])
        {
          assert d[i] == d0[i] && d0[i] in init;
          if j < |d0| {
            assert d[j] == d0[j] && d0[j] in init;
          }
        }
      }
    }
  }

  /** Line items are added to the running total one at a time. */
  lemma AppendItem(items: seq<LineItem>, x: LineItem)
    ensures Names(items + [x]) == Names(items) + [x.itemName]
    ensures Distinct(Names(items + [x])) ==
      if x.itemName in Names(items) then Distinct(Names(items)) else Distinct(Names(items)) + [x.itemName]
  {
  }

  lemma TotalQtyAppend(items: seq<LineItem>, x: LineItem, n: string)
    ensures TotalQty(items + [x], n) == TotalQty(items, n) + (if x.itemName == n then x.qty else 0.0)
  {
  }

  lemma PrefixStep(done: seq<LineItem>, items: seq<LineItem>, j: nat)
    requires j < |items|
    ensures (done + items[..j]) + [items[j]] == done + items[..j + 1]
  {
  }

  lemma FlattenStep(invoices: seq<seq<LineItem>>, i: nat)
    requires i < |invoices|
    ensures Flatten(invoices[..i + 1]) == Flatten(invoices[..i]) + invoices[i]
  {
    assert invoices[..i + 1][..i] == invoices[..i];
  }

  /** The dict `item_qty` with key order `keys` holds the totals of `items`. */
  ghost predicate Tallied(keys: seq<string>, itemQty: map<string, real>, items: seq<LineItem>)
  {
    && keys == Distinct(Names(items))
    && (forall n :: n in itemQty <==> n in keys)
    && (forall n :: n in itemQty ==> itemQty[n] == TotalQty(items, n))
  }

  /** One iteration of the inner loop keeps the dict in step with the items
      seen so far. */
  lemma TallyStep(keys: seq<string>, itemQty: map<string, real>, items: seq<LineItem>, x: LineItem,
                   keys1: seq<string>, qty1: map<string, real>)
    requires Tallied(keys, itemQty, items)
    requires keys1 == if x.itemName in itemQty then keys else keys + [x.itemName]
    requires qty1 == itemQty[x.itemName := (if x.itemName in itemQty then itemQty[x.itemName] else 0.0) + x.qty]
    ensures Tallied(keys1, qty1, items + [x])
  {
    var name := x.itemName;
    DistinctSpec(Names(items));
    assert name in itemQty <==> name in Names(items);
    AppendItem(items, x);
    TallyTotals(itemQty, items, x, qty1);
  }

  /** The value half of `TallyStep`: after `item_qty[name] += qty` every
      value is the total of the items seen, the new one included. */
  lemma TallyTotals(itemQty: map<string, real>, items: seq<LineItem>, x: LineItem, qty1: map<string, real>)
    requires forall n :: n in itemQty ==> itemQty[n] == TotalQty(items, n)
    requires x.itemName !in itemQty ==> x.itemName !in Names(items)
    requires qty1 == itemQty[x.itemName := (if x.itemName in itemQty then itemQty[x.itemName] else 0.0) + x.qty]
    ensures forall n :: n in qty1 ==> qty1[n] == TotalQty(items + [x], n)
  {
    forall n | n in qty1
      ensures qty1[n] == TotalQty(items + [x], n)
    {
      TotalQtyAppend(items, x, n);
      if n == x.itemName && x.itemName !in itemQty {
        TotalQtyAbsent(items, n);
      }
    }
  }

  /** A name that occurs in no item has total zero. */
  lemma {:induction false} TotalQtyAbsent(items: seq<LineItem>, name: string)
    requires name !in Names(items)
    ensures TotalQty(items, name) == 0.0
  {
    if items != [] {
      var init := items[..|items| - 1];
      assert Names(init) == Names(items)[..|items| - 1];
      TotalQtyAbsent(init, name);
    }
  }

  /** The body of the inner loop of `fav_items`: create the key at 0 when
      it is new, then add the item's quantity. */
  method AddItem(keys: seq<string>, itemQty: map<string, real>, ghost seen: seq<LineItem>, item: LineItem)
    returns (keys': seq<string>, itemQty': map<string, real>)
    requires Tallied(keys, itemQty, seen)
    ensures Tallied(keys', itemQty', seen + [item])
  {
    var itemName := item.itemName;
    var qty := item.qty;
    keys', itemQty' := keys, itemQty;
    if itemName !in itemQty' {
      itemQty' := itemQty'[itemName := 0.0];
      keys' := keys' + [itemName];
    }
    itemQty' := itemQty'[itemName := itemQty'[itemName] + qty];
    TallyStep(keys, itemQty, seen, item, keys', itemQty');
  }

  /** The inner loop of `fav_items`: add the items of one invoice to the
      dict. */
  method AddInvoiceItems(keys: seq<string>, itemQty: map<string, real>, ghost done: seq<LineItem>, items: seq<LineItem>)
    returns (keys': seq<string>, itemQty': map<string, real>)
    requires Tallied(keys, itemQty, done)
    ensures Tallied(keys', itemQty', done + items)
  {
    keys', itemQty' := keys, itemQty;
    var j := 0;
    ghost var seen := done;
    assert items[..0] == [];
    while j < |items|
      invariant 0 <= j <= |items|
      invariant seen == done + items[..j]
      invariant Tallied(keys', itemQty', seen)
    {
      keys', itemQty' := AddItem(keys', itemQty', seen, items[j]);
      PrefixStep(done, items, j);
      seen := seen + [items[j]];
      j := j + 1;
    }
    assert items[..j] == items;
  }

  /** `fav_items`: the loop over the customer's invoices, then one entry per
      dict item in insertion order. */
  method FavItems(invoices: seq<seq<LineItem>>) returns (favourites: seq<FavItem>)
    ensures favourites == Favourites(Flatten(invoices))
  {
    var keys: seq<string> := [];
    var itemQty: map<string, real> := map[];
    var i := 0;
    while i < |invoices|
      invariant 0 <= i <= |invoices|
      invariant Tallied(keys, itemQty, Flatten(invoices[..i]))
    {
      FlattenStep(invoices, i);
      keys, itemQty := AddInvoiceItems(keys, itemQty, Flatten(invoices[..i]), invoices[i]);
      i := i + 1;
    }
    assert invoices[..i] == invoices;
    favourites := seq(|keys|, k requires 0 <= k < |keys| && keys[k] in itemQty => FavItem(keys[k], itemQty[keys[k]]));
  }

  /** What a caller of `fav_items` can rely on: one entry per item name that
      occurs in the customer's invoices, no name twice, names in order of
      first appearance, and each quantity the sum over all matching items. */
  lemma FavouritesSpec(invoices: seq<seq<LineItem>>)
    ensures var items := Flatten(invoices);
      var favs := Favourites(items);
      && (forall n :: (exists k :: 0 <= k < |favs| && favs[k].itemName == n) <==> n in Names(items))
      && (forall i, j :: 0 <= i < j < |favs| ==> favs[i].itemName != favs[j].itemName)
      && (forall i, j :: 0 <= i < j < |favs| ==>
            FirstIndex(Names(items), favs[i].itemName) < FirstIndex(Names(items), favs[j].itemName))
      && (forall k :: 0 <= k < |favs| ==> favs[k].qty == TotalQty(items, favs[k].itemName))
  {
    var items := Flatten(invoices);
    var d := Distinct(Names(items));
    DistinctSpec(Names(items));
    DistinctFirstAppearanceOrder(Names(items));
    var favs := Favourites(items);
    forall n | n in Names(items)
      ensures exists k :: 0 <= k < |favs| && favs[k].itemName == n
    {
      var k :| 0 <= k < |d| && d[k] == n;
      assert favs[k].itemName == n;
    }
  }

  /** Sum of `qty` over all items. */
  function SumQty(items: seq<LineItem>): real
  {
    if items == [] then 0.0 else SumQty(items[..|items| - 1]) + items[|items| - 1].qty
  }

  /** Sum of the `qty` of the reply's entries. */
  function SumFavourites(favs: seq<FavItem>): real
  {
    if favs == [] then 0.0 else SumFavourites(favs[..|favs| - 1]) + favs[|favs| - 1].qty
  }

  /** Sum over the names `d` of their totals in `items`. */
  function SumTotals(d: seq<string>, items: seq<LineItem>): real
  {
    if d == [] then 0.0 else SumTotals(d[..|d| - 1], items) + TotalQty(items, d[|d| - 1])
  }

  /** One more item adds its quantity to the total of its own name, and so
      once to a sum over distinct names that include it. */
  lemma {:induction false} SumTotalsAppendItem(d: seq<string>, items: seq<LineItem>, x: LineItem)
    requires NoDuplicates(d)
    ensures SumTotals(d, items + [x]) == SumTotals(d, items) + (if x.itemName in d then x.qty else 0.0)
  {
    if d != [] {
      var init, last := d[..|d| - 1], d[|d| - 1];
      assert d == init + [last];
      SumTotalsAppendItem(init, items, x);
      TotalQtyAppend(items, x, last);
    }
  }

  /** Entries whose quantities are the totals of `d` add up to `SumTotals(d, items)`. */
  lemma SumFavouritesIsSumTotals(items: seq<LineItem>, d: seq<string>, favs: seq<FavItem>)
    requires |favs| == |d|
    requires forall k :: 0 <= k < |d| ==> favs[k].qty == TotalQty(items, d[k])
    ensures SumFavourites(favs) == SumTotals(d, items)
  {
    if d != [] {
      SumFavouritesIsSumTotals(items, d[..|d| - 1], favs[..|favs| - 1]);
    }
  }

  /** No quantity is lost or counted twice: the entries' quantities add up
      to the quantity of all line items of the customer's invoices. */
  lemma {:induction false} FavouritesConserveQuantity(items: seq<LineItem>)
    ensures SumFavourites(Favourites(items)) == SumQty(items)
  {
    var d := Distinct(Names(items));
    SumFavouritesIsSumTotals(items, d, Favourites(items));
    SumTotalsOfDistinct(items);
  }

  lemma {:induction false} SumTotalsOfDistinct(items: seq<LineItem>)
    ensures SumTotals(Distinct(Names(items)), items) == SumQty(items)
  {
    if items != [] {
      var init, x := items[..|items| - 1], items[|items| - 1];
      assert items == init + [x];
      SumTotalsOfDistinct(init);
      DistinctTotalsStep(init, x);
    }
  }

  /** One more item raises the sum of the per-name totals by its quantity,
      whether its name is new (one more key) or not (a larger total). */
  lemma DistinctTotalsStep(init: seq<LineItem>, x: LineItem)
    ensures SumTotals(Distinct(Names(init + [x])), init + [x])
         == SumTotals(Distinct(Names(init)), init) + x.qty
  {
    var d0 := Distinct(Names(init));
    AppendItem(init, x);
    DistinctSpec(Names(init));
    SumTotalsAppendItem(d0, init, x);
    if x.itemName !in Names(init) {
      assert (d0 + [x.itemName])[..|d0|] == d0;
      TotalQtyAppend(init, x, x.itemName);
      TotalQtyAbsent(init, x.itemName);
    }
  }
}
