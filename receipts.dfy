/** The receipt computed by `handleGenerateReceipt`: every catalog row paired
    with its counter, the rows with a positive counter kept, and their
    subtotals summed. */
module Receipts {
  import opened Wrappers
  import opened Catalog
  import opened Quantities

  /** One receipt line: the catalog entry, how many were bought and what they cost. */
  datatype PurchasedItem = PurchasedItem(name: string, price: int, quantity: int, subtotal: int)

  /** The value handed to the receipt screen. */
  datatype Receipt = Receipt(purchasedItems: seq<PurchasedItem>, total: int)

  /** `quantities[i]`: `None` stands for `undefined`, read past the end of a
      counter list that is shorter than the item list. */
  function QuantityAt(quantities: seq<int>, i: nat): Option<int> {
    if i < |quantities| then Some(quantities[i]) else None
  }

  /** The object the `map` step builds for one row; its subtotal is `NaN`
      (`None`) when the quantity is `undefined`. */
  datatype Row = Row(name: string, price: int, quantity: Option<int>) {
    function Subtotal(): Option<int> {
      if quantity.Some? then Some(price * quantity.value) else None
    }
  }

  /** The `map` step: each entry paired with the counter at its position. */
  function Rows(itemList: seq<Item>, quantities: seq<int>): (r: seq<Row>)
    ensures |r| == |itemList|
    ensures forall i :: 0 <= i < |r| ==>
      && r[i].name == itemList[i].name && r[i].price == itemList[i].price
      && (r[i].quantity.Some? <==> i < |quantities|)
      && (i < |quantities| ==> r[i].quantity.value == quantities[i])
  {
    seq(|itemList|, i requires 0 <= i < |itemList| =>
      Row(itemList[i].name, itemList[i].price, QuantityAt(quantities, i)))
  }

  /** The `filter` test `item.quantity > 0`; `undefined > 0` is false. */
  predicate Kept(row: Row)
    ensures Kept(row) ==> row.Subtotal().Some? && row.Subtotal().value == row.price * row.quantity.value
  {
    row.quantity.Some? && row.quantity.value > 0
  }

  function ToPurchased(row: Row): PurchasedItem
    requires Kept(row)
  {
    PurchasedItem(row.name, row.price, row.quantity.value, row.Subtotal().value)
  }

  /** The `filter` step, in row order. */
  function KeepPurchased(rows: seq<Row>): (r: seq<PurchasedItem>)
    ensures |r| <= |rows|
    ensures forall k :: 0 <= k < |r| ==> r[k].quantity > 0 && r[k].subtotal == r[k].price * r[k].quantity
  {
    if rows == [] then []
    else if Kept(rows[0]) then [ToPurchased(rows[0])] + KeepPurchased(rows[1..])
    else KeepPurchased(rows[1..])
  }

  /** The `reduce((sum, item) => sum + item.subtotal, acc)` step, a left fold. */
  function SumFrom(acc: int, lines: seq<PurchasedItem>): int
    decreases |lines|
  {
    if lines == [] then acc else SumFrom(acc + lines[0].subtotal, lines[1..])
  }

  /** The sum of the subtotals of `lines`. */
  function Sum(lines: seq<PurchasedItem>): int {
    if lines == [] then 0 else lines[0].subtotal + Sum(lines[1..])
  }

  /** The left fold from `acc` adds `acc` to the sum of the subtotals. */
  lemma {:induction false} SumFromIsSum(acc: int, lines: seq<PurchasedItem>)
    ensures SumFrom(acc, lines) == acc + Sum(lines)
    decreases |lines|
  {
    if lines != [] {
      SumFromIsSum(acc + lines[0].subtotal, lines[1..]);
    }
  }

  /** The `map` step followed by the `filter` step. */
  function PurchasedItems(itemList: seq<Item>, quantities: seq<int>): (r: seq<PurchasedItem>)
    ensures |r| <= |itemList|
    ensures forall k :: 0 <= k < |r| ==> r[k].quantity > 0 && r[k].subtotal == r[k].price * r[k].quantity
  {
    KeepPurchased(Rows(itemList, quantities))
  }

  /** `handleGenerateReceipt`: the receipt for the item list and the counters.
      Every line was bought at least once, its subtotal is price times
      quantity, and the total is the sum of the subtotals. */
  function GenerateReceipt(itemList: seq<Item>, quantities: seq<int>): (r: Receipt)
    ensures |r.purchasedItems| <= |itemList|
    ensures forall k :: 0 <= k < |r.purchasedItems| ==>
      r.purchasedItems[k].quantity > 0 && r.purchasedItems[k].subtotal == r.purchasedItems[k].price * r.purchasedItems[k].quantity
    ensures r.total == Sum(r.purchasedItems)
  {
    var purchasedItems := PurchasedItems(itemList, quantities);
    SumFromIsSum(0, purchasedItems);
    Receipt(purchasedItems, SumFrom(0, purchasedItems))
  }

  // ---------------------------------------------------------------------------
  // Reference definitions: which catalog positions end up on the receipt, and
  // what the order is worth, stated position by position.

  /** Position `i` was bought: its counter exists and is positive. */
  predicate Purchased(quantities: seq<int>, i: nat) {
    i < |quantities| && quantities[i] > 0
  }

  /** The positions below `n` that were bought, in increasing order. */
  function PurchasedIndices(n: nat, quantities: seq<int>): seq<nat> {
    if n == 0 then []
    else PurchasedIndices(n - 1, quantities) + (if Purchased(quantities, n - 1) then [n - 1] else [])
  }

  /** The positions listed are exactly the bought positions below `n`, each once, in increasing order. */
  lemma {:induction false} PurchasedIndicesExact(n: nat, quantities: seq<int>)
    ensures var idx := PurchasedIndices(n, quantities);
      && (forall k :: 0 <= k < |idx| ==> idx[k] < n && Purchased(quantities, idx[k]))
      && (forall k, l :: 0 <= k < l < |idx| ==> idx[k] < idx[l])
      && (forall i :: 0 <= i < n && Purchased(quantities, i) ==> i in idx)
  {
    if n > 0 {
      PurchasedIndicesExact(n - 1, quantities);
    }
  }

  /** The receipt line for a bought position. */
  function LineFor(itemList: seq<Item>, quantities: seq<int>, i: nat): PurchasedItem
    requires i < |itemList| && Purchased(quantities, i)
  {
    PurchasedItem(itemList[i].name, itemList[i].price, quantities[i], itemList[i].price * quantities[i])
  }

  /** What the order is worth: the sum over all positions of price times
      counter, counting only bought positions. */
  function OrderValue(itemList: seq<Item>, quantities: seq<int>): int {
    if itemList == [] then 0
    else
      var n := |itemList| - 1;
      OrderValue(itemList[..n], quantities)
        + (if Purchased(quantities, n) then itemList[n].price * quantities[n] else 0)
  }

  /** The plain sum over all positions of price times counter. */
  function DotProduct(itemList: seq<Item>, quantities: seq<int>): int
    requires |quantities| == |itemList|
  {
    if itemList == [] then 0
    else
      var n := |itemList| - 1;
      DotProduct(itemList[..n], quantities[..n]) + itemList[n].price * quantities[n]
  }

  // ---------------------------------------------------------------------------
  // Building blocks: every step distributes over concatenation.

  lemma RowsAppend(a: seq<Item>, qa: seq<int>, b: seq<Item>, qb: seq<int>)
    requires |qa| == |a|
    ensures Rows(a + b, qa + qb) == Rows(a, qa) + Rows(b, qb)
  {
  }

  lemma {:induction false} KeepPurchasedAppend(a: seq<Row>, b: seq<Row>)
    ensures KeepPurchased(a + b) == KeepPurchased(a) + KeepPurchased(b)
  {
    if a != [] {
      assert (a + b)[1..] == a[1..] + b;
      KeepPurchasedAppend(a[1..], b);
    } else {
      assert a + b == b;
    }
  }

  lemma {:induction false} SumAppend(a: seq<PurchasedItem>, b: seq<PurchasedItem>)
    ensures Sum(a + b) == Sum(a) + Sum(b)
  {
    if a != [] {
      assert (a + b)[1..] == a[1..] + b;
      SumAppend(a[1..], b);
    } else {
      assert a + b == b;
    }
  }

  /** The lines of the receipt for the first `n + 1` entries are those for the
      first `n`, followed by the line of entry `n` when it was bought. */
  lemma ReceiptSnoc(itemList: seq<Item>, quantities: seq<int>)
    requires itemList != []
    ensures var n := |itemList| - 1;
      PurchasedItems(itemList, quantities)
        == PurchasedItems(itemList[..n], quantities)
           + (if Purchased(quantities, n) then [LineFor(itemList, quantities, n)] else [])
  {
    var n := |itemList| - 1;
    var rows := Rows(itemList, quantities);
    assert rows == Rows(itemList[..n], quantities) + [rows[n]];
    KeepPurchasedAppend(Rows(itemList[..n], quantities), [rows[n]]);
  }

  // ---------------------------------------------------------------------------
  // What the receipt is.

  /** The receipt lists, in catalog order, exactly one line per bought
      position, carrying that entry's name and price, its counter, and price
      times counter. */
  lemma {:induction false} ReceiptLinesExact(itemList: seq<Item>, quantities: seq<int>)
    ensures var idx := PurchasedIndices(|itemList|, quantities);
      var lines := GenerateReceipt(itemList, quantities).purchasedItems;
      && |lines| == |idx|
      && (forall k :: 0 <= k < |idx| ==>
            (idx[k] < |itemList| && Purchased(quantities, idx[k]) && lines[k] == LineFor(itemList, quantities, idx[k])))
      && (forall k, l :: 0 <= k < l < |idx| ==> idx[k] < idx[l])
      && (forall i :: 0 <= i < |itemList| && Purchased(quantities, i) ==> i in idx)
  {
    PurchasedIndicesExact(|itemList|, quantities);
    PurchasedItemsExact(itemList, quantities);
  }

  lemma {:induction false} PurchasedItemsExact(itemList: seq<Item>, quantities: seq<int>)
    ensures var idx := PurchasedIndices(|itemList|, quantities);
      var lines := PurchasedItems(itemList, quantities);
      && |lines| == |idx|
      && forall k :: 0 <= k < |idx| ==>
           (idx[k] < |itemList| && Purchased(quantities, idx[k]) && lines[k] == LineFor(itemList, quantities, idx[k]))
  {
    PurchasedIndicesExact(|itemList|, quantities);
    if itemList != [] {
      var n := |itemList| - 1;
      var prefix := itemList[..n];
      PurchasedItemsExact(prefix, quantities);
      ReceiptSnoc(itemList, quantities);
      var idx := PurchasedIndices(|itemList|, quantities);
      var lines := PurchasedItems(itemList, quantities);
      var idx' := PurchasedIndices(n, quantities);
      var lines' := PurchasedItems(prefix, quantities);
      assert idx == idx' + (if Purchased(quantities, n) then [n] else []);
      PurchasedIndicesExact(n, quantities);
      forall k | 0 <= k < |idx|
        ensures lines[k] == LineFor(itemList, quantities, idx[k])
      {
        if k < |idx'| {
          assert idx[k] == idx'[k] && lines[k] == lines'[k];
          assert lines'[k] == LineFor(prefix, quantities, idx'[k]);
        }
      }
    }
  }

  /** The total is what the order is worth, position by position. */
  lemma {:induction false} ReceiptTotalIsOrderValue(itemList: seq<Item>, quantities: seq<int>)
    ensures GenerateReceipt(itemList, quantities).total == OrderValue(itemList, quantities)
  {
    if itemList != [] {
      var n := |itemList| - 1;
      ReceiptTotalIsOrderValue(itemList[..n], quantities);
      ReceiptSnoc(itemList, quantities);
      var rest := if Purchased(quantities, n) then [LineFor(itemList, quantities, n)] else [];
      SumAppend(GenerateReceipt(itemList[..n], quantities).purchasedItems, rest);
    }
  }

  /** With one non-negative counter per entry, the total is the plain sum of
      price times counter: unbought entries contribute nothing. */
  lemma {:induction false} ReceiptTotalIsDotProduct(itemList: seq<Item>, quantities: seq<int>)
    requires |quantities| == |itemList| && NonNegative(quantities)
    ensures GenerateReceipt(itemList, quantities).total == DotProduct(itemList, quantities)
  {
    ReceiptTotalIsOrderValue(itemList, quantities);
    OrderValueIsDotProduct(itemList, quantities);
  }

  lemma {:induction false} OrderValueIsDotProduct(itemList: seq<Item>, quantities: seq<int>)
    requires |quantities| == |itemList| && NonNegative(quantities)
    ensures OrderValue(itemList, quantities) == DotProduct(itemList, quantities)
  {
    if itemList != [] {
      var n := |itemList| - 1;
      OrderValueIsDotProduct(itemList[..n], quantities[..n]);
      OrderValuePrefix(itemList[..n], quantities, n);
    }
  }

  /** Only the counters at positions of the list matter to what it is worth. */
  lemma {:induction false} OrderValuePrefix(itemList: seq<Item>, quantities: seq<int>, n: nat)
    requires |itemList| <= n <= |quantities|
    ensures OrderValue(itemList, quantities) == OrderValue(itemList, quantities[..n])
  {
    if itemList != [] {
      OrderValuePrefix(itemList[..|itemList| - 1], quantities, n);
    }
  }

  /** When no counter is positive the receipt is empty and its total is zero. */
  lemma NothingSelected(itemList: seq<Item>, quantities: seq<int>)
    requires forall i :: 0 <= i < |quantities| ==> quantities[i] <= 0
    ensures GenerateReceipt(itemList, quantities) == Receipt([], 0)
  {
    ReceiptLinesExact(itemList, quantities);
    PurchasedIndicesExact(|itemList|, quantities);
  }

  /** The receipt of two item lists placed one after the other, each with its
      own counters, lists the lines of the first and then those of the second,
      and its total is the sum of their totals. */
  lemma ReceiptAppend(a: seq<Item>, qa: seq<int>, b: seq<Item>, qb: seq<int>)
    requires |qa| == |a|
    ensures GenerateReceipt(a + b, qa + qb).purchasedItems
      == GenerateReceipt(a, qa).purchasedItems + GenerateReceipt(b, qb).purchasedItems
    ensures GenerateReceipt(a + b, qa + qb).total == GenerateReceipt(a, qa).total + GenerateReceipt(b, qb).total
  {
    RowsAppend(a, qa, b, qb);
    KeepPurchasedAppend(Rows(a, qa), Rows(b, qb));
    SumAppend(GenerateReceipt(a, qa).purchasedItems, GenerateReceipt(b, qb).purchasedItems);
  }

  /** The total does not depend on the order of the catalog: swapping two
      blocks of entries, together with their counters, leaves it unchanged. */
  lemma TotalOrderIndependent(a: seq<Item>, qa: seq<int>, b: seq<Item>, qb: seq<int>)
    requires |qa| == |a| && |qb| == |b|
    ensures GenerateReceipt(a + b, qa + qb).total == GenerateReceipt(b + a, qb + qa).total
  {
    ReceiptAppend(a, qa, b, qb);
    ReceiptAppend(b, qb, a, qa);
  }

  /** Entries added after the counters were sized have no counter, so they
      never reach the receipt. */
  lemma ReceiptIgnoresUncountedItems(itemList: seq<Item>, added: seq<Item>, quantities: seq<int>)
    requires |quantities| <= |itemList|
    ensures GenerateReceipt(itemList + added, quantities) == GenerateReceipt(itemList, quantities)
  {
    var rows := Rows(itemList, quantities);
    assert Rows(itemList + added, quantities) == rows + Rows(added, []);
    KeepPurchasedAppend(rows, Rows(added, []));
    NoneKept(Rows(added, []));
    assert KeepPurchased(rows) + [] == KeepPurchased(rows);
    assert GenerateReceipt(itemList + added, quantities).purchasedItems == KeepPurchased(rows);
  }

  lemma {:induction false} NoneKept(rows: seq<Row>)
    requires forall k :: 0 <= k < |rows| ==> rows[k].quantity.None?
    ensures KeepPurchased(rows) == []
  {
    if rows != [] {
      NoneKept(rows[1..]);
    }
  }

  /** The example order: two cookies at 20 000 and one latte at 28 000. */
  lemma CookieAndLatteExample()
    ensures GenerateReceipt([Item("Cookie", 20000), Item("Latte", 28000)], [2, 1])
      == Receipt([PurchasedItem("Cookie", 20000, 2, 40000), PurchasedItem("Latte", 28000, 1, 28000)], 68000)
  {
  }
}
