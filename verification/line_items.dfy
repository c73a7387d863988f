/** The line items of the service being edited, as values: what selecting a
    stock, changing a quantity and removing a line do to the sequence, and the
    total they add up to. */
module LineItems {
  import opened Wrappers
  import opened Entities

  /** What one line adds to the bill. */
  function Cost(line: LineItem): int
  {
    line.price * line.quantityUsed
  }

  /** `stocks.reduce((sum, item) => sum + item.price * item.quantityUsed, 0)`,
      folded from the left as `reduce` does. */
  function Total(lines: seq<LineItem>): int
  {
    if lines == [] then 0 else Total(lines[..|lines| - 1]) + Cost(lines[|lines| - 1])
  }

  /** Changing a line's quantity by `change` moves its cost by its price times
      `change`. */
  lemma CostAfterChange(line: LineItem, change: int)
    ensures Cost(line.(quantityUsed := line.quantityUsed + change)) == Cost(line) + line.price * change
  {
    var p, n := line.price, line.quantityUsed;
    assert p * (n + change) == p * n + p * change;
  }

  /** One line totals its own cost. */
  lemma TotalSingleton(x: LineItem)
    ensures Total([x]) == Cost(x)
  {
    assert [x][..0] == [];
  }

  /** The total of two runs of lines is the sum of their totals. */
  lemma {:induction false} TotalConcat(a: seq<LineItem>, b: seq<LineItem>)
    ensures Total(a + b) == Total(a) + Total(b)
    decreases |b|
  {
    if b == [] {
      assert a + b == a;
    } else {
      var b' := b[..|b| - 1];
      TotalConcat(a, b');
      assert (a + b)[..|a + b| - 1] == a + b';
    }
  }

  /** Replacing one line changes the total by the difference of the two lines'
      costs. */
  lemma TotalUpdate(lines: seq<LineItem>, i: nat, line: LineItem)
    requires i < |lines|
    ensures Total(lines[i := line]) == Total(lines) - Cost(lines[i]) + Cost(line)
  {
    assert lines == lines[..i] + [lines[i]] + lines[i + 1..];
    assert lines[i := line] == lines[..i] + [line] + lines[i + 1..];
    TotalConcat(lines[..i] + [lines[i]], lines[i + 1..]);
    TotalConcat(lines[..i] + [line], lines[i + 1..]);
    TotalConcat(lines[..i], [lines[i]]);
    TotalConcat(lines[..i], [line]);
  }

  /** Stock ids are pairwise distinct: the invariant selecting a stock keeps. */
  predicate DistinctStocks(lines: seq<LineItem>)
  {
    forall i, j :: 0 <= i < j < |lines| ==> lines[i].stockId != lines[j].stockId
  }

  /** Every line has a positive quantity: a line whose quantity reaches 0 is
      dropped. */
  predicate PositiveQuantities(lines: seq<LineItem>)
  {
    forall i :: 0 <= i < |lines| ==> lines[i].quantityUsed >= 1
  }

  /** `stocks.find(item => item.stockId === id)`, as the index of the first line
      for that stock id. */
  function FirstIndexOf(lines: seq<LineItem>, id: Option<int>): (r: Option<nat>)
    ensures r.None? <==> forall k :: 0 <= k < |lines| ==> lines[k].stockId != id
    ensures r.Some? ==>
      && r.value < |lines| && lines[r.value].stockId == id
      && forall k :: 0 <= k < r.value ==> lines[k].stockId != id
    decreases |lines|
  {
    if lines == [] then None
    else if lines[0].stockId == id then Some(0)
    else match FirstIndexOf(lines[1..], id)
      case None => None
      case Some(k) => Some(k + 1)
  }

  /** The line appended for a stock selected for the first time. */
  function NewLine(s: Stock): LineItem
  {
    LineItem(None, s.id, s.price, s.itemName, 1)
  }

  /** `selectStock(s)`: one more of the first line for `s.id`, or a new line at
      the end when there is none. */
  function AddStock(lines: seq<LineItem>, s: Stock): (r: seq<LineItem>)
    ensures |r| == |lines| || |r| == |lines| + 1
    ensures FirstIndexOf(r, s.id).Some?
  {
    match FirstIndexOf(lines, s.id)
    case Some(j) =>
      var r := lines[j := lines[j].(quantityUsed := lines[j].quantityUsed + 1)];
      assert r[j].stockId == s.id;
      r
    case None =>
      var r := lines + [NewLine(s)];
      assert r[|lines|].stockId == s.id;
      r
  }

  /** Selecting a stock that already has a line adds exactly one to the first
      such line's quantity and changes nothing else, the length included; with
      distinct stock ids that line is the only one for the stock. */
  lemma AddStockExisting(lines: seq<LineItem>, s: Stock, j: nat)
    requires FirstIndexOf(lines, s.id) == Some(j)
    ensures |AddStock(lines, s)| == |lines|
    ensures AddStock(lines, s)[j] == lines[j].(quantityUsed := lines[j].quantityUsed + 1)
    ensures forall k :: 0 <= k < |lines| && k != j ==> AddStock(lines, s)[k] == lines[k]
    ensures DistinctStocks(lines) ==> forall k :: 0 <= k < |lines| && k != j ==> lines[k].stockId != s.id
  {
  }

  /** Selecting a stock that has no line appends exactly one line, with
      quantity 1 and the stock's current name and price. */
  lemma AddStockNew(lines: seq<LineItem>, s: Stock)
    requires forall k :: 0 <= k < |lines| ==> lines[k].stockId != s.id
    ensures AddStock(lines, s) == lines + [LineItem(None, s.id, s.price, s.itemName, 1)]
  {
  }

  /** Selecting a stock keeps stock ids distinct and quantities positive, and
      adds the unit price of the line it touched to the total. */
  lemma AddStockKeeps(lines: seq<LineItem>, s: Stock)
    ensures DistinctStocks(lines) ==> DistinctStocks(AddStock(lines, s))
    ensures PositiveQuantities(lines) ==> PositiveQuantities(AddStock(lines, s))
    ensures Total(AddStock(lines, s)) == Total(lines) + match FirstIndexOf(lines, s.id)
      case Some(j) => lines[j].price
      case None => s.price
  {
    match FirstIndexOf(lines, s.id)
    case Some(j) =>
      var line := lines[j].(quantityUsed := lines[j].quantityUsed + 1);
      assert AddStock(lines, s) == lines[j := line];
      TotalUpdate(lines, j, line);
      CostAfterChange(lines[j], 1);
    case None =>
      assert AddStock(lines, s) == lines + [NewLine(s)];
      TotalConcat(lines, [NewLine(s)]);
      TotalSingleton(NewLine(s));
  }

  /** Selecting the same stock twice on an empty service gives one line with
      quantity 2 and a total of twice the price. */
  lemma SelectTwice(s: Stock)
    ensures AddStock(AddStock([], s), s) == [LineItem(None, s.id, s.price, s.itemName, 2)]
    ensures Total(AddStock(AddStock([], s), s)) == 2 * s.price
  {
    var once := AddStock([], s);
    assert once == [NewLine(s)];
    assert FirstIndexOf(once, s.id) == Some(0);
  }

  /** `stocks.splice(i, 1)`. */
  function RemoveAt(lines: seq<LineItem>, i: nat): (r: seq<LineItem>)
    requires i < |lines|
    ensures |r| == |lines| - 1
    ensures forall k :: 0 <= k < i ==> r[k] == lines[k]
    ensures forall k :: i <= k < |r| ==> r[k] == lines[k + 1]
  {
    lines[..i] + lines[i + 1..]
  }

  /** Removing a line takes its cost off the total. */
  lemma RemoveAtTotal(lines: seq<LineItem>, i: nat)
    requires i < |lines|
    ensures Total(RemoveAt(lines, i)) == Total(lines) - Cost(lines[i])
  {
    var x, before, rest, after := lines[i], lines[..i], lines[i..], lines[i + 1..];
    assert lines == before + rest;
    assert rest == [x] + after;
    TotalConcat(before, rest);
    TotalConcat([x], after);
    TotalSingleton(x);
    assert RemoveAt(lines, i) == before + after;
    TotalConcat(before, after);
  }

  /** Removing a line drops exactly that line: the others remain, as a
      multiset. */
  lemma RemoveAtMultiset(lines: seq<LineItem>, i: nat)
    requires i < |lines|
    ensures multiset(RemoveAt(lines, i)) + multiset{lines[i]} == multiset(lines)
  {
    assert lines == lines[..i] + [lines[i]] + lines[i + 1..];
  }

  /** Removing a line keeps stock ids distinct and quantities positive. */
  lemma RemoveAtKeeps(lines: seq<LineItem>, i: nat)
    requires i < |lines|
    ensures DistinctStocks(lines) ==> DistinctStocks(RemoveAt(lines, i))
    ensures PositiveQuantities(lines) ==> PositiveQuantities(RemoveAt(lines, i))
  {
    var r := RemoveAt(lines, i);
    if DistinctStocks(lines) {
      forall a, b | 0 <= a < b < |r| ensures r[a].stockId != r[b].stockId {
        var a', b' := if a < i then a else a + 1, if b < i then b else b + 1;
        assert r[a] == lines[a'] && r[b] == lines[b'];
      }
    }
  }

  /** `updateQty(i, change)`: line `i` gets `change` more; a line whose
      quantity drops to 0 or below is removed. */
  function AdjustQty(lines: seq<LineItem>, i: nat, change: int): (r: seq<LineItem>)
    requires i < |lines|
    ensures |r| == |lines| || |r| == |lines| - 1
  {
    var q := lines[i].quantityUsed + change;
    if q <= 0 then RemoveAt(lines, i) else lines[i := lines[i].(quantityUsed := q)]
  }

  /** A change that leaves line `i` at 0 or below removes exactly that line
      (the others keep their order) and takes its cost off the total. */
  lemma AdjustQtyRemoves(lines: seq<LineItem>, i: nat, change: int)
    requires i < |lines| && lines[i].quantityUsed + change <= 0
    ensures AdjustQty(lines, i, change) == RemoveAt(lines, i)
    ensures Total(AdjustQty(lines, i, change)) == Total(lines) - Cost(lines[i])
  {
    RemoveAtTotal(lines, i);
  }

  /** A change that leaves line `i` positive keeps every line in its place,
      changes only that line's quantity, and moves the total by its price
      times the change. */
  lemma AdjustQtyUpdates(lines: seq<LineItem>, i: nat, change: int)
    requires i < |lines| && lines[i].quantityUsed + change > 0
    ensures |AdjustQty(lines, i, change)| == |lines|
    ensures AdjustQty(lines, i, change)[i] == lines[i].(quantityUsed := lines[i].quantityUsed + change)
    ensures forall k :: 0 <= k < |lines| && k != i ==> AdjustQty(lines, i, change)[k] == lines[k]
    ensures Total(AdjustQty(lines, i, change)) == Total(lines) + lines[i].price * change
  {
    var q := lines[i].quantityUsed + change;
    var line := lines[i].(quantityUsed := q);
    assert AdjustQty(lines, i, change) == lines[i := line];
    TotalUpdate(lines, i, line);
    CostAfterChange(lines[i], change);
  }

  /** Changing a quantity keeps stock ids distinct and quantities positive. */
  lemma AdjustQtyKeeps(lines: seq<LineItem>, i: nat, change: int)
    requires i < |lines|
    ensures DistinctStocks(lines) ==> DistinctStocks(AdjustQty(lines, i, change))
    ensures PositiveQuantities(lines) ==> PositiveQuantities(AdjustQty(lines, i, change))
  {
    if lines[i].quantityUsed + change <= 0 {
      RemoveAtKeeps(lines, i);
    }
  }
}
