/** The bill editor: the items staged by detection are copied into the
    editor, the user changes quantities and prices or removes lines, and
    "Generate Bill" hands the lines with a positive quantity, with the
    running total, to the store. */
module BillEdit {
  import opened Types
  import AppDataStore

  // ---------------------------------------------------------------------
  // The running total
  // ---------------------------------------------------------------------

  function LineTotal(item: BillItem): real {
    item.price * item.quantity as real
  }

  /** The running total: price times quantity summed from the left. Lines
      with no negative price or quantity never total below zero. */
  function Total(items: seq<BillItem>): (r: real)
    ensures NonNegativeLines(items) ==> r >= 0.0
  {
    if items == [] then 0.0
    else
      var pre, last := items[..|items| - 1], items[|items| - 1];
      NonNegativeLinesPrefix(items);
      Total(pre) + LineTotal(last)
  }

  /** One more line adds its price times quantity to the total. */
  lemma TotalSnoc(s: seq<BillItem>, x: BillItem)
    ensures Total(s + [x]) == Total(s) + LineTotal(x)
  {
    assert (s + [x])[..|s|] == s;
  }

  /** The same sum taken from the right, the textbook definition. */
  function SumOfLines(items: seq<BillItem>): real {
    if items == [] then 0.0 else LineTotal(items[0]) + SumOfLines(items[1..])
  }

  /** The total of two runs of lines is the sum of their totals. */
  lemma {:induction false} TotalAppend(a: seq<BillItem>, b: seq<BillItem>)
    ensures Total(a + b) == Total(a) + Total(b)
    decreases |b|
  {
    if b == [] {
      assert a + b == a;
    } else {
      var pre := b[..|b| - 1];
      assert (a + b)[..|a + b| - 1] == a + pre;
      assert (a + b)[|a + b| - 1] == b[|b| - 1];
      TotalAppend(a, pre);
    }
  }

  /** The displayed total is the sum of price times quantity over the lines. */
  lemma {:induction false} TotalIsSumOfLines(items: seq<BillItem>)
    ensures Total(items) == SumOfLines(items)
    decreases |items|
  {
    if items != [] {
      TotalIsSumOfLines(items[1..]);
      TotalAppend([items[0]], items[1..]);
      assert [items[0]] + items[1..] == items;
      assert [items[0]][..0] == [];
    }
  }

  predicate NonNegativeLines(items: seq<BillItem>) {
    forall j :: 0 <= j < |items| ==> items[j].price >= 0.0 && items[j].quantity >= 0
  }

  /** The lines before the last keep the sign conditions, and the last line
      contributes no negative amount. */
  lemma NonNegativeLinesPrefix(items: seq<BillItem>)
    requires items != []
    ensures NonNegativeLines(items) ==>
      NonNegativeLines(items[..|items| - 1]) && LineTotal(items[|items| - 1]) >= 0.0
  {
    if NonNegativeLines(items) {
      var last := items[|items| - 1];
      assert forall j :: 0 <= j < |items| - 1 ==> items[..|items| - 1][j] == items[j];
      assert last.price * last.quantity as real >= 0.0 by {
        assert last.price >= 0.0 && last.quantity as real >= 0.0;
      }
    }
  }

  // ---------------------------------------------------------------------
  // Editing one line
  // ---------------------------------------------------------------------

  datatype Field = Quantity | Price

  /** The number typed into a field: the parsed value, with an unparsable
      entry (`None`) and anything below zero read as zero. */
  function EnteredAmount(parsed: Option<real>): (n: real)
    ensures n >= 0.0
    ensures parsed.Some? && parsed.value >= 0.0 ==> n == parsed.value
    ensures parsed.None? || parsed.value <= 0.0 ==> n == 0.0
  {
    Max0Real(parsed.GetOr(0.0))
  }

  /** A line with one field replaced by the entered amount; a quantity is
      rounded down to a whole number. */
  function EditedItem(item: BillItem, field: Field, parsed: Option<real>): (r: BillItem)
    ensures r.productId == item.productId && r.name == item.name
    ensures field == Quantity ==>
      r.price == item.price && r.quantity >= 0 &&
      r.quantity as real <= EnteredAmount(parsed) < r.quantity as real + 1.0
    ensures field == Price ==> r.quantity == item.quantity && r.price == EnteredAmount(parsed)
  {
    var n := EnteredAmount(parsed);
    match field
    case Quantity => item.(quantity := n.Floor)
    case Price => item.(price := n)
  }

  /** Editing a line keeps every price and quantity of the bill at or above zero. */
  lemma EditKeepsNonNegative(items: seq<BillItem>, index: int, field: Field, parsed: Option<real>)
    requires NonNegativeLines(items) && 0 <= index < |items|
    ensures NonNegativeLines(items[index := EditedItem(items[index], field, parsed)])
  {
  }

  // ---------------------------------------------------------------------
  // Removing one line
  // ---------------------------------------------------------------------

  /** The lines whose position is not `index`, in their order: the editor
      keeps every line but the one whose remove button was pressed. */
  function WithoutIndex(items: seq<BillItem>, index: int): (r: seq<BillItem>)
    ensures |r| == if 0 <= index < |items| then |items| - 1 else |items|
  {
    if items == [] then []
    else WithoutIndex(items[..|items| - 1], index)
         + (if |items| - 1 != index then [items[|items| - 1]] else [])
  }

  /** Removing a valid position drops exactly that line and keeps the others
      in order; any other position leaves the lines as they were. */
  lemma {:induction false} WithoutIndexRemovesOne(items: seq<BillItem>, index: int)
    ensures 0 <= index < |items| ==> WithoutIndex(items, index) == items[..index] + items[index + 1..]
    ensures 0 <= index < |items| ==> |WithoutIndex(items, index)| == |items| - 1
    ensures !(0 <= index < |items|) ==> WithoutIndex(items, index) == items
    decreases |items|
  {
    if items != [] {
      var n := |items| - 1;
      var pre := items[..n];
      WithoutIndexRemovesOne(pre, index);
      if index == n {
        assert items[..index] == pre;
        assert items[index + 1..] == [];
      } else if 0 <= index < n {
        assert pre[..index] == items[..index];
        assert pre[index + 1..] + [items[n]] == items[index + 1..];
      } else {
        assert pre + [items[n]] == items;
      }
    }
  }

  // ---------------------------------------------------------------------
  // The lines a bill is generated from
  // ---------------------------------------------------------------------

  /** The lines with a positive quantity, in their order. */
  function Billable(items: seq<BillItem>): (r: seq<BillItem>)
    ensures |r| <= |items|
    ensures forall j :: 0 <= j < |r| ==> r[j].quantity > 0
  {
    if items == [] then []
    else
      var last := items[|items| - 1];
      Billable(items[..|items| - 1]) + (if last.quantity > 0 then [last] else [])
  }

  /** One more line is billed after the others exactly when its quantity is positive. */
  lemma BillableSnoc(s: seq<BillItem>, x: BillItem)
    ensures Billable(s + [x]) == Billable(s) + (if x.quantity > 0 then [x] else [])
  {
    assert (s + [x])[..|s|] == s;
  }

  /** A line is billed exactly when it is one of the lines and its quantity is positive. */
  lemma {:induction false} BillableMembers(items: seq<BillItem>, x: BillItem)
    ensures x in Billable(items) <==> x in items && x.quantity > 0
    decreases |items|
  {
    if items != [] {
      var pre := items[..|items| - 1];
      var last := items[|items| - 1];
      assert items == pre + [last];
      BillableMembers(pre, x);
    }
  }

  /** Nothing is billed exactly when no line has a positive quantity. */
  lemma BillableEmpty(items: seq<BillItem>)
    ensures Billable(items) == [] <==> forall j :: 0 <= j < |items| ==> items[j].quantity <= 0
  {
    if Billable(items) == [] {
      forall j | 0 <= j < |items| ensures items[j].quantity <= 0 {
        BillableMembers(items, items[j]);
      }
    } else {
      BillableMembers(items, Billable(items)[0]);
    }
  }

  /** Filtering a run of lines filters each part in place: order is kept. */
  lemma {:induction false} BillableAppend(a: seq<BillItem>, b: seq<BillItem>)
    ensures Billable(a + b) == Billable(a) + Billable(b)
    decreases |b|
  {
    if b == [] {
      assert a + b == a;
    } else {
      var pre := b[..|b| - 1];
      assert (a + b)[..|a + b| - 1] == a + pre;
      assert (a + b)[|a + b| - 1] == b[|b| - 1];
      BillableAppend(a, pre);
    }
  }

  /** One more line with no negative quantity adds the same amount to the
      total of the billed lines as to the total of all lines. */
  lemma BillableKeepsTotalStep(s: seq<BillItem>, x: BillItem)
    requires x.quantity >= 0
    requires Total(Billable(s)) == Total(s)
    ensures Total(Billable(s + [x])) == Total(s + [x])
  {
    TotalSnoc(s, x);
    BillableSnoc(s, x);
    if x.quantity > 0 {
      TotalSnoc(Billable(s), x);
    } else {
      ZeroLine(x);
      assert Billable(s) + [] == Billable(s);
    }
  }

  /** A line of quantity zero adds nothing to a total. */
  lemma ZeroLine(x: BillItem)
    requires x.quantity == 0
    ensures LineTotal(x) == 0.0
  {
    assert x.quantity as real == 0.0;
  }

  /** With no negative quantity, the dropped lines add nothing: the total of
      the billed lines is the running total of all lines. */
  lemma {:induction false} BillableKeepsTotal(items: seq<BillItem>)
    requires AppDataStore.NonNegativeQuantities(items)
    ensures Total(Billable(items)) == Total(items)
    decreases |items|
  {
    if items != [] {
      var pre, last := items[..|items| - 1], items[|items| - 1];
      assert AppDataStore.NonNegativeQuantities(pre) by {
        forall j | 0 <= j < |pre| ensures pre[j].quantity >= 0 {
          assert pre[j] == items[j];
        }
      }
      BillableKeepsTotal(pre);
      BillableKeepsTotalStep(pre, last);
      assert pre + [last] == items;
    }
  }

  // ---------------------------------------------------------------------
  // The editor
  // ---------------------------------------------------------------------

  class BillEditor {
    var items: seq<BillItem>

    /** The editor starts from a copy of the staged items (none if there are none). */
    constructor (pending: seq<BillItem>)
      ensures items == pending
    {
      items := if |pending| > 0 then pending else [];
    }

    /** Overwrites one field of the line at `index` with the entered amount. */
    method UpdateItem(index: nat, field: Field, parsed: Option<real>)
      requires index < |items|
      modifies this
      ensures items == old(items)[index := EditedItem(old(items)[index], field, parsed)]
    {
      var next := items;
      next := next[index := EditedItem(next[index], field, parsed)];
      items := next;
    }

    /** Drops the line at `index`; any other position changes nothing. */
    method RemoveItem(index: int)
      modifies this
      ensures items == WithoutIndex(old(items), index)
    {
      items := WithoutIndex(items, index);
    }

    /** Hands the lines with a positive quantity and the running total to the
        store; does nothing and returns `None` when there is no such line. */
    method GenerateBill(store: AppDataStore.AppStore, clock: string, createdAt: string)
      returns (billId: Option<string>)
      requires store.Valid()
      modifies store
      ensures store.Valid()
      ensures billId.None? <==> Billable(items) == []
      ensures billId.None? <==> forall j :: 0 <= j < |items| ==> items[j].quantity <= 0
      ensures billId.None? ==> unchanged(store)
      ensures billId.Some? ==>
        && billId.value == "bill-" + clock
        && store.data.bills == [Bill(billId.value, Billable(items), Total(items), createdAt)] + old(store.data.bills)
        && store.data.inventory == AppDataStore.SellAll(old(store.data.inventory), Billable(items))
        && store.data.profile == old(store.data.profile)
        && store.saved == Some(store.data)
        && store.pendingBillItems == [] && store.lastGeneratedBillId == billId
    {
      var valid := Billable(items);
      BillableEmpty(items);
      if |valid| == 0 {
        return None;
      }
      var id := store.AddBill(valid, Total(items), clock, createdAt);
      billId := Some(id);
    }
  }
}
