/** InvoiceApp.jsx: the item table with a slab per row, the GST breakdown
    that taxes the 5% rows at 2.5% + 2.5% and the 18% rows at 9% + 9%, and
    the totals. The amount in words is `IndianWords.WordsBelowCrore`. */
module InvoiceApp {
  import opened Numeric
  import opened LineItems

  /** One row of the GST breakdown. */
  datatype GstLine = GstLine(name: string, rate: real, amount: real)

  /** `items.filter((item) => item.gstRate === slab)`. */
  function OfSlab(s: seq<Item>, slab: int): (r: seq<Item>)
    ensures forall j :: 0 <= j < |r| ==> r[j].gstRate == slab
    decreases |s|
  {
    if s == [] then []
    else
      var init, last := s[..|s| - 1], s[|s| - 1];
      assert s == init + [last];
      OfSlab(init, slab) + (if last.gstRate == slab then [last] else [])
  }

  /** The filter keeps every row at the slab, as often as it occurs, and
      no other row. */
  lemma {:induction false} OfSlabCounts(s: seq<Item>, slab: int, x: Item)
    ensures multiset(OfSlab(s, slab))[x] == if x.gstRate == slab then multiset(s)[x] else 0
    decreases |s|
  {
    if s != [] {
      var init, last := s[..|s| - 1], s[|s| - 1];
      assert s == init + [last];
      OfSlabCounts(init, slab, x);
    }
  }

  /** `calculateGSTForRate`: the summed amounts of the rows at one slab. */
  function GstBase(s: seq<Item>, slab: int): real
  {
    Subtotal(OfSlab(s, slab))
  }

  /** `updateGSTBreakdown`: four lines with fixed labels; both 2.5% lines
      tax the 5% rows, both 9% lines tax the 18% rows. */
  function Breakdown(s: seq<Item>): seq<GstLine>
  {
    var base5, base18 := GstBase(s, 5), GstBase(s, 18);
    [ GstLine("Output CGST@ 2.5%", 2.5, base5 * 2.5 / 100.0),
      GstLine("Output SGST@ 2.5%", 2.5, base5 * 2.5 / 100.0),
      GstLine("Output CGST@9 %", 9.0, base18 * 9.0 / 100.0),
      GstLine("Output SGST@9 %", 9.0, base18 * 9.0 / 100.0) ]
  }

  /** `breakdown.reduce((sum, item) => sum + item.amount, 0)`. */
  function LinesTotal(lines: seq<GstLine>): real
    decreases |lines|
  {
    if lines == [] then 0.0 else LinesTotal(lines[..|lines| - 1]) + lines[|lines| - 1].amount
  }

  /** `calculateTotalGST`. */
  function TotalGst(s: seq<Item>): real
  {
    LinesTotal(Breakdown(s))
  }

  /** `calculateGrandTotal`: subtotal plus tax, rounded to whole rupees. */
  function GrandTotal(s: seq<Item>): (g: int)
    ensures Subtotal(s) + TotalGst(s) - 0.5 < g as real <= Subtotal(s) + TotalGst(s) + 0.5
  {
    Round(Subtotal(s) + TotalGst(s))
  }

  /** `calculateRoundOff`: the correction shown between the taxed total and
      the grand total. */
  function CalculateRoundOff(s: seq<Item>): (r: real)
    ensures -0.5 < r <= 0.5
    ensures Subtotal(s) + TotalGst(s) + r == GrandTotal(s) as real
  {
    RoundOff(Subtotal(s) + TotalGst(s))
  }

  // ---------------------------------------------------------------------
  // What the breakdown amounts to

  /** The tax one row carries under the bucketed scheme: 5% of rows at
      slab 5, 18% of rows at slab 18, nothing for any other slab. */
  function ItemTax(x: Item): real
  {
    if x.gstRate == 5 then x.amount * 5.0 / 100.0
    else if x.gstRate == 18 then x.amount * 18.0 / 100.0
    else 0.0
  }

  function TaxSum(s: seq<Item>): real
    decreases |s|
  {
    if s == [] then 0.0 else TaxSum(s[..|s| - 1]) + ItemTax(s[|s| - 1])
  }

  /** A slab's base grows by a new row's amount exactly when the row is at
      that slab. */
  lemma GstBaseAppend(s: seq<Item>, x: Item, slab: int)
    ensures GstBase(s + [x], slab) == GstBase(s, slab) + (if x.gstRate == slab then x.amount else 0.0)
  {
    assert (s + [x])[..|s|] == s;
    var o := OfSlab(s, slab);
    if x.gstRate == slab {
      assert OfSlab(s + [x], slab) == o + [x];
      SubtotalAppend(o, x);
    } else {
      assert OfSlab(s + [x], slab) == o + [];
      assert o + [] == o;
    }
  }

  /** The four lines add up to 5% of the slab-5 base plus 18% of the
      slab-18 base. */
  lemma TotalGstBySlab(s: seq<Item>)
    ensures TotalGst(s) == GstBase(s, 5) * 5.0 / 100.0 + GstBase(s, 18) * 18.0 / 100.0
  {
    var b := Breakdown(s);
    LinesTotalOfFour(b[0], b[1], b[2], b[3]);
    assert b == [b[0], b[1], b[2], b[3]];
  }

  lemma LinesTotalOfFour(a: GstLine, b: GstLine, c: GstLine, d: GstLine)
    ensures LinesTotal([a, b, c, d]) == a.amount + b.amount + c.amount + d.amount
  {
    assert [a][..0] == [];
    assert LinesTotal([a]) == a.amount;
    assert [a, b][..1] == [a];
    assert LinesTotal([a, b]) == a.amount + b.amount;
    assert [a, b, c][..2] == [a, b];
    assert LinesTotal([a, b, c]) == a.amount + b.amount + c.amount;
    assert [a, b, c, d][..3] == [a, b, c];
  }

  /** The breakdown's total is the row-by-row tax: each row at slab 5 or 18
      pays its slab, every other row pays nothing. */
  lemma {:induction false} TotalGstIsItemTax(s: seq<Item>)
    ensures TotalGst(s) == TaxSum(s)
    decreases |s|
  {
    TotalGstBySlab(s);
    if s != [] {
      var init, last := s[..|s| - 1], s[|s| - 1];
      assert s == init + [last];
      GstBaseAppend(init, last, 5);
      GstBaseAppend(init, last, 18);
      TotalGstIsItemTax(init);
      TotalGstBySlab(init);
    } else {
      assert OfSlab(s, 5) == [] && OfSlab(s, 18) == [];
    }
  }

  /** A row at slab 12 or 28 (or any slab but 5 and 18) raises the subtotal
      by its amount and the tax by nothing. */
  lemma UntaxedSlab(s: seq<Item>, x: Item)
    requires x.gstRate != 5 && x.gstRate != 18
    ensures Subtotal(s + [x]) == Subtotal(s) + x.amount
    ensures TotalGst(s + [x]) == TotalGst(s)
  {
    SubtotalAppend(s, x);
    TotalGstIsItemTax(s + [x]);
    TotalGstIsItemTax(s);
    assert (s + [x])[..|s|] == s;
  }

  /** When every row is at one of the four selectable slabs, the subtotal
      splits into the four slab bases. */
  lemma {:induction false} SubtotalBySlab(s: seq<Item>)
    requires forall j :: 0 <= j < |s| ==> s[j].gstRate in {5, 12, 18, 28}
    ensures Subtotal(s) == GstBase(s, 5) + GstBase(s, 12) + GstBase(s, 18) + GstBase(s, 28)
    decreases |s|
  {
    if s == [] {
      assert OfSlab(s, 5) == [] && OfSlab(s, 12) == [] && OfSlab(s, 18) == [] && OfSlab(s, 28) == [];
    } else {
      var init, last := s[..|s| - 1], s[|s| - 1];
      assert s == init + [last];
      SubtotalBySlab(init);
      SubtotalAppend(init, last);
      GstBaseAppend(init, last, 5);
      GstBaseAppend(init, last, 12);
      GstBaseAppend(init, last, 18);
      GstBaseAppend(init, last, 28);
    }
  }

  /** With no rows, everything is zero. */
  lemma EmptyTotals()
    ensures Subtotal([]) == 0.0 && TotalGst([]) == 0.0
    ensures GrandTotal([]) == 0 && CalculateRoundOff([]) == 0.0
  {
    TotalGstBySlab([]);
    assert OfSlab([], 5) == [] && OfSlab([], 18) == [];
  }

  /** Two rows: 200 at slab 5 and 100 at slab 18. */
  function ExampleItems(): seq<Item>
  {
    [ Item(1, "", "", 5, Some(2.0), Some(100.0), "PCS", 200.0),
      Item(2, "", "", 18, Some(1.0), Some(100.0), "PCS", 100.0) ]
  }

  /** A slab-5 row followed by a slab-18 row: each is its own slab's base. */
  lemma TwoRowBases(x: Item, y: Item)
    requires x.gstRate == 5 && y.gstRate == 18
    ensures GstBase([x, y], 5) == x.amount && GstBase([x, y], 18) == y.amount
    ensures Subtotal([x, y]) == x.amount + y.amount
  {
    assert [x, y] == [x] + [y];
    assert [x] == [] + [x];
    GstBaseAppend([], x, 5);
    GstBaseAppend([], x, 18);
    GstBaseAppend([x], y, 5);
    GstBaseAppend([x], y, 18);
    assert OfSlab([], 5) == [] && OfSlab([], 18) == [];
    SubtotalAppend([], x);
    SubtotalAppend([x], y);
  }

  /** The breakdown of the two example rows: 5 + 5 on the slab-5 row, 9 + 9
      on the slab-18 row, so 328 in all with nothing to round off. */
  lemma BreakdownExample()
    ensures var b := Breakdown(ExampleItems());
      b[0].amount == 5.0 && b[1].amount == 5.0 && b[2].amount == 9.0 && b[3].amount == 9.0
    ensures TotalGst(ExampleItems()) == 28.0
    ensures GrandTotal(ExampleItems()) == 328 && CalculateRoundOff(ExampleItems()) == 0.0
  {
    var s := ExampleItems();
    TwoRowBases(s[0], s[1]);
    assert s == [s[0], s[1]];
    TotalGstBySlab(s);
    RoundOfInteger(328);
  }

  // ---------------------------------------------------------------------
  // The item table

  /** The `items` state and the handlers that replace it. */
  class Editor {
    var items: seq<Item>

    /** At least one row, numbered 1..n, each amount matching its row. */
    ghost predicate Valid()
      reads this
    {
      |items| >= 1 && Numbered(items) && AllAmountsConsistent(items)
    }

    /** The initial table: one empty row. */
    constructor ()
      ensures Valid()
      ensures items == [NewItem(1, "PCS")]
    {
      items := [NewItem(1, "PCS")];
    }

    /** `addItem`: one new empty row numbered after the last. */
    method AddItem()
      requires Valid()
      modifies this
      ensures Valid()
      ensures items == old(items) + [NewItem(|old(items)| + 1, "PCS")]
      ensures Subtotal(items) == old(Subtotal(items))
    {
      SubtotalAppend(items, NewItem(|items| + 1, "PCS"));
      items := items + [NewItem(|items| + 1, "PCS")];
    }

    /** `removeItem`: with more than one row, drop the row at `index` and
      renumber; the last remaining row cannot be removed. */
    method RemoveItem(index: int)
      requires Valid()
      modifies this
      ensures Valid()
      ensures |old(items)| > 1 ==> items == Renumber(Without(old(items), index))
      ensures |old(items)| == 1 ==> items == old(items)
      ensures |old(items)| > 1 && 0 <= index < |old(items)| ==>
        Subtotal(items) == old(Subtotal(items)) - old(items)[index].amount
    {
      if |items| > 1 {
        var rest := Without(items, index);
        RenumberWithoutConsistent(items, index);
        RenumberNumbered(rest);
        SubtotalRenumber(rest);
        if 0 <= index < |items| {
          SubtotalWithout(items, index);
        }
        items := Renumber(rest);
      }
    }

    /** `updateItem`: change one field of the row at `index`. */
    method UpdateItem(index: int, e: ItemEdit)
      requires Valid() && 0 <= index < |items|
      modifies this
      ensures Valid()
      ensures items == old(items)[index := ApplyEdit(old(items)[index], e)]
      ensures Subtotal(items) == old(Subtotal(items)) - old(items)[index].amount + items[index].amount
    {
      var y := ApplyEdit(items[index], e);
      EditKeepsAmount(items[index], e);
      SubtotalUpdate(items, index, y);
      items := items[index := y];
    }
  }
}
