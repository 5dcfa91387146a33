/** InvoiceGenerator.jsx: the same item table as InvoiceApp.jsx (default
    unit "PET"), and free-form GST outputs that each apply their rate to the
    whole subtotal. Whenever the items change, an effect recomputes every
    output from the new subtotal; the model runs that refresh as the last
    step of each item handler. The amount in words is `IndianWords.Words`. */
module InvoiceGenerator {
  import opened Numeric
  import opened LineItems

  /** One GST output line; `rate` is always a number here, because the
      rate field's text is coerced with `parseFloat(value) || 0`. */
  datatype GstOutput = GstOutput(name: string, rate: real, amount: real)

  datatype OutputEdit = OutputName(text: string) | OutputRate(value: Option<real>)

  /** The two outputs the editor starts with. */
  const InitialOutputs: seq<GstOutput> :=
    [GstOutput("Output CGST", 2.5, 0.0), GstOutput("Output SGST", 2.5, 0.0)]

  /** Every output's amount is its rate applied to the subtotal. */
  predicate Refreshed(subtotal: real, outs: seq<GstOutput>)
  {
    forall j :: 0 <= j < |outs| ==> outs[j].amount == Levy(subtotal, outs[j].rate)
  }

  /** `updateGstOutputs`: every output keeps its name and rate and gets the
      amount its rate levies on the subtotal. The items' own slabs play no
      part. */
  function Refresh(subtotal: real, outs: seq<GstOutput>): (r: seq<GstOutput>)
    ensures |r| == |outs|
    ensures forall j :: 0 <= j < |r| ==> r[j].name == outs[j].name && r[j].rate == outs[j].rate
    ensures Refreshed(subtotal, r)
    decreases |outs|
  {
    if outs == [] then []
    else
      var last := outs[|outs| - 1];
      Refresh(subtotal, outs[..|outs| - 1]) + [last.(amount := Levy(subtotal, last.rate))]
  }

  /** Refreshing outputs that are already up to date changes nothing; in
      particular refreshing twice is refreshing once. */
  lemma RefreshIdempotent(subtotal: real, outs: seq<GstOutput>)
    requires Refreshed(subtotal, outs)
    ensures Refresh(subtotal, outs) == outs
  {
    var r := Refresh(subtotal, outs);
    forall j | 0 <= j < |r|
      ensures r[j] == outs[j]
    {
      assert r[j].amount == outs[j].amount;
    }
  }

  /** `updateGstOutput`: a rate edit stores the coerced rate and recomputes
      this one amount from the subtotal; a name edit leaves the amount. */
  function ApplyOutputEdit(subtotal: real, g: GstOutput, e: OutputEdit): (r: GstOutput)
    ensures r.name == (if e.OutputName? then e.text else g.name)
    ensures r.rate == (if e.OutputRate? then Coerce(e.value) else g.rate)
    ensures e.OutputRate? ==> r.amount == Levy(subtotal, r.rate)
    ensures e.OutputName? ==> r.amount == g.amount
  {
    match e
    case OutputName(t) => g.(name := t)
    case OutputRate(v) => var x := Coerce(v); g.(rate := x, amount := Levy(subtotal, x))
  }

  /** `calculateTotalGst`: the outputs' amounts added up. */
  function TotalGst(outs: seq<GstOutput>): real
    decreases |outs|
  {
    if outs == [] then 0.0 else TotalGst(outs[..|outs| - 1]) + outs[|outs| - 1].amount
  }

  function RateSum(outs: seq<GstOutput>): real
    decreases |outs|
  {
    if outs == [] then 0.0 else RateSum(outs[..|outs| - 1]) + outs[|outs| - 1].rate
  }

  /** Up-to-date outputs levy the subtotal at the sum of their rates. */
  lemma {:induction false} TotalGstRefreshed(subtotal: real, outs: seq<GstOutput>)
    requires Refreshed(subtotal, outs)
    ensures TotalGst(outs) == Levy(subtotal, RateSum(outs))
    decreases |outs|
  {
    if outs != [] {
      var init, x := outs[..|outs| - 1], outs[|outs| - 1].rate;
      assert forall j :: 0 <= j < |init| ==> init[j] == outs[j];
      TotalGstRefreshed(subtotal, init);
      LevyAdd(subtotal, RateSum(init), x);
    }
  }

  /** `calculateGrandTotal`: subtotal plus GST rounded to whole rupees;
      `calculateRoundOff` of the same sum is what bridges the two. */
  function GrandTotal(items: seq<Item>, outs: seq<GstOutput>): (g: int)
    ensures var total := Subtotal(items) + TotalGst(outs);
      total - 0.5 < g as real <= total + 0.5 && g as real == total + RoundOff(total)
  {
    Round(Subtotal(items) + TotalGst(outs))
  }

  /** At the initial rates, 2.5% + 2.5%, the outputs levy 5% of the subtotal. */
  lemma InitialRates(subtotal: real)
    ensures TotalGst(Refresh(subtotal, InitialOutputs)) == Levy(subtotal, 5.0)
  {
    var r := Refresh(subtotal, InitialOutputs);
    TotalGstRefreshed(subtotal, r);
    assert r[..1][..0] == [];
    assert r[..1][0] == r[0];
    assert RateSum(r[..1]) == 2.5;
    assert RateSum(r) == 5.0;
  }

  // ---------------------------------------------------------------------
  // The editor state

  /** The `items` and `gstOutputs` state. */
  class Editor {
    var items: seq<Item>
    var gstOutputs: seq<GstOutput>

    /** The item table's invariant (as in InvoiceApp.jsx). */
    ghost predicate ItemsValid()
      reads this
    {
      |items| >= 1 && Numbered(items) && AllAmountsConsistent(items)
    }

    /** Between handlers: at least one output, all of them up to date. */
    ghost predicate Valid()
      reads this
    {
      ItemsValid() && |gstOutputs| >= 1 && Refreshed(Subtotal(items), gstOutputs)
    }

    constructor ()
      ensures Valid()
      ensures items == [NewItem(1, "PET")] && gstOutputs == InitialOutputs
    {
      var first := [NewItem(1, "PET")];
      assert Subtotal(first) == 0.0 by { assert first[..0] == []; }
      items := first;
      gstOutputs := InitialOutputs;
    }

    /** The effect that follows every change of `items`. */
    method UpdateGstOutputs()
      requires ItemsValid() && |gstOutputs| >= 1
      modifies this`gstOutputs
      ensures Valid()
      ensures gstOutputs == Refresh(Subtotal(items), old(gstOutputs))
    {
      gstOutputs := Refresh(Subtotal(items), gstOutputs);
    }

    /** `updateItem` and the refresh after it. */
    method UpdateItem(index: int, e: ItemEdit)
      requires Valid() && 0 <= index < |items|
      modifies this
      ensures Valid()
      ensures items == old(items)[index := ApplyEdit(old(items)[index], e)]
      ensures gstOutputs == Refresh(Subtotal(items), old(gstOutputs))
    {
      EditKeepsAmount(items[index], e);
      items := items[index := ApplyEdit(items[index], e)];
      UpdateGstOutputs();
    }

    /** `addItem` and the refresh after it. */
    method AddItem()
      requires Valid()
      modifies this
      ensures Valid()
      ensures items == old(items) + [NewItem(|old(items)| + 1, "PET")]
      ensures gstOutputs == Refresh(Subtotal(items), old(gstOutputs))
    {
      items := items + [NewItem(|items| + 1, "PET")];
      UpdateGstOutputs();
    }

    /** `removeItem`: with more than one row, keep the other rows and
      renumber them in place, then refresh; the last row stays. */
    method RemoveItem(index: int)
      requires Valid()
      modifies this
      ensures Valid()
      ensures |old(items)| > 1 ==>
        items == Renumber(Without(old(items), index))
        && gstOutputs == Refresh(Subtotal(items), old(gstOutputs))
      ensures |old(items)| == 1 ==> items == old(items) && gstOutputs == old(gstOutputs)
    {
      if |items| > 1 {
        var kept := Without(items, index);
        var rows := new Item[|kept|](j requires 0 <= j < |kept| => kept[j]);
        var i := 0;
        while i < rows.Length
          modifies rows
          invariant 0 <= i <= rows.Length
          invariant forall j :: 0 <= j < i ==> rows[j] == kept[j].(slno := j + 1)
          invariant forall j :: i <= j < rows.Length ==> rows[j] == kept[j]
        {
          rows[i] := rows[i].(slno := i + 1);
          i := i + 1;
        }
        assert rows[..] == Renumber(kept);
        RenumberWithoutConsistent(items, index);
        RenumberNumbered(kept);
        items := rows[..];
        UpdateGstOutputs();
      }
    }

    /** `addGstOutput`: an unnamed output at rate 0, whose amount 0 is up to
      date at any subtotal. */
    method AddGstOutput()
      requires Valid()
      modifies this`gstOutputs
      ensures Valid()
      ensures gstOutputs == old(gstOutputs) + [GstOutput("", 0.0, 0.0)]
    {
      gstOutputs := gstOutputs + [GstOutput("", 0.0, 0.0)];
    }

    /** `updateGstOutput`: change one field of the output at `index`. */
    method UpdateGstOutput(index: int, e: OutputEdit)
      requires Valid() && 0 <= index < |gstOutputs|
      modifies this`gstOutputs
      ensures Valid()
      ensures gstOutputs
        == old(gstOutputs)[index := ApplyOutputEdit(Subtotal(items), old(gstOutputs)[index], e)]
    {
      gstOutputs := gstOutputs[index := ApplyOutputEdit(Subtotal(items), gstOutputs[index], e)];
    }

    /** `removeGstOutput`: drop the output at `index` unless it is the only one. */
    method RemoveGstOutput(index: int)
      requires Valid()
      modifies this`gstOutputs
      ensures Valid()
      ensures |old(gstOutputs)| > 1 ==> gstOutputs == Without(old(gstOutputs), index)
      ensures |old(gstOutputs)| == 1 ==> gstOutputs == old(gstOutputs)
    {
      if |gstOutputs| > 1 {
        gstOutputs := Without(gstOutputs, index);
      }
    }
  }
}
