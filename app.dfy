/** App.jsx: rows are added from a draft form only when it is filled in,
    each row's amount is rounded to paise, rows are deleted after a
    confirmation, and the GST lines are free-form: each applies its rate to
    the whole subtotal and is rounded to paise. The amount in words is
    `IndianWords.Words`. */
module App {
  import opened Numeric
  import LineItems

  /** A row of the table, and also the draft the form edits. `quantity`
      and `rate` are `None` while their (numeric) fields are empty. */
  datatype AppItem = AppItem(
    goodsName: string,
    gst: string,
    quantity: Option<real>,
    rate: Option<real>,
    per: string,
    amount: real)

  /** One field change of the draft. */
  datatype DraftEdit =
    | GoodsName(text: string)
    | Gst(text: string)
    | Quantity(q: Option<real>)
    | Rate(r: Option<real>)
    | Per(unit: string)

  /** A GST line. `rate` is `parseFloat` of its field: `None` (NaN) once the
      field is cleared. The stored `amount` is never read; the amounts shown
      are recomputed from the subtotal. */
  datatype GstLine = GstLine(name: string, rate: Option<real>, amount: real)

  datatype GstLineEdit = LineName(text: string) | LineRate(value: Option<real>)

  /** The blank draft the form starts from and returns to. */
  const EmptyDraft: AppItem := AppItem("", "", None, None, "PCS", 0.0)

  /** The two lines the editor starts with. */
  const InitialGstLines: seq<GstLine> :=
    [GstLine("CGST @ 2.5%", Some(2.5), 0.0), GstLine("SGST @ 2.5%", Some(2.5), 0.0)]

  /** A whole number of paise: what `parseFloat(x.toFixed(2))` yields. */
  predicate InPaise(a: real)
  {
    (a * 100.0).Floor as real == a * 100.0
  }

  /** `calculateItemAmount`: quantity times rate (an empty field counting as
      zero), rounded to paise. */
  function ItemAmount(quantity: Option<real>, rate: Option<real>): (a: real)
    ensures InPaise(a)
    ensures -0.005 <= a - Coerce(quantity) * Coerce(rate) <= 0.005
  {
    Fixed2(Coerce(quantity) * Coerce(rate))
  }

  /** The guard of `handleAddItem`: a name, a quantity and a rate are filled in. */
  predicate Ready(d: AppItem)
  {
    d.goodsName != "" && d.quantity.Some? && d.rate.Some?
  }

  /** `setNewItem({ ...newItem, field: value })`. */
  function ApplyDraftEdit(d: AppItem, e: DraftEdit): (r: AppItem)
    ensures r.goodsName == (if e.GoodsName? then e.text else d.goodsName)
    ensures r.gst == (if e.Gst? then e.text else d.gst)
    ensures r.quantity == (if e.Quantity? then e.q else d.quantity)
    ensures r.rate == (if e.Rate? then e.r else d.rate)
    ensures r.per == (if e.Per? then e.unit else d.per)
    ensures r.amount == d.amount
  {
    match e
    case GoodsName(t) => d.(goodsName := t)
    case Gst(t) => d.(gst := t)
    case Quantity(q) => d.(quantity := q)
    case Rate(x) => d.(rate := x)
    case Per(u) => d.(per := u)
  }

  /** `updateGSTLine`: set the one field of a line. */
  function ApplyLineEdit(g: GstLine, e: GstLineEdit): (r: GstLine)
    ensures r.name == (if e.LineName? then e.text else g.name)
    ensures r.rate == (if e.LineRate? then e.value else g.rate)
    ensures r.amount == g.amount
  {
    match e
    case LineName(t) => g.(name := t)
    case LineRate(v) => g.(rate := v)
  }

  /** `items.reduce((sum, item) => sum + parseFloat(item.amount || 0), 0)`.
      The same fold as `LineItems.Subtotal`, over App.jsx's own row shape,
      which has a GST text field and no serial number or HSN code. */
  function Subtotal(items: seq<AppItem>): real
    decreases |items|
  {
    if items == [] then 0.0 else Subtotal(items[..|items| - 1]) + items[|items| - 1].amount
  }

  /** The amount `calculateGSTAmounts` shows for one line: the rate applied
      to the whole subtotal, rounded to paise; NaN when the rate is. */
  function LineAmount(subtotal: real, rate: Option<real>): (a: Option<real>)
    ensures a.None? <==> rate.None?
    ensures a.Some? ==> InPaise(a.value)
    ensures a.Some? ==> -0.005 <= a.value - Levy(subtotal, rate.value) <= 0.005
  {
    match rate
    case None => None
    case Some(r) => Some(Fixed2(Levy(subtotal, r)))
  }

  /** Adding amounts the way JavaScript adds numbers: NaN absorbs. */
  function AddAmount(x: Option<real>, y: Option<real>): Option<real>
  {
    if x.Some? && y.Some? then Some(x.value + y.value) else None
  }

  /** `totalGST`: the sum of the rounded line amounts. */
  function TotalGst(subtotal: real, lines: seq<GstLine>): Option<real>
    decreases |lines|
  {
    if lines == [] then Some(0.0)
    else AddAmount(TotalGst(subtotal, lines[..|lines| - 1]), LineAmount(subtotal, lines[|lines| - 1].rate))
  }

  /** `grandTotal`: subtotal plus GST, before rounding. */
  function GrandTotal(subtotal: real, lines: seq<GstLine>): Option<real>
  {
    AddAmount(Some(subtotal), TotalGst(subtotal, lines))
  }

  /** `finalTotal`: the grand total rounded to whole rupees. */
  function FinalTotal(subtotal: real, lines: seq<GstLine>): (f: Option<int>)
    ensures f.Some? == GrandTotal(subtotal, lines).Some?
    ensures f.Some? ==> GrandTotal(subtotal, lines).value - 0.5 < f.value as real <= GrandTotal(subtotal, lines).value + 0.5
  {
    match GrandTotal(subtotal, lines)
    case None => None
    case Some(g) => Some(Round(g))
  }

  /** `roundOff`: the correction from the grand total to the final total,
      as shown with two decimals. It lies in [-1/2, 1/2] and misses the
      exact correction by at most half a paisa. */
  function ShownRoundOff(subtotal: real, lines: seq<GstLine>): (r: Option<real>)
    ensures r.Some? == GrandTotal(subtotal, lines).Some?
    ensures r.Some? ==> -0.5 <= r.value <= 0.5 && InPaise(r.value)
    ensures r.Some? ==>
      -0.005 <= GrandTotal(subtotal, lines).value + r.value - FinalTotal(subtotal, lines).value as real <= 0.005
  {
    match GrandTotal(subtotal, lines)
    case None => None
    case Some(g) => Some(Fixed2(RoundOff(g)))
  }

  // ---------------------------------------------------------------------
  // What the totals amount to

  /** The rates of the lines added up, exactly. */
  function RateSum(lines: seq<GstLine>): real
    requires forall j :: 0 <= j < |lines| ==> lines[j].rate.Some?
    decreases |lines|
  {
    if lines == [] then 0.0 else RateSum(lines[..|lines| - 1]) + lines[|lines| - 1].rate.value
  }

  /** The GST total is NaN exactly when some line's rate is. */
  lemma {:induction false} TotalGstUndefined(subtotal: real, lines: seq<GstLine>)
    ensures TotalGst(subtotal, lines).None? <==> exists j :: 0 <= j < |lines| && lines[j].rate.None?
    decreases |lines|
  {
    if lines != [] {
      var init := lines[..|lines| - 1];
      TotalGstUndefined(subtotal, init);
      if exists j :: 0 <= j < |init| && init[j].rate.None? {
        var j :| 0 <= j < |init| && init[j].rate.None?;
        assert lines[j] == init[j];
      }
      if exists j :: 0 <= j < |lines| && lines[j].rate.None? {
        var j :| 0 <= j < |lines| && lines[j].rate.None?;
        if j < |init| { assert init[j] == lines[j]; }
      }
    }
  }

  /** Sums of whole paise are whole paise. */
  lemma InPaiseAdd(a: real, b: real)
    requires InPaise(a) && InPaise(b)
    ensures InPaise(a + b)
  {
    var ka, kb := (a * 100.0).Floor, (b * 100.0).Floor;
    assert (a + b) * 100.0 == (ka + kb) as real;
  }

  /** Since every stored row amount is in paise, so is the subtotal, and
      the subtotal shown with two decimals is the subtotal itself. */
  lemma {:induction false} SubtotalInPaise(items: seq<AppItem>)
    requires forall j :: 0 <= j < |items| ==> InPaise(items[j].amount)
    ensures InPaise(Subtotal(items))
    ensures Fixed2(Subtotal(items)) == Subtotal(items)
    decreases |items|
  {
    if items != [] {
      var init := items[..|items| - 1];
      assert forall j :: 0 <= j < |init| ==> init[j] == items[j];
      SubtotalInPaise(init);
      InPaiseAdd(Subtotal(init), items[|items| - 1].amount);
    }
    var c := (Subtotal(items) * 100.0).Floor;
    assert c as real / 100.0 == Subtotal(items);
    Fixed2OfCents(c);
  }

  /** The tax the lines would levy without rounding: the subtotal at the
      sum of the rates. */
  function ExactGst(subtotal: real, lines: seq<GstLine>): real
    requires forall j :: 0 <= j < |lines| ==> lines[j].rate.Some?
  {
    Levy(subtotal, RateSum(lines))
  }

  lemma ExactGstStep(subtotal: real, lines: seq<GstLine>)
    requires lines != [] && forall j :: 0 <= j < |lines| ==> lines[j].rate.Some?
    ensures ExactGst(subtotal, lines)
      == ExactGst(subtotal, lines[..|lines| - 1]) + Levy(subtotal, lines[|lines| - 1].rate.value)
  {
    var r, x := RateSum(lines[..|lines| - 1]), lines[|lines| - 1].rate.value;
    assert RateSum(lines) == r + x;
    LevyAdd(subtotal, r, x);
  }

  /** With every rate set, the GST total is the subtotal taxed at the sum of
      the rates, up to half a paisa of rounding per line. */
  lemma {:induction false} TotalGstNearExact(subtotal: real, lines: seq<GstLine>)
    requires forall j :: 0 <= j < |lines| ==> lines[j].rate.Some?
    ensures TotalGst(subtotal, lines).Some?
    ensures var d := TotalGst(subtotal, lines).value - ExactGst(subtotal, lines);
      -0.005 * |lines| as real <= d <= 0.005 * |lines| as real
    decreases |lines|
  {
    if lines != [] {
      var init, last := lines[..|lines| - 1], lines[|lines| - 1];
      assert forall j :: 0 <= j < |init| ==> init[j] == lines[j];
      TotalGstNearExact(subtotal, init);
      ExactGstStep(subtotal, lines);
      var a := LineAmount(subtotal, last.rate);
      assert TotalGst(subtotal, lines).value == TotalGst(subtotal, init).value + a.value;
    }
  }

  /** With no GST lines at all (every line removed) the final total is the
      subtotal rounded. */
  lemma NoGstLines(subtotal: real)
    ensures TotalGst(subtotal, []) == Some(0.0)
    ensures FinalTotal(subtotal, []) == Some(Round(subtotal))
  {
  }

  /** A subtotal of 1000 with the two initial 2.5% lines: 25.00 each, 50 of
      GST, 1050 in all, nothing to round off. */
  lemma InitialLinesExample()
    ensures LineAmount(1000.0, Some(2.5)) == Some(25.0)
    ensures TotalGst(1000.0, InitialGstLines) == Some(50.0)
    ensures FinalTotal(1000.0, InitialGstLines) == Some(1050)
    ensures ShownRoundOff(1000.0, InitialGstLines) == Some(0.0)
  {
    Fixed2OfCents(2500);
    assert InitialGstLines[..1][..0] == [];
    RoundOfInteger(1050);
    Fixed2OfCents(0);
  }

  // ---------------------------------------------------------------------
  // The editor state

  /** The `items`, `newItem`, `gstBreakup`, `deleteIndex` and
      `showDeleteModal` state and the handlers that change it. */
  class Editor {
    var items: seq<AppItem>
    var draft: AppItem
    var gstBreakup: seq<GstLine>
    var deleteIndex: Option<int>
    var showDeleteModal: bool

    /** Every stored row's amount is a whole number of paise. */
    ghost predicate Valid()
      reads this
    {
      forall j :: 0 <= j < |items| ==> InPaise(items[j].amount)
    }

    constructor ()
      ensures Valid()
      ensures items == [] && draft == EmptyDraft && gstBreakup == InitialGstLines
      ensures deleteIndex.None? && !showDeleteModal
    {
      items := [];
      draft := EmptyDraft;
      gstBreakup := InitialGstLines;
      deleteIndex := None;
      showDeleteModal := false;
    }

    /** A keystroke in one of the draft's fields. */
    method EditDraft(e: DraftEdit)
      requires Valid()
      modifies this`draft
      ensures Valid()
      ensures draft == ApplyDraftEdit(old(draft), e)
    {
      draft := ApplyDraftEdit(draft, e);
    }

    /** `handleAddItem`: a filled-in draft becomes a row, with its amount
      rounded to paise, and the form is cleared; otherwise nothing happens. */
    method HandleAddItem()
      requires Valid()
      modifies this`items, this`draft
      ensures Valid()
      ensures Ready(old(draft)) ==>
        items == old(items) + [old(draft).(amount := ItemAmount(old(draft).quantity, old(draft).rate))]
        && draft == EmptyDraft
      ensures !Ready(old(draft)) ==> items == old(items) && draft == old(draft)
    {
      if Ready(draft) {
        var row := draft.(amount := ItemAmount(draft.quantity, draft.rate));
        items := items + [row];
        draft := EmptyDraft;
      }
    }

    /** `confirmDelete`: remember the row and open the dialog. */
    method ConfirmDelete(index: int)
      requires Valid()
      modifies this`deleteIndex, this`showDeleteModal
      ensures Valid()
      ensures deleteIndex == Some(index) && showDeleteModal
    {
      deleteIndex := Some(index);
      showDeleteModal := true;
    }

    /** The dialog's cancel button: close it; the remembered index stays. */
    method CancelDelete()
      requires Valid()
      modifies this`showDeleteModal
      ensures Valid()
      ensures !showDeleteModal
    {
      showDeleteModal := false;
    }

    /** `handleDelete`: drop the remembered row (no minimum length), close
      the dialog and forget the index. With no index remembered, `filter`
      keeps every row. */
    method HandleDelete()
      requires Valid()
      modifies this`items, this`deleteIndex, this`showDeleteModal
      ensures Valid()
      ensures old(deleteIndex).Some? ==> items == LineItems.Without(old(items), old(deleteIndex).value)
      ensures old(deleteIndex).None? ==> items == old(items)
      ensures deleteIndex.None? && !showDeleteModal
    {
      if deleteIndex.Some? {
        items := LineItems.Without(items, deleteIndex.value);
      }
      showDeleteModal := false;
      deleteIndex := None;
    }

    /** `addGSTLine`: an unnamed line at rate 0. */
    method AddGstLine()
      requires Valid()
      modifies this`gstBreakup
      ensures Valid()
      ensures gstBreakup == old(gstBreakup) + [GstLine("", Some(0.0), 0.0)]
    {
      gstBreakup := gstBreakup + [GstLine("", Some(0.0), 0.0)];
    }

    /** `updateGSTLine`: change one field of the line at `index`. */
    method UpdateGstLine(index: int, e: GstLineEdit)
      requires Valid() && 0 <= index < |gstBreakup|
      modifies this`gstBreakup
      ensures Valid()
      ensures gstBreakup == old(gstBreakup)[index := ApplyLineEdit(old(gstBreakup)[index], e)]
    {
      gstBreakup := gstBreakup[index := ApplyLineEdit(gstBreakup[index], e)];
    }

    /** `removeGSTLine`: drop the line at `index`, even the last one. */
    method RemoveGstLine(index: int)
      requires Valid()
      modifies this`gstBreakup
      ensures Valid()
      ensures gstBreakup == LineItems.Without(old(gstBreakup), index)
    {
      gstBreakup := LineItems.Without(gstBreakup, index);
    }
  }
}
