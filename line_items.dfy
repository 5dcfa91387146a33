/** The invoice line item that InvoiceApp.jsx and InvoiceGenerator.jsx share
    (same fields, same derived `amount`), and the list operations both use:
    dropping one row by index, renumbering the serial numbers, and the
    subtotal. */
module LineItems {
  import opened Numeric

  /** One row of the item table. `quantity` and `rate` are what `parseFloat`
      reads from their text fields; the text itself is display only.
      `gstRate` is the selected tax slab in percent. */
  datatype Item = Item(
    slno: int,
    goodsName: string,
    hsnSac: string,
    gstRate: int,
    quantity: Option<real>,
    rate: Option<real>,
    per: string,
    amount: real)

  /** One change to one field of a row, as the form fields issue them. */
  datatype ItemEdit =
    | GoodsName(text: string)
    | HsnSac(text: string)
    | GstRate(slab: int)
    | Quantity(q: Option<real>)
    | Rate(r: Option<real>)
    | Per(unit: string)

  /** `calculateItemAmount`: quantity times rate, a missing or unreadable
      factor counting as zero, with no rounding. */
  function ItemAmount(quantity: Option<real>, rate: Option<real>): (a: real)
    ensures quantity.None? || rate.None? ==> a == 0.0
    ensures quantity.Some? && rate.Some? ==> a == quantity.value * rate.value
  {
    Coerce(quantity) * Coerce(rate)
  }

  /** The row `addItem` appends: serial number `slno`, slab 5, empty text
      fields, amount 0, and the component's default unit. */
  function NewItem(slno: int, per: string): (x: Item)
    ensures x.slno == slno && x.gstRate == 5 && x.per == per && x.amount == 0.0
    ensures x.goodsName == "" && x.hsnSac == "" && x.quantity.None? && x.rate.None?
  {
    Item(slno, "", "", 5, None, None, per, 0.0)
  }

  /** `updateItem`: set the one field; a quantity or rate change also
      recomputes the amount from the row's new quantity and rate. */
  function ApplyEdit(x: Item, e: ItemEdit): (y: Item)
    ensures y.slno == x.slno
    ensures y.goodsName == (if e.GoodsName? then e.text else x.goodsName)
    ensures y.hsnSac == (if e.HsnSac? then e.text else x.hsnSac)
    ensures y.gstRate == (if e.GstRate? then e.slab else x.gstRate)
    ensures y.quantity == (if e.Quantity? then e.q else x.quantity)
    ensures y.rate == (if e.Rate? then e.r else x.rate)
    ensures y.per == (if e.Per? then e.unit else x.per)
    ensures e.Quantity? || e.Rate? ==> y.amount == ItemAmount(y.quantity, y.rate)
    ensures !(e.Quantity? || e.Rate?) ==> y.amount == x.amount
  {
    match e
    case GoodsName(t) => x.(goodsName := t)
    case HsnSac(t) => x.(hsnSac := t)
    case GstRate(g) => x.(gstRate := g)
    case Quantity(q) => var z := x.(quantity := q); z.(amount := ItemAmount(z.quantity, z.rate))
    case Rate(r) => var z := x.(rate := r); z.(amount := ItemAmount(z.quantity, z.rate))
    case Per(u) => x.(per := u)
  }

  /** A row whose amount is the product its quantity and rate give. */
  predicate AmountConsistent(x: Item)
  {
    x.amount == ItemAmount(x.quantity, x.rate)
  }

  predicate AllAmountsConsistent(s: seq<Item>)
  {
    forall j :: 0 <= j < |s| ==> AmountConsistent(s[j])
  }

  /** Serial numbers run 1, 2, ..., |s| down the table. */
  predicate Numbered(s: seq<Item>)
  {
    forall j :: 0 <= j < |s| ==> s[j].slno == j + 1
  }

  /** Every edit keeps a consistent row consistent: the amount only goes
      stale when neither factor changes, and then the product has not
      changed either. */
  lemma EditKeepsAmount(x: Item, e: ItemEdit)
    requires AmountConsistent(x)
    ensures AmountConsistent(ApplyEdit(x, e))
  {
  }

  /** `items.filter((_, i) => i !== index)`: the list without the row at
      `index`, in the same order; an index outside the list drops nothing. */
  function Without<T>(s: seq<T>, index: int): (r: seq<T>)
    ensures 0 <= index < |s| ==> |r| == |s| - 1
    ensures 0 <= index < |s| ==> forall j :: 0 <= j < |r| ==> r[j] == s[if j < index then j else j + 1]
    ensures !(0 <= index < |s|) ==> r == s
  {
    if 0 <= index < |s| then s[..index] + s[index + 1..] else s
  }

  /** Removing one row removes exactly that row: the multiset of rows
      loses one copy of it. */
  lemma WithoutMultiset<T>(s: seq<T>, index: int)
    requires 0 <= index < |s|
    ensures multiset(Without(s, index)) + multiset{s[index]} == multiset(s)
  {
    assert s == s[..index] + [s[index]] + s[index + 1..];
  }

  /** `map((item, i) => ({ ...item, slno: i + 1 }))`: each row keeps
      everything but its serial number, which becomes its position. */
  function Renumber(s: seq<Item>): (r: seq<Item>)
    ensures |r| == |s|
    ensures forall j :: 0 <= j < |s| ==> r[j] == s[j].(slno := j + 1)
    decreases |s|
  {
    if s == [] then []
    else Renumber(s[..|s| - 1]) + [s[|s| - 1].(slno := |s|)]
  }

  /** `items.reduce((sum, item) => sum + item.amount, 0)`, from the left. */
  function Subtotal(s: seq<Item>): real
    decreases |s|
  {
    if s == [] then 0.0 else Subtotal(s[..|s| - 1]) + s[|s| - 1].amount
  }

  lemma {:induction false} SubtotalConcat(a: seq<Item>, b: seq<Item>)
    ensures Subtotal(a + b) == Subtotal(a) + Subtotal(b)
    decreases |b|
  {
    if b == [] {
      assert a + b == a;
    } else {
      var c := b[..|b| - 1];
      assert (a + b)[..|a + b| - 1] == a + c;
      SubtotalConcat(a, c);
    }
  }

  /** Appending a row adds its amount. */
  lemma SubtotalAppend(s: seq<Item>, x: Item)
    ensures Subtotal(s + [x]) == Subtotal(s) + x.amount
  {
    assert (s + [x])[..|s|] == s;
  }

  lemma AroundIndex<T>(s: seq<T>, index: nat)
    requires index < |s|
    ensures s == s[..index] + ([s[index]] + s[index + 1..])
  {
  }

  /** Removing a row takes exactly its amount off the subtotal. */
  lemma SubtotalWithout(s: seq<Item>, index: nat)
    requires index < |s|
    ensures Subtotal(Without(s, index)) == Subtotal(s) - s[index].amount
  {
    var a, b := s[..index], s[index + 1..];
    AroundIndex(s, index);
    assert Without(s, index) == a + b;
    SubtotalConcat(a, [s[index]] + b);
    SubtotalConcat([s[index]], b);
    SubtotalConcat(a, b);
    assert Subtotal([s[index]]) == s[index].amount by {
      assert [s[index]][..0] == [];
    }
  }

  /** Replacing a row changes the subtotal by the difference of the amounts. */
  lemma SubtotalUpdate(s: seq<Item>, index: nat, x: Item)
    requires index < |s|
    ensures Subtotal(s[index := x]) == Subtotal(s) - s[index].amount + x.amount
  {
    var a, b := s[..index], s[index + 1..];
    AroundIndex(s, index);
    assert s[index := x] == a + ([x] + b);
    SubtotalConcat(a, [s[index]] + b);
    SubtotalConcat([s[index]], b);
    SubtotalConcat(a, [x] + b);
    SubtotalConcat([x], b);
    assert Subtotal([s[index]]) == s[index].amount by {
      assert [s[index]][..0] == [];
    }
    assert Subtotal([x]) == x.amount by {
      assert [x][..0] == [];
    }
  }

  /** Renumbering changes no amount, so no subtotal. */
  lemma {:induction false} SubtotalRenumber(s: seq<Item>)
    ensures Subtotal(Renumber(s)) == Subtotal(s)
    decreases |s|
  {
    if s != [] {
      var r := Renumber(s);
      assert r[..|r| - 1] == Renumber(s[..|s| - 1]);
      SubtotalRenumber(s[..|s| - 1]);
    }
  }

  /** Renumbering yields a contiguously numbered table. */
  lemma RenumberNumbered(s: seq<Item>)
    ensures Numbered(Renumber(s))
  {
  }

  /** Renumbering keeps the rows' amounts consistent; so does dropping one. */
  lemma RenumberWithoutConsistent(s: seq<Item>, index: int)
    requires AllAmountsConsistent(s)
    ensures AllAmountsConsistent(Renumber(Without(s, index)))
  {
    var w := Without(s, index);
    assert AllAmountsConsistent(w);
  }
}
