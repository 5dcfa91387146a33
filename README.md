# Invoice computation core — Dafny model

A model of the invoice arithmetic that three React components carry, each in
its own copy: `src/InvoiceApp.jsx`, `src/App.jsx` and `src/InvoiceGenerator.jsx`.
Each component keeps an item table and a set of GST lines. It derives a
subtotal, the GST, a total rounded to whole rupees with its round-off, and
the total written out in words in the Indian numbering system (Hundred,
Thousand, Lakh = 10^5, Crore = 10^7).

Modules:

- `Numeric` (`numeric.dfy`): JavaScript's number coercion `parseFloat(x) || 0`,
  read as `Option<real>` with `None` counting as 0. It also holds `Math.round`
  (ties go toward +∞), `toFixed(2)` read back as a number, and the round-off
  `Math.round(t) - t`. Amounts are exact `real`s.
- `IndianWords` (`indian_words.dfy`): both variants of `numberToWords`.
  `WordsBelowCrore` is the variant in InvoiceApp.jsx. `Words` is the variant in
  App.jsx and InvoiceGenerator.jsx, whose two texts are the same. A reader
  `Parse`, built on JavaScript's `split(" ")`, turns such a text back into a
  number. The properties of both renderers are proved against it.
- `LineItems` (`line_items.dfy`): the row shape that InvoiceApp.jsx and
  InvoiceGenerator.jsx share, its field update with the derived amount, and
  the subtotal. It also holds dropping a row by index (`filter`) and
  renumbering the serial numbers.
- `InvoiceApp`, `App`, `InvoiceGenerator` (`invoice_app.dfy`, `app.dfy`,
  `invoice_generator.dfy`): each component's tax scheme and totals as
  functions, and its React state as a class `Editor`. Each event handler is a
  method of that class that takes the state from one value to the next.
  - InvoiceApp taxes rows by slab: the 5% rows at 2.5% + 2.5%, the 18% rows
    at 9% + 9%.
  - App and InvoiceGenerator apply every GST line's rate to the whole
    subtotal.
  - App rounds each row amount and each GST line to paise.
  - InvoiceGenerator keeps its output amounts up to date with an effect. The
    model runs that effect as the last step of every item handler, and the
    class invariant says every output is up to date.

Where the three components differ from one another, or do something unexpected:

- Only App.jsx rounds item amounts. InvoiceApp.jsx and InvoiceGenerator.jsx
  keep the exact product.
- InvoiceApp.jsx offers slabs 12 and 28, but no GST line taxes those rows.
  They count towards the subtotal and carry no tax (`InvoiceApp.UntaxedSlab`).
- The InvoiceApp.jsx renderer writes the Lakh band's thousands by hand and
  stops at one Crore. The other renderer re-enters itself. Below one Crore
  the two agree (`IndianWords.VariantsAgree`).
- App.jsx's rows have a shape of their own: a GST text field, no serial
  number and no HSN code. `App.AppItem` and `App.Subtotal` keep that shape
  apart from the `LineItems` row the other two components share.
- App.jsx's `handleDelete` filters with whatever index was last confirmed.
  With no index (`null`), it keeps every row. Cancelling leaves the index in
  place. It has no minimum-length guard, and neither does `removeGSTLine`.

## Model

| member | source | states |
|---|---|---|
| Numeric.Coerce | src/InvoiceGenerator.jsx:62-63 | the coercion `parseFloat(x)` or else 0: the value read, or 0 when the text is empty or unreadable |
| Numeric.Cents | src/App.jsx:49 | the number of paise `toFixed(2)` prints: within half a paisa of 100·x, ties away from zero |
| Numeric.Levy | src/InvoiceGenerator.jsx:113 | the amount a line at a rate levies on a base, `base * rate / 100`; `LevyAdd` states how levies add |
| Numeric.Round | src/InvoiceApp.jsx:146-148 | `Math.round(x)` is the integer within half a unit of x, ties rounding up: x - 1/2 < n <= x + 1/2 |
| Numeric.RoundUnique | src/InvoiceApp.jsx:146-148 | the rounding is determined: any integer m with x - 1/2 < m <= x + 1/2 is `Round(x)` |
| Numeric.RoundOff | src/InvoiceApp.jsx:140-143 | the round-off lies in (-1/2, 1/2] and added to the total gives the rounded total |
| Numeric.Fixed2 | src/App.jsx:48-50 | `toFixed(2)` read back is a whole number of paise within half a paisa of x, and not negative for x >= 0 |
| Numeric.Fixed2OfCents | src/App.jsx:87 | an amount already in paise is left as it is |
| Numeric.RoundOfInteger | src/App.jsx:97-98 | a whole total rounds to itself with round-off 0 |
| IndianWords.BelowThousand | src/App.jsx:140-153 | `convertLessThanThousand`: the text for 0..999 from the ones, teens and tens tables and " Hundred"; what it means is stated by `BelowThousandRead` and `BelowThousandWords` |
| IndianWords.Words | src/App.jsx:100-176 | `numberToWords` of App.jsx and InvoiceGenerator.jsx, defined below 10^10; its meaning is stated by `ParseWords`, `WordsWellFormed` and `WordsInjective` |
| IndianWords.WordsBelowCrore | src/InvoiceApp.jsx:151-225 | `numberToWords` of InvoiceApp.jsx; its meaning is stated by `ParseWordsBelowCrore` and `VariantsAgree` |
| IndianWords.BelowThousandWords | src/App.jsx:140-153 | the below-thousand text for 0 < k < 1000 splits into table and scale words only |
| IndianWords.ParseWords | src/App.jsx:100-176 | reading back the words for any n below 10^10 gives n |
| IndianWords.WordsInjective | src/InvoiceGenerator.jsx:165-240 | two amounts below 10^10 with the same words are equal |
| IndianWords.WordsWellFormed | src/InvoiceGenerator.jsx:165-240 | for 0 < n < 10^10 every space-separated piece of the text is a number word or a scale word: no empty piece, no "undefined" |
| IndianWords.WordsRead | src/App.jsx:163-175 | reading the words for n adds n's part from a thousand up to the finished total and leaves n mod 1000 as the open group |
| IndianWords.BelowThousandRead | src/App.jsx:140-153 | the below-thousand text for 0 < k < 1000 reads back as the group k |
| IndianWords.BandRead | src/App.jsx:163-175 | a band prefix "k Thousand/Lakh/Crore" reads back as k times the scale |
| IndianWords.SplitAtSpace | src/App.jsx:160-175 | splitting a text joined with " " splits both halves |
| IndianWords.ParseWordsBelowCrore | src/InvoiceApp.jsx:151-225 | below one Crore the words read back as n; from one Crore on the text is "Number too large" |
| IndianWords.VariantsAgree | src/InvoiceApp.jsx:205-223 | below one Crore both renderers give the same text |
| IndianWords.WordsExamples | src/App.jsx:138-175 | 0 is "Zero", 19 is "Nineteen", 20 is "Twenty", 100 is "One Hundred", 100000 is "One Lakh" |
| IndianWords.WordsExampleLakh | src/InvoiceGenerator.jsx:225-233 | 1234567 is "Twelve Lakh Thirty Four Thousand Five Hundred Sixty Seven" |
| IndianWords.WordsExampleCrore | src/App.jsx:171-175 | 30000005 is "Three Crore Five" |
| IndianWords.WordsBelowCroreExamples | src/InvoiceApp.jsx:205-224 | the InvoiceApp renderer gives "Zero" for 0, the Lakh example above, and "Number too large" at one Crore |
| LineItems.ItemAmount | src/InvoiceGenerator.jsx:61-65 | quantity times rate, unrounded, and 0 when either field is empty or unreadable |
| LineItems.NewItem | src/InvoiceApp.jsx:60-74 | the appended row: next serial number, slab 5, the given unit, amount 0, empty text fields |
| LineItems.ApplyEdit | src/InvoiceApp.jsx:85-97 | an edit sets only its own field; the amount is recomputed exactly when quantity or rate changes |
| LineItems.EditKeepsAmount | src/InvoiceGenerator.jsx:68-75 | after any edit the row's amount still matches its quantity and rate |
| LineItems.Without | src/InvoiceApp.jsx:79 | the filtered list is one shorter, keeps the other rows in order, and is unchanged for an index outside the list |
| LineItems.WithoutMultiset | src/InvoiceGenerator.jsx:97 | the filter removes exactly one copy of the row at the index |
| LineItems.Renumber | src/InvoiceApp.jsx:80 | every row keeps all fields but its serial number, which becomes its position + 1 |
| LineItems.RenumberNumbered | src/InvoiceGenerator.jsx:98 | after renumbering the serial numbers run 1..n |
| LineItems.Subtotal | src/InvoiceApp.jsx:100-102 | the `reduce` over the rows' amounts; `SubtotalConcat`, `SubtotalAppend`, `SubtotalWithout`, `SubtotalUpdate` and `SubtotalRenumber` state how it moves |
| LineItems.SubtotalConcat | src/InvoiceApp.jsx:100-102 | the subtotal of two lists joined is the sum of their subtotals |
| LineItems.SubtotalAppend | src/InvoiceApp.jsx:100-102 | appending a row adds its amount to the subtotal |
| LineItems.SubtotalWithout | src/InvoiceApp.jsx:77-82 | removing a row takes exactly its amount off the subtotal |
| LineItems.SubtotalUpdate | src/InvoiceApp.jsx:85-97 | replacing a row changes the subtotal by the difference of the amounts |
| LineItems.SubtotalRenumber | src/InvoiceGenerator.jsx:95-101 | renumbering leaves the subtotal unchanged |
| LineItems.RenumberWithoutConsistent | src/InvoiceApp.jsx:77-82 | dropping and renumbering keeps every amount consistent with its row |
| InvoiceApp.GstBase | src/InvoiceApp.jsx:105-109 | `calculateGSTForRate`: the subtotal of the rows at one slab; `GstBaseAppend` and `SubtotalBySlab` state what it sums |
| InvoiceApp.Breakdown | src/InvoiceApp.jsx:112-131 | `updateGSTBreakdown`: the four fixed lines, 2.5% twice on the slab-5 base and 9% twice on the slab-18 base; `BreakdownExample` shows them |
| InvoiceApp.LinesTotal | src/InvoiceApp.jsx:134-137 | the `reduce` over the breakdown lines' amounts |
| InvoiceApp.TotalGst | src/InvoiceApp.jsx:134-137 | `calculateTotalGST`; `TotalGstBySlab` and `TotalGstIsItemTax` state what it comes to |
| InvoiceApp.OfSlab | src/InvoiceApp.jsx:105-109 | the slab filter returns only rows at that slab |
| InvoiceApp.OfSlabCounts | src/InvoiceApp.jsx:105-109 | the slab filter keeps every row at the slab as often as it occurs, and no other row |
| InvoiceApp.GstBaseAppend | src/InvoiceApp.jsx:105-109 | a new row adds its amount to a slab's base exactly when it is at that slab |
| InvoiceApp.TotalGstBySlab | src/InvoiceApp.jsx:112-137 | the four breakdown lines add up to 5% of the slab-5 base plus 18% of the slab-18 base |
| InvoiceApp.TotalGstIsItemTax | src/InvoiceApp.jsx:112-137 | the total GST is the row-by-row tax: 5% for slab 5, 18% for slab 18, nothing for any other slab |
| InvoiceApp.UntaxedSlab | src/InvoiceApp.jsx:105-131 | a row at slab 12 or 28 raises the subtotal by its amount and the GST by nothing |
| InvoiceApp.SubtotalBySlab | src/InvoiceApp.jsx:100-109 | with every row at a selectable slab, the subtotal is the sum of the four slab bases |
| InvoiceApp.EmptyTotals | src/InvoiceApp.jsx:100-148 | with no rows the subtotal, GST, grand total and round-off are all 0 |
| InvoiceApp.GrandTotal | src/InvoiceApp.jsx:146-148 | the grand total is within half a rupee of subtotal + GST |
| InvoiceApp.CalculateRoundOff | src/InvoiceApp.jsx:140-143 | the round-off lies in (-1/2, 1/2] and bridges subtotal + GST to the grand total |
| InvoiceApp.BreakdownExample | src/InvoiceApp.jsx:112-131 | rows of 200 at 5% and 100 at 18% give lines 5, 5, 9, 9, GST 28 and grand total 328 with round-off 0 |
| InvoiceApp.Editor.constructor | src/InvoiceApp.jsx:32-43 | the table starts as one empty row numbered 1 with unit "PCS", which satisfies the table invariant |
| InvoiceApp.Editor.AddItem | src/InvoiceApp.jsx:60-74 | appends exactly the new row, keeps the table numbered and consistent, and leaves the subtotal unchanged |
| InvoiceApp.Editor.RemoveItem | src/InvoiceApp.jsx:77-82 | with more than one row: drops the row at the index and renumbers, taking its amount off the subtotal; the only row stays |
| InvoiceApp.Editor.UpdateItem | src/InvoiceApp.jsx:85-97 | replaces only the edited row, and the subtotal moves by the change in its amount |
| App.ItemAmount | src/App.jsx:48-50 | the stored row amount is a whole number of paise within half a paisa of quantity times rate |
| App.ApplyDraftEdit | src/App.jsx:52-65 | a draft keystroke sets only its own field |
| App.ApplyLineEdit | src/App.jsx:178-190 | a GST-line edit sets only its own field |
| App.Ready | src/App.jsx:53 | the guard of `handleAddItem`: a goods name, a quantity and a rate are filled in |
| App.Subtotal | src/App.jsx:79-82 | the `reduce` over the stored rows' amounts; `SubtotalInPaise` states that it is in paise |
| App.SubtotalInPaise | src/App.jsx:79-82 | with every row amount in paise the subtotal is in paise, so its two-decimal display shows it exactly |
| App.InPaiseAdd | src/App.jsx:79-82 | a sum of two amounts in paise is in paise |
| App.AddAmount | src/App.jsx:92-95 | JavaScript's `+` on amounts, where NaN absorbs |
| App.TotalGst | src/App.jsx:91-95 | `totalGST`, the sum of the rounded line amounts; `TotalGstUndefined` and `TotalGstNearExact` state what it comes to |
| App.GrandTotal | src/App.jsx:96 | `grandTotal = subtotal + totalGST`, NaN when the GST total is; `FinalTotal` and `ShownRoundOff` state its rounding |
| App.LineAmount | src/App.jsx:84-89 | each shown line amount is in paise, within half a paisa of subtotal times rate / 100, and NaN exactly when the rate is |
| App.TotalGstUndefined | src/App.jsx:91-95 | the GST total is NaN exactly when some line's rate is NaN |
| App.TotalGstNearExact | src/App.jsx:84-95 | with every rate set, the GST total is the subtotal at the sum of the rates, within half a paisa per line |
| App.ExactGstStep | src/App.jsx:84-95 | the exact tax of the lines grows by each line's own exact tax |
| App.FinalTotal | src/App.jsx:96-98 | the final total is defined exactly when the grand total is, and within half a rupee of it |
| App.ShownRoundOff | src/App.jsx:97 | the shown round-off lies in [-1/2, 1/2], is in paise, and is within half a paisa of final - grand |
| App.NoGstLines | src/App.jsx:188-190 | with every line removed the GST is 0 and the final total is the rounded subtotal |
| App.InitialLinesExample | src/App.jsx:41-44 | a subtotal of 1000 with the two initial lines gives 25.00 each, GST 50, 1050, round-off 0 |
| App.Editor.constructor | src/App.jsx:41-44 | the editor starts with no rows, a blank draft, the two 2.5% lines and no pending delete |
| App.Editor.EditDraft | src/App.jsx:52-65 | a keystroke changes only the draft, by that field |
| App.Editor.HandleAddItem | src/App.jsx:52-65 | a filled-in draft is appended with its rounded amount and the draft is cleared; otherwise nothing changes |
| App.Editor.ConfirmDelete | src/App.jsx:67-70 | records the index and opens the dialog |
| App.Editor.CancelDelete | src/App.jsx:682 | closes the dialog; the rows are untouched |
| App.Editor.HandleDelete | src/App.jsx:72-77 | drops exactly the recorded row (no guard), keeps the rest in order, clears the index and closes the dialog |
| App.Editor.AddGstLine | src/App.jsx:178-180 | appends an unnamed line at rate 0 |
| App.Editor.UpdateGstLine | src/App.jsx:182-186 | changes only the edited line's field |
| App.Editor.RemoveGstLine | src/App.jsx:188-190 | drops exactly the line at the index, even the last one |
| Numeric.LevyAdd | src/InvoiceGenerator.jsx:109-116 | levies at two rates add up to the levy at their sum |
| InvoiceGenerator.Refresh | src/InvoiceGenerator.jsx:109-116 | every output keeps its name and rate and its amount becomes subtotal times rate / 100 |
| InvoiceGenerator.RefreshIdempotent | src/InvoiceGenerator.jsx:272-274 | refreshing outputs that are up to date changes nothing, so a second refresh is the first one |
| InvoiceGenerator.ApplyOutputEdit | src/InvoiceGenerator.jsx:124-134 | a rate edit stores the coerced rate and recomputes that amount from the subtotal; a name edit keeps the amount |
| InvoiceGenerator.TotalGst | src/InvoiceGenerator.jsx:144-149 | `calculateTotalGst`, the sum of the outputs' amounts; `TotalGstRefreshed` states what it comes to |
| InvoiceGenerator.TotalGstRefreshed | src/InvoiceGenerator.jsx:144-149 | with every output up to date, the GST total is the subtotal at the sum of the rates |
| InvoiceGenerator.InitialRates | src/InvoiceGenerator.jsx:109-116 | the two initial 2.5% outputs levy 5% of the subtotal |
| InvoiceGenerator.GrandTotal | src/InvoiceGenerator.jsx:152-162 | the grand total is within half a rupee of subtotal + GST and equals it plus its round-off |
| InvoiceGenerator.Editor.constructor | src/InvoiceGenerator.jsx:37-54 | the editor starts with one empty "PET" row and the two 2.5% outputs, all up to date |
| InvoiceGenerator.Editor.UpdateGstOutputs | src/InvoiceGenerator.jsx:109-116 | replaces the outputs by their refresh, making every one up to date |
| InvoiceGenerator.Editor.UpdateItem | src/InvoiceGenerator.jsx:68-75 | replaces only the edited row, then refreshes the outputs from the new subtotal |
| InvoiceGenerator.Editor.AddItem | src/InvoiceGenerator.jsx:78-92 | appends exactly the new "PET" row, then refreshes |
| InvoiceGenerator.Editor.RemoveItem | src/InvoiceGenerator.jsx:95-101 | with more than one row: drops the row at the index, renumbers the rest in place to 1..n-1, then refreshes; the only row stays |
| InvoiceGenerator.Editor.AddGstOutput | src/InvoiceGenerator.jsx:119-121 | appends an unnamed output at rate 0, which is up to date at any subtotal |
| InvoiceGenerator.Editor.UpdateGstOutput | src/InvoiceGenerator.jsx:124-134 | changes only the edited output and keeps every output up to date |
| InvoiceGenerator.Editor.RemoveGstOutput | src/InvoiceGenerator.jsx:137-141 | drops the output at the index unless it is the only one, so at least one remains |

## Left out

- PDF export: the calls into html2canvas, jsPDF and html2pdf are foreign and asynchronous.
- Rendering: JSX markup, CSS modules, hiding zero GST rows, and the preview and edit toggles are presentation only.
- React scheduling: every handler is one synchronous state change. InvoiceGenerator.jsx's effect on `items` runs as the last step of each item handler.
- Text parsing and formatting: `parseFloat` of a field's text is taken as given, as an `Option<real>` (`None` for empty or unreadable text). `toFixed` is modelled by its numeric value, not its string. Date formatting and the derived e-mail text are not part of the model.
- Floating point: amounts are exact reals. IEEE-754 representation error in products, sums and `toFixed` is not modelled. Only the rounding rules (`Math.round`, two-decimal rounding with ties away from zero) are.
- UI-only state: seller, buyer, invoice number, labels and signature take no part in any computation. App.jsx's `showDeleteModal` is kept; the other modal flags are not.
- IndianWords.Words: the input is a natural number below 10^10. Negative, fractional or NaN input, and the "undefined" text the Crore prefix gives from 10^10 on, are outside the model. From reading the text (not executed): in App.jsx a cleared GST rate makes `finalTotal` NaN. `numberToWords(NaN)` then fails every size comparison and reaches the Crore branch. There `convertLessThanThousand(NaN)` recurses on `NaN % 100`, which is NaN again, without end.
- IndianWords.WordsBelowCrore: negative, fractional or NaN input is outside the model.
- LineItems.ApplyEdit: the source writes the edited field into the row object that the old state shares, because `[...items]` copies the list but not its rows. The old state is never read again, so the model gives each edit a fresh row. The same holds for App.jsx's `updateGSTLine`, InvoiceGenerator.jsx's `updateGstOutput`, and the serial numbers `removeItem` sets with `forEach`.
- InvoiceGenerator.Editor.UpdateItem: the GST rate of a row is a free number input in InvoiceGenerator.jsx, and `updateItem` stores its raw text, which can be empty or fractional ("7.5"). The model's integer `gstRate` cannot represent either. InvoiceGenerator.jsx never reads `gstRate` in any total, so no property of the model depends on it. InvoiceApp.jsx sets the slab with `parseInt` from a choice of 5, 12, 18 and 28, which the integer does represent.
- App.Editor.UpdateGstLine: the line's stored `amount` is never read, because the shown amounts are recomputed from the subtotal, so the model keeps it but proves nothing about it.
- The draft's GST text field in App.jsx is carried but never computed with.
