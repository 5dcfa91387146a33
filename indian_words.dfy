/** `numberToWords`: an amount in whole rupees written out in words in the
    Indian numbering system (Hundred, Thousand, Lakh = 10^5, Crore = 10^7).
    Two variants exist: `WordsBelowCrore` (InvoiceApp.jsx), which stops at
    10^7, and `Words` (App.jsx and InvoiceGenerator.jsx, textually the same),
    which re-enters itself for the remainder of the Lakh and Crore bands.
    `Parse` reads such a text back into a number; it is the partner against
    which both variants are proved. */
module IndianWords {

  const Ones: seq<string> :=
    ["", "One", "Two", "Three", "Four", "Five", "Six", "Seven", "Eight", "Nine"]
  const Teens: seq<string> :=
    ["Ten", "Eleven", "Twelve", "Thirteen", "Fourteen", "Fifteen", "Sixteen",
     "Seventeen", "Eighteen", "Nineteen"]
  const Tens: seq<string> :=
    ["", "", "Twenty", "Thirty", "Forty", "Fifty", "Sixty", "Seventy", "Eighty", "Ninety"]

  const Lakh: nat := 100000
  const Crore: nat := 10000000

  /** `convertBelowThousand` / `convertLessThanThousand`: 0 gives the empty
      text. The JavaScript reads `ones[n]` out of range (and prints
      "undefined") for n >= 1000, which its callers are meant never to ask. */
  function BelowThousand(n: nat): string
    requires n < 1000
    decreases n
  {
    if n == 0 then ""
    else if n < 10 then Ones[n]
    else if n < 20 then Teens[n - 10]
    else if n < 100 then Tens[n / 10] + (if n % 10 != 0 then " " + Ones[n % 10] else "")
    else Ones[n / 100] + " Hundred" + (if n % 100 != 0 then " " + BelowThousand(n % 100) else "")
  }

  /** InvoiceApp.jsx's `numberToWords`: the Lakh band splices the thousand
      part in by hand, and from one Crore on it gives up. */
  function WordsBelowCrore(num: nat): string
  {
    if num == 0 then "Zero"
    else if num < 1000 then BelowThousand(num)
    else if num < Lakh then
      BelowThousand(num / 1000) + " Thousand"
      + (if num % 1000 != 0 then " " + BelowThousand(num % 1000) else "")
    else if num < Crore then
      BelowThousand(num / Lakh) + " Lakh"
      + (if num % Lakh >= 1000 then " " + BelowThousand(num % Lakh / 1000) + " Thousand" else "")
      + (if num % 1000 != 0 then " " + BelowThousand(num % 1000) else "")
    else "Number too large"
  }

  /** App.jsx's and InvoiceGenerator.jsx's `numberToWords`. The Crore prefix
      goes through the below-thousand helper, so the text is only defined
      below 10^10 (one thousand Crore). */
  function Words(num: nat): string
    requires num < 1000 * Crore
    decreases num
  {
    if num == 0 then "Zero"
    else if num < 1000 then BelowThousand(num)
    else if num < Lakh then
      BelowThousand(num / 1000) + " Thousand"
      + (if num % 1000 != 0 then " " + BelowThousand(num % 1000) else "")
    else if num < Crore then
      BelowThousand(num / Lakh) + " Lakh"
      + (if num % Lakh != 0 then " " + Words(num % Lakh) else "")
    else
      BelowThousand(num / Crore) + " Crore"
      + (if num % Crore != 0 then " " + Words(num % Crore) else "")
  }

  // ---------------------------------------------------------------------
  // Reading the words back

  /** JavaScript's `s.split(" ")`: the pieces between single spaces, empty
      pieces included, so there is always at least one. */
  function Split(s: string): (pieces: seq<string>)
    ensures |pieces| >= 1
  {
    if s == [] then [""]
    else
      var rest := Split(s[1..]);
      if s[0] == ' ' then [""] + rest
      else [[s[0]] + rest[0]] + rest[1..]
  }

  /** The value of a single number word; 0 for anything else. */
  function UnitValue(w: string): nat
  {
    if w == "One" then 1 else if w == "Two" then 2 else if w == "Three" then 3
    else if w == "Four" then 4 else if w == "Five" then 5 else if w == "Six" then 6
    else if w == "Seven" then 7 else if w == "Eight" then 8 else if w == "Nine" then 9
    else if w == "Ten" then 10 else if w == "Eleven" then 11 else if w == "Twelve" then 12
    else if w == "Thirteen" then 13 else if w == "Fourteen" then 14
    else if w == "Fifteen" then 15 else if w == "Sixteen" then 16
    else if w == "Seventeen" then 17 else if w == "Eighteen" then 18
    else if w == "Nineteen" then 19 else if w == "Twenty" then 20
    else if w == "Thirty" then 30 else if w == "Forty" then 40 else if w == "Fifty" then 50
    else if w == "Sixty" then 60 else if w == "Seventy" then 70
    else if w == "Eighty" then 80 else if w == "Ninety" then 90
    else 0
  }

  /** The scale words; everything else is read as a number word. */
  const Scales: seq<string> := ["Hundred", "Thousand", "Lakh", "Crore"]

  /** A word the renderer may emit inside a number: a non-empty number word
      or a scale word. */
  predicate IsWord(w: string)
  {
    UnitValue(w) > 0 || w in Scales
  }

  /** Reader state: the finished part of the number and the group being read. */
  datatype Reading = Reading(done: int, group: int)

  function Step(r: Reading, w: string): Reading
  {
    if w == "Hundred" then Reading(r.done, r.group * 100)
    else if w == "Thousand" then Reading(r.done + r.group * 1000, 0)
    else if w == "Lakh" then Reading(r.done + r.group * Lakh, 0)
    else if w == "Crore" then Reading(r.done + r.group * Crore, 0)
    else Reading(r.done, r.group + UnitValue(w))
  }

  function Read(r: Reading, ws: seq<string>): Reading
    decreases |ws|
  {
    if ws == [] then r else Read(Step(r, ws[0]), ws[1..])
  }

  /** The number an Indian-numbering text denotes. */
  function Parse(s: string): int
  {
    if s == "Zero" then 0
    else
      var r := Read(Reading(0, 0), Split(s));
      r.done + r.group
  }

  /** Every piece of a split text is a renderer word. */
  predicate AllWords(ws: seq<string>)
  {
    forall i :: 0 <= i < |ws| ==> IsWord(ws[i])
  }

  // ---------------------------------------------------------------------
  // Splitting and reading compose over " "

  /** `(a + " " + b).split(" ")` is `a.split(" ")` followed by `b.split(" ")`. */
  lemma {:induction false} SplitAtSpace(a: string, b: string)
    ensures Split(a + " " + b) == Split(a) + Split(b)
    decreases |a|
  {
    if a == [] {
      assert a + " " + b == [' '] + b;
      assert (a + " " + b)[1..] == b;
    } else {
      assert (a + " " + b)[0] == a[0];
      assert (a + " " + b)[1..] == a[1..] + " " + b;
      SplitAtSpace(a[1..], b);
    }
  }

  /** A text without spaces splits into itself. */
  lemma {:induction false} SplitNoSpace(w: string)
    requires ' ' !in w
    ensures Split(w) == [w]
    decreases |w|
  {
    if w != [] {
      assert w[0] != ' ' && ' ' !in w[1..];
      SplitNoSpace(w[1..]);
      assert [w[0]] + w[1..] == w;
    }
  }

  lemma {:induction false} ReadAppend(r: Reading, xs: seq<string>, ys: seq<string>)
    ensures Read(r, xs + ys) == Read(Read(r, xs), ys)
    decreases |xs|
  {
    if xs != [] {
      assert (xs + ys)[0] == xs[0];
      assert (xs + ys)[1..] == xs[1..] + ys;
      ReadAppend(Step(r, xs[0]), xs[1..], ys);
    } else {
      assert xs + ys == ys;
    }
  }

  lemma ReadOne(r: Reading, w: string)
    ensures Read(r, [w]) == Step(r, w)
  {
    assert [w][1..] == [];
  }

  // ---------------------------------------------------------------------
  // The tables

  /** Each table entry is one word, no scale word, worth its index. */
  lemma OnesAtom(i: nat)
    requires 1 <= i < 10
    ensures ' ' !in Ones[i] && Ones[i] !in Scales && UnitValue(Ones[i]) == i
  {
    if i < 5 { OnesAtomLow(i); } else { OnesAtomHigh(i); }
  }

  lemma OnesAtomLow(i: nat)
    requires 1 <= i < 5
    ensures ' ' !in Ones[i] && Ones[i] !in Scales && UnitValue(Ones[i]) == i
  {
    if i == 1 { assert Ones[i] == "One"; }
    else if i == 2 { assert Ones[i] == "Two"; }
    else if i == 3 { assert Ones[i] == "Three"; }
    else { assert Ones[i] == "Four"; }
  }

  lemma OnesAtomHigh(i: nat)
    requires 5 <= i < 10
    ensures ' ' !in Ones[i] && Ones[i] !in Scales && UnitValue(Ones[i]) == i
  {
    if i == 5 { assert Ones[i] == "Five"; }
    else if i == 6 { assert Ones[i] == "Six"; }
    else if i == 7 { assert Ones[i] == "Seven"; }
    else if i == 8 { assert Ones[i] == "Eight"; }
    else { assert Ones[i] == "Nine"; }
  }

  lemma TeensAtom(i: nat)
    requires i < 10
    ensures ' ' !in Teens[i] && Teens[i] !in Scales && UnitValue(Teens[i]) == 10 + i
  {
    if i < 5 { TeensAtomLow(i); } else { TeensAtomHigh(i); }
  }

  lemma TeensAtomLow(i: nat)
    requires i < 5
    ensures ' ' !in Teens[i] && Teens[i] !in Scales && UnitValue(Teens[i]) == 10 + i
  {
    if i == 0 { assert Teens[i] == "Ten"; }
    else if i == 1 { assert Teens[i] == "Eleven"; }
    else if i == 2 { assert Teens[i] == "Twelve"; }
    else if i == 3 { assert Teens[i] == "Thirteen"; }
    else { assert Teens[i] == "Fourteen"; }
  }

  lemma TeensAtomHigh(i: nat)
    requires 5 <= i < 10
    ensures ' ' !in Teens[i] && Teens[i] !in Scales && UnitValue(Teens[i]) == 10 + i
  {
    if i == 5 { assert Teens[i] == "Fifteen"; }
    else if i == 6 { assert Teens[i] == "Sixteen"; }
    else if i == 7 { assert Teens[i] == "Seventeen"; }
    else if i == 8 { assert Teens[i] == "Eighteen"; }
    else { assert Teens[i] == "Nineteen"; }
  }

  lemma TensAtom(i: nat)
    requires 2 <= i < 10
    ensures ' ' !in Tens[i] && Tens[i] !in Scales && UnitValue(Tens[i]) == 10 * i
  {
    if i < 6 { TensAtomLow(i); } else { TensAtomHigh(i); }
  }

  lemma TensAtomLow(i: nat)
    requires 2 <= i < 6
    ensures ' ' !in Tens[i] && Tens[i] !in Scales && UnitValue(Tens[i]) == 10 * i
  {
    if i == 2 { assert Tens[i] == "Twenty"; }
    else if i == 3 { assert Tens[i] == "Thirty"; }
    else if i == 4 { assert Tens[i] == "Forty"; }
    else { assert Tens[i] == "Fifty"; }
  }

  lemma TensAtomHigh(i: nat)
    requires 6 <= i < 10
    ensures ' ' !in Tens[i] && Tens[i] !in Scales && UnitValue(Tens[i]) == 10 * i
  {
    if i == 6 { assert Tens[i] == "Sixty"; }
    else if i == 7 { assert Tens[i] == "Seventy"; }
    else if i == 8 { assert Tens[i] == "Eighty"; }
    else { assert Tens[i] == "Ninety"; }
  }

  /** A word without spaces that is no scale word is read as its value. */
  lemma NumberWord(r: Reading, w: string)
    requires ' ' !in w && w !in Scales
    ensures Split(w) == [w]
    ensures Read(r, Split(w)) == Reading(r.done, r.group + UnitValue(w))
  {
    SplitNoSpace(w);
    ReadOne(r, w);
  }

  /** The scale words are single pieces. */
  lemma ScaleWord(x: string, w: string)
    requires w in Scales
    ensures Split(x + " " + w) == Split(x) + [w]
  {
    assert ' ' !in w by {
      if w == "Hundred" {} else if w == "Thousand" {} else if w == "Lakh" {} else {}
    }
    SplitNoSpace(w);
    SplitAtSpace(x, w);
  }

  lemma AllWordsAppend(xs: seq<string>, ys: seq<string>)
    requires AllWords(xs) && AllWords(ys)
    ensures AllWords(xs + ys)
  {
    forall i | 0 <= i < |xs + ys|
      ensures IsWord((xs + ys)[i])
    {
      if i < |xs| { assert (xs + ys)[i] == xs[i]; } else { assert (xs + ys)[i] == ys[i - |xs|]; }
    }
  }

  // ---------------------------------------------------------------------
  // Reading the renderer's output

  /** Twenty to ninety-nine: a tens word and, unless the number is a
      multiple of ten, a ones word. */
  lemma TensRead(r: Reading, m: nat)
    requires 20 <= m < 100
    ensures Read(r, Split(BelowThousand(m))) == Reading(r.done, r.group + m)
  {
    var q, d := m / 10, m % 10;
    if d != 0 {
      assert BelowThousand(m) == Tens[q] + " " + Ones[d];
      TensOnesRead(r, q, d);
    } else {
      assert BelowThousand(m) == Tens[q];
      TensAtom(q);
      NumberWord(r, Tens[q]);
    }
  }

  lemma TensOnesRead(r: Reading, q: nat, d: nat)
    requires 2 <= q < 10 && 1 <= d < 10
    ensures Read(r, Split(Tens[q] + " " + Ones[d])) == Reading(r.done, r.group + 10 * q + d)
  {
    var t, o := Tens[q], Ones[d];
    TensAtom(q);
    OnesAtom(d);
    var mid := Reading(r.done, r.group + 10 * q);
    NumberWord(r, t);
    NumberWord(mid, o);
    ReadThrough(r, t, o, mid, Reading(r.done, r.group + 10 * q + d));
  }

  /** One to ninety-nine add themselves to the group being read. */
  lemma BelowHundredRead(r: Reading, m: nat)
    requires 0 < m < 100
    ensures Read(r, Split(BelowThousand(m))) == Reading(r.done, r.group + m)
  {
    if m < 10 {
      assert BelowThousand(m) == Ones[m];
      OnesAtom(m);
      NumberWord(r, Ones[m]);
    } else if m < 20 {
      assert BelowThousand(m) == Teens[m - 10];
      TeensAtom(m - 10);
      NumberWord(r, Teens[m - 10]);
    } else {
      TensRead(r, m);
    }
  }

  /** One to nine hundred ninety-nine fill an empty group. */
  lemma BelowThousandRead(done: int, k: nat)
    requires 0 < k < 1000
    ensures Read(Reading(done, 0), Split(BelowThousand(k))) == Reading(done, k)
  {
    if k < 100 {
      BelowHundredRead(Reading(done, 0), k);
    } else {
      HundredsRead(done, k);
    }
  }

  lemma HundredShape(k: nat)
    requires 100 <= k < 1000
    ensures k % 100 != 0 ==>
      BelowThousand(k) == (Ones[k / 100] + " " + "Hundred") + " " + BelowThousand(k % 100)
    ensures k % 100 == 0 ==> BelowThousand(k) == Ones[k / 100] + " " + "Hundred"
  {
    assert Ones[k / 100] + " Hundred" == Ones[k / 100] + " " + "Hundred";
  }

  lemma HundredsRead(done: int, k: nat)
    requires 100 <= k < 1000
    ensures Read(Reading(done, 0), Split(BelowThousand(k))) == Reading(done, k)
  {
    var h, m := k / 100, k % 100;
    assert h * 100 + m == k;
    HundredShape(k);
    HundredRead(done, h);
    if m != 0 {
      BelowHundredRead(Reading(done, h * 100), m);
      ReadThrough(Reading(done, 0), Ones[h] + " " + "Hundred", BelowThousand(m),
        Reading(done, h * 100), Reading(done, k));
    }
  }

  /** "h Hundred" sets the group to h hundred. */
  lemma HundredRead(done: int, h: nat)
    requires 1 <= h < 10
    ensures Read(Reading(done, 0), Split(Ones[h] + " " + "Hundred")) == Reading(done, h * 100)
  {
    var w := Ones[h];
    OnesAtom(h);
    NumberWord(Reading(done, 0), w);
    ScaleWord(w, "Hundred");
    ReadAppend(Reading(done, 0), Split(w), ["Hundred"]);
    ReadOne(Reading(done, h), "Hundred");
  }

  lemma ModThousand(n: nat)
    ensures n % Lakh % 1000 == n % 1000
    ensures n % Crore % 1000 == n % 1000
  {
    var q1, q2 := n / Lakh, n / Crore;
    assert n == q1 * Lakh + n % Lakh;
    assert n == q2 * Crore + n % Crore;
    assert n % Lakh == n - 1000 * (100 * q1);
    assert n % Crore == n - 1000 * (10000 * q2);
  }

  /** A band prefix (a number below a thousand, then a scale word) read into
      an empty group moves its value, scaled, into the finished part. */
  lemma BandRead(done: int, k: nat, w: string, scale: nat)
    requires 0 < k < 1000
    requires (w, scale) in [("Thousand", 1000), ("Lakh", Lakh), ("Crore", Crore)]
    ensures Read(Reading(done, 0), Split(BelowThousand(k) + " " + w)) == Reading(done + k * scale, 0)
  {
    var x := BelowThousand(k);
    ScaleWord(x, w);
    BelowThousandRead(done, k);
    ReadAppend(Reading(done, 0), Split(x), [w]);
    ReadOne(Reading(done, k), w);
  }

  /** Reading `x + " " + y` is reading `x`, then `y`. */
  lemma ReadThrough(r: Reading, x: string, y: string, mid: Reading, last: Reading)
    requires Read(r, Split(x)) == mid
    requires Read(mid, Split(y)) == last
    ensures Read(r, Split(x + " " + y)) == last
  {
    SplitAtSpace(x, y);
    ReadAppend(r, Split(x), Split(y));
  }

  /** The texts of the three bands, one unfolding of `Words` each. */
  lemma ThousandShape(n: nat)
    requires 1000 <= n < Lakh
    ensures n % 1000 != 0 ==> Words(n) == (BelowThousand(n / 1000) + " " + "Thousand") + " " + BelowThousand(n % 1000)
    ensures n % 1000 == 0 ==> Words(n) == BelowThousand(n / 1000) + " " + "Thousand"
  {
  }

  lemma LakhShape(n: nat)
    requires Lakh <= n < Crore
    ensures n % Lakh != 0 ==> Words(n) == (BelowThousand(n / Lakh) + " " + "Lakh") + " " + Words(n % Lakh)
    ensures n % Lakh == 0 ==> Words(n) == BelowThousand(n / Lakh) + " " + "Lakh"
  {
  }

  lemma CroreShape(n: nat)
    requires Crore <= n < 1000 * Crore
    ensures n % Crore != 0 ==> Words(n) == (BelowThousand(n / Crore) + " " + "Crore") + " " + Words(n % Crore)
    ensures n % Crore == 0 ==> Words(n) == BelowThousand(n / Crore) + " " + "Crore"
  {
  }

  /** Splitting a number at a band: the quotient and the remainder, and the
      remainder's last three digits are the number's. */
  lemma BandArith(n: nat, scale: nat)
    requires scale == 1000 || scale == Lakh || scale == Crore
    ensures n == n / scale * scale + n % scale
    ensures n % scale % 1000 == n % 1000
  {
    ModThousand(n);
  }

  /** Reading `Words(n)` after a finished part `done`: what lies below a
      thousand ends up in the group, the rest in the finished part. */
  lemma {:induction false} WordsRead(done: int, n: nat)
    requires 0 < n < 1000 * Crore
    ensures Read(Reading(done, 0), Split(Words(n))) == Reading(done + n - n % 1000, n % 1000)
    decreases n, 1
  {
    if n < 1000 {
      assert Words(n) == BelowThousand(n) && n % 1000 == n;
      BelowThousandRead(done, n);
    } else if n < Lakh {
      ThousandsRead(done, n);
    } else if n < Crore {
      LakhsRead(done, n);
    } else {
      CroresRead(done, n);
    }
  }

  /** The Thousand band: a prefix, "Thousand", and the words below a thousand. */
  lemma ThousandsRead(done: int, n: nat)
    requires 1000 <= n < Lakh
    ensures Read(Reading(done, 0), Split(Words(n))) == Reading(done + n - n % 1000, n % 1000)
  {
    var k, rest := n / 1000, n % 1000;
    var x := BelowThousand(k) + " " + "Thousand";
    ThousandShape(n);
    BandRead(done, k, "Thousand", 1000);
    BandArith(n, 1000);
    if rest != 0 {
      var d := done + k * 1000;
      BelowThousandRead(d, rest);
      ReadThrough(Reading(done, 0), x, BelowThousand(rest), Reading(d, 0), Reading(d, rest));
    }
  }

  /** The Lakh band: a prefix, "Lakh", and the whole words of the remainder. */
  lemma {:induction false} LakhsRead(done: int, n: nat)
    requires Lakh <= n < Crore
    ensures Read(Reading(done, 0), Split(Words(n))) == Reading(done + n - n % 1000, n % 1000)
    decreases n, 0
  {
    var k, rest := n / Lakh, n % Lakh;
    var x := BelowThousand(k) + " " + "Lakh";
    LakhShape(n);
    BandRead(done, k, "Lakh", Lakh);
    BandArith(n, Lakh);
    if rest != 0 {
      var d := done + k * Lakh;
      WordsRead(d, rest);
      ReadThrough(Reading(done, 0), x, Words(rest), Reading(d, 0),
                  Reading(d + rest - rest % 1000, rest % 1000));
    }
  }

  /** The Crore band: a prefix, "Crore", and the whole words of the remainder. */
  lemma {:induction false} CroresRead(done: int, n: nat)
    requires Crore <= n < 1000 * Crore
    ensures Read(Reading(done, 0), Split(Words(n))) == Reading(done + n - n % 1000, n % 1000)
    decreases n, 0
  {
    var k, rest := n / Crore, n % Crore;
    var x := BelowThousand(k) + " " + "Crore";
    CroreShape(n);
    BandRead(done, k, "Crore", Crore);
    BandArith(n, Crore);
    if rest != 0 {
      var d := done + k * Crore;
      WordsRead(d, rest);
      ReadThrough(Reading(done, 0), x, Words(rest), Reading(d, 0),
                  Reading(d + rest - rest % 1000, rest % 1000));
    }
  }

  // ---------------------------------------------------------------------
  // The renderer's vocabulary

  lemma WordPiece(w: string)
    requires ' ' !in w && UnitValue(w) > 0
    ensures AllWords(Split(w))
  {
    SplitNoSpace(w);
    assert Split(w)[0] == w;
  }

  lemma ScalePiece(w: string)
    requires w in Scales
    ensures AllWords(Split(w))
  {
    assert ' ' !in w by {
      if w == "Hundred" {} else if w == "Thousand" {} else if w == "Lakh" {} else {}
    }
    SplitNoSpace(w);
    assert Split(w)[0] == w;
  }

  lemma JoinWords(x: string, y: string)
    requires AllWords(Split(x)) && AllWords(Split(y))
    ensures AllWords(Split(x + " " + y))
  {
    SplitAtSpace(x, y);
    AllWordsAppend(Split(x), Split(y));
  }

  lemma BelowHundredWords(m: nat)
    requires 0 < m < 100
    ensures AllWords(Split(BelowThousand(m)))
  {
    if m < 10 {
      assert BelowThousand(m) == Ones[m];
      OnesAtom(m);
      WordPiece(Ones[m]);
    } else if m < 20 {
      assert BelowThousand(m) == Teens[m - 10];
      TeensAtom(m - 10);
      WordPiece(Teens[m - 10]);
    } else {
      var q, d := m / 10, m % 10;
      if d != 0 {
        assert BelowThousand(m) == Tens[q] + " " + Ones[d];
        TensOnesWords(q, d);
      } else {
        assert BelowThousand(m) == Tens[q];
        TensAtom(q);
        WordPiece(Tens[q]);
      }
    }
  }

  lemma TensOnesWords(q: nat, d: nat)
    requires 2 <= q < 10 && 1 <= d < 10
    ensures AllWords(Split(Tens[q] + " " + Ones[d]))
  {
    TensAtom(q);
    OnesAtom(d);
    WordPiece(Tens[q]);
    WordPiece(Ones[d]);
    JoinWords(Tens[q], Ones[d]);
  }

  /** The words for one to nine hundred ninety-nine are renderer words
      separated by single spaces. */
  lemma BelowThousandWords(k: nat)
    requires 0 < k < 1000
    ensures AllWords(Split(BelowThousand(k)))
  {
    if k < 100 {
      BelowHundredWords(k);
    } else {
      var h := Ones[k / 100];
      var x := h + " " + "Hundred";
      assert h + " Hundred" == x;
      OnesAtom(k / 100);
      WordPiece(h);
      ScalePiece("Hundred");
      JoinWords(h, "Hundred");
      if k % 100 != 0 {
        var y := BelowThousand(k % 100);
        assert BelowThousand(k) == x + " " + y;
        BelowHundredWords(k % 100);
        JoinWords(x, y);
      } else {
        assert BelowThousand(k) == x;
      }
    }
  }

  lemma BandWords(k: nat, w: string)
    requires 0 < k < 1000 && w in Scales
    ensures AllWords(Split(BelowThousand(k) + " " + w))
  {
    BelowThousandWords(k);
    ScalePiece(w);
    JoinWords(BelowThousand(k), w);
  }

  /** Below 10^10 the text of every positive amount is renderer words
      separated by single spaces: no empty piece, no doubled or trailing
      space, no word outside the tables. */
  lemma {:induction false} WordsWellFormed(n: nat)
    requires 0 < n < 1000 * Crore
    ensures AllWords(Split(Words(n)))
    decreases n
  {
    if n < 1000 {
      assert Words(n) == BelowThousand(n);
      BelowThousandWords(n);
    } else if n < Lakh {
      ThousandShape(n);
      BandWords(n / 1000, "Thousand");
      if n % 1000 != 0 {
        BelowThousandWords(n % 1000);
        JoinWords(BelowThousand(n / 1000) + " " + "Thousand", BelowThousand(n % 1000));
      }
    } else if n < Crore {
      LakhShape(n);
      BandWords(n / Lakh, "Lakh");
      if n % Lakh != 0 {
        WordsWellFormed(n % Lakh);
        JoinWords(BelowThousand(n / Lakh) + " " + "Lakh", Words(n % Lakh));
      }
    } else {
      CroreShape(n);
      BandWords(n / Crore, "Crore");
      if n % Crore != 0 {
        WordsWellFormed(n % Crore);
        JoinWords(BelowThousand(n / Crore) + " " + "Crore", Words(n % Crore));
      }
    }
  }

  // ---------------------------------------------------------------------
  // What the renderers promise

  /** Read back, the words of `Words(n)` give `n`: the text is a faithful
      rendering of the amount on the whole domain where it is defined. */
  lemma ParseWords(n: nat)
    requires n < 1000 * Crore
    ensures Parse(Words(n)) == n
  {
    if n > 0 {
      WordsRead(0, n);
      if Words(n) == "Zero" {
        NumberWord(Reading(0, 0), "Zero");
        assert false;
      }
    }
  }

  /** Different amounts are never written the same way. */
  lemma WordsInjective(a: nat, b: nat)
    requires a < 1000 * Crore && b < 1000 * Crore
    requires Words(a) == Words(b)
    ensures a == b
  {
    ParseWords(a);
    ParseWords(b);
  }

  /** Below one Crore, the spliced Lakh band of `WordsBelowCrore` writes
      exactly what the re-entering `Words` writes. */
  lemma VariantsAgree(n: nat)
    requires n < Crore
    ensures WordsBelowCrore(n) == Words(n)
  {
    if n == 0 {
      assert WordsBelowCrore(n) == "Zero" == Words(n);
    } else if n < 1000 {
      assert WordsBelowCrore(n) == BelowThousand(n) == Words(n);
    } else if n < Lakh {
      var e := BelowThousand(n / 1000) + " Thousand"
        + (if n % 1000 != 0 then " " + BelowThousand(n % 1000) else "");
      assert WordsBelowCrore(n) == e == Words(n);
    } else {
      LakhBandsAgree(n);
    }
  }

  lemma LakhBandsAgree(n: nat)
    requires Lakh <= n < Crore
    ensures WordsBelowCrore(n) == Words(n)
  {
    var p := BelowThousand(n / Lakh) + " Lakh";
    var rest := n % Lakh;
    ModThousand(n);
    var tail := if n % 1000 != 0 then " " + BelowThousand(n % 1000) else "";
    var th := if rest >= 1000 then " " + BelowThousand(rest / 1000) + " Thousand" else "";
    var b := if rest != 0 then " " + Words(rest) else "";
    assert WordsBelowCrore(n) == p + th + tail;
    assert Words(n) == p + b;
    LakhRemainder(rest);
    Assoc3(p, th, tail);
  }

  /** What follows " Lakh": the re-entered words for the remainder are the
      thousand part and the last three digits written out by hand. */
  lemma LakhRemainder(rest: nat)
    requires rest < Lakh
    ensures (if rest != 0 then " " + Words(rest) else "")
      == (if rest >= 1000 then " " + BelowThousand(rest / 1000) + " Thousand" else "")
         + (if rest % 1000 != 0 then " " + BelowThousand(rest % 1000) else "")
  {
    var tail := if rest % 1000 != 0 then " " + BelowThousand(rest % 1000) else "";
    if rest >= 1000 {
      var q := BelowThousand(rest / 1000);
      assert Words(rest) == q + " Thousand" + tail;
      Assoc3(" ", q + " Thousand", tail);
      Assoc3(" ", q, " Thousand");
      assert " " + Words(rest) == (" " + q + " Thousand") + tail;
    } else if rest != 0 {
      assert rest % 1000 == rest;
      assert Words(rest) == BelowThousand(rest);
      assert " " + Words(rest) == "" + tail;
    } else {
      assert rest % 1000 == 0;
    }
  }

  lemma Assoc3(a: string, b: string, c: string)
    ensures a + (b + c) == a + b + c
  {
  }

  /** `WordsBelowCrore` is read back faithfully below one Crore, and from one
      Crore on it gives the fixed refusal text. */
  lemma ParseWordsBelowCrore(n: nat)
    ensures n < Crore ==> Parse(WordsBelowCrore(n)) == n
    ensures n >= Crore ==> WordsBelowCrore(n) == "Number too large"
  {
    if n < Crore {
      VariantsAgree(n);
      ParseWords(n);
    }
  }

  /** The renderings the invoices show for a few amounts. */
  lemma WordsExamples()
    ensures Words(0) == "Zero"
    ensures Words(19) == "Nineteen"
    ensures Words(20) == "Twenty"
    ensures Words(100) == "One Hundred"
    ensures Words(100000) == "One Lakh"
  {
    assert BelowThousand(19) == Teens[9];
    assert BelowThousand(20) == Tens[2];
    assert BelowThousand(100) == Ones[1] + " Hundred";
    assert BelowThousand(1) == Ones[1];
  }

  /** The pieces of 1234567: 12, 34 and 567. */
  lemma Example34()
    ensures BelowThousand(34) == "Thirty Four"
  {
    assert BelowThousand(34) == Tens[3] + " " + Ones[4];
  }

  lemma Example567()
    ensures BelowThousand(567) == "Five Hundred Sixty Seven"
  {
    Example67();
    assert BelowThousand(567) == Ones[5] + " Hundred" + " " + BelowThousand(67);
    assert Ones[5] + " Hundred" == "Five Hundred";
    assert "Five Hundred" + " " == "Five Hundred ";
  }

  lemma Example67()
    ensures BelowThousand(67) == "Sixty Seven"
  {
    assert BelowThousand(67) == Tens[6] + " " + Ones[7];
  }

  lemma Example34567()
    ensures Words(34567) == "Thirty Four Thousand" + " " + "Five Hundred Sixty Seven"
  {
    assert BelowThousand(34) + " " + "Thousand" == "Thirty Four Thousand" by { Example34(); }
    ThousandShape(34567);
    Example567();
  }

  lemma WordsExampleLakh()
    ensures Words(1234567) == "Twelve Lakh Thirty Four Thousand Five Hundred Sixty Seven"
  {
    var t, p, q := "Twelve Lakh", "Thirty Four Thousand", "Five Hundred Sixty Seven";
    assert BelowThousand(12) + " " + "Lakh" == t by { assert BelowThousand(12) == Teens[2]; }
    LakhShape(1234567);
    Example34567();
    assert Words(1234567) == t + " " + (p + " " + q);
    Assoc3(t + " ", p + " ", q);
    Assoc3(t + " ", p, " ");
    LiteralJoinLakh();
    LiteralJoinThousand();
  }

  /** The texts of 1234567 joined, one space at a time. */
  lemma LiteralJoinLakh()
    ensures "Twelve Lakh" + " " + "Thirty Four Thousand" == "Twelve Lakh Thirty Four Thousand"
  {
    assert "Twelve Lakh" + " " == "Twelve Lakh ";
  }

  lemma LiteralJoinThousand()
    ensures "Twelve Lakh Thirty Four Thousand" + " " + "Five Hundred Sixty Seven"
      == "Twelve Lakh Thirty Four Thousand Five Hundred Sixty Seven"
  {
    assert "Twelve Lakh Thirty Four Thousand" + " " == "Twelve Lakh Thirty Four Thousand ";
  }

  lemma WordsExampleCrore()
    ensures Words(3 * Crore + 5) == "Three Crore Five"
  {
    assert Words(5) == Ones[5];
    assert Words(3 * Crore + 5) == BelowThousand(3) + " Crore" + " " + Words(5);
  }

  lemma WordsBelowCroreExamples()
    ensures WordsBelowCrore(0) == "Zero"
    ensures WordsBelowCrore(1234567) == "Twelve Lakh Thirty Four Thousand Five Hundred Sixty Seven"
    ensures WordsBelowCrore(Crore) == "Number too large"
  {
    WordsExampleLakh();
    VariantsAgree(1234567);
  }
}
