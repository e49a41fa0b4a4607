/** The numbers decimal texts write. Delegation and the ledger read quantities digit by digit; here
    that reading is tied to the printer of whole numbers and to the reader of JSON documents. */
module WrittenDecimals {
  import opened Canonical
  import opened Canonicity
  import opened Delegation
  import opened Decimals

  predicate Digits(s: string) {
    forall i :: 0 <= i < |s| ==> IsDigit(s[i])
  }

  /** The pattern of the schema: a whole number without leading zeros, and digits after a point. */
  predicate WholeText(s: string) {
    s == "0" || (s != "" && s[0] != '0' && Digits(s))
  }

  ghost predicate DecimalText(s: string) {
    WholeText(s) || exists k: nat :: FractionAt(s, k)
  }

  predicate FractionAt(s: string, k: nat) {
    k + 1 < |s| && s[k] == '.' && WholeText(s[..k]) && Digits(s[k + 1..])
  }

  /** A whole number and the digits after the point, none when there is no point. */
  datatype Written = Written(whole: nat, fraction: string) {
    function Text(): string {
      NatText(whole) + (if fraction == "" then "" else "." + fraction)
    }

    /** The fraction is the number the document reader sees in it, over 1 followed by as many zeros. */
    function Amount(): real {
      whole as real + ReadNat(0, fraction).0 as real / PowerOfTen(|fraction|) as real
    }
  }

  function Zeros(n: nat): string {
    seq(n, _ => '0')
  }

  lemma {:induction false} PowerIsWritten(n: nat)
    ensures NatText(PowerOfTen(n)) == "1" + Zeros(n)
  {
    if n > 0 {
      var p := PowerOfTen(n - 1);
      PowerIsWritten(n - 1);
      AppendedDigit(p, '0');
      assert Zeros(n) == Zeros(n - 1) + "0";
    }
  }

  // ------------------------------------------------------------------ digits

  lemma DigitChars(d: nat)
    requires d < 10
    ensures IsDigit(DigitChar(d)) && DigitChar(d) as int - '0' as int == d
  {
    HexRoundTrip(d);
  }

  /** Reading the digits the printer writes gives the number back. */
  lemma {:induction false} DigitsOfPrinted(n: nat)
    ensures Digits(NatText(n)) && NatText(n) != "" && DigitsValue(NatText(n)) == n
  {
    hide DigitChar;
    var s := NatText(n);
    DigitChars(n % 10);
    if n < 10 {
      assert s[..|s| - 1] == "";
    } else {
      DigitsOfPrinted(n / 10);
      assert s[..|s| - 1] == NatText(n / 10);
    }
  }

  /** The two digit readers agree: one goes from the front, the other from the back. */
  lemma {:induction false} DigitsAreRead(acc: nat, s: string, rest: string)
    requires Digits(s)
    ensures ReadNat(acc, s + rest) == ReadNat(acc * PowerOfTen(|s|) + DigitsValue(s), rest)
    decreases |s|
  {
    if s == "" {
      assert s + rest == rest;
    } else {
      var n := |s| - 1;
      var front, d := s[..n], s[n] as int - '0' as int;
      var p, v := PowerOfTen(n), DigitsValue(front);
      var more := [s[n]] + rest;
      assert s + rest == front + more;
      DigitsAreRead(acc, front, more);
      assert more[1..] == rest;
      assert ReadNat(acc * p + v, more) == ReadNat(10 * (acc * p + v) + d, rest);
      assert 10 * (acc * p + v) + d == acc * (10 * p) + (10 * v + d);
    }
  }

  lemma DigitsValueIsRead(s: string)
    requires Digits(s)
    ensures ReadNat(0, s) == (DigitsValue(s), "")
  {
    DigitsAreRead(0, s, "");
    assert s + "" == s;
  }

  lemma {:induction false} PointAfter(s: string, rest: string)
    requires Digits(s) && (rest == "" || rest[0] == '.')
    ensures PointAt(s + rest) == |s|
  {
    if s == "" {
      assert s + rest == rest;
    } else {
      assert (s + rest)[1..] == s[1..] + rest;
      PointAfter(s[1..], rest);
    }
  }

  // ---------------------------------------------------------------- decimals

  lemma PartsOfText(n: Written)
    requires Digits(n.fraction)
    ensures var text := n.Text(); var k := PointAt(text);
      && DigitsValue(text[..k]) == n.whole
      && (if k < |text| then text[k + 1..] else "") == n.fraction
  {
    hide NatText, DigitsValue, PointAt;
    var w := NatText(n.whole);
    DigitsOfPrinted(n.whole);
    var rest := if n.fraction == "" then "" else "." + n.fraction;
    PointAfter(w, rest);
    assert n.Text()[..|w|] == w;
    if n.fraction != "" {
      assert n.Text()[|w| + 1..] == n.fraction;
    }
  }

  /** `Decimal(text)` is the number the text writes, for the delegation checks and for the ledger. */
  lemma DecimalIsWritten(n: Written)
    requires Digits(n.fraction)
    ensures DecimalOf(n.Text()) == n.Amount()
    ensures Quantity(n.Text()) == Decimal(n.whole * PowerOfTen(|n.fraction|) + ReadNat(0, n.fraction).0, |n.fraction|)
  {
    hide PointAt, DigitsValue, PowerOfTen, ReadNat;
    PartsOfText(n);
    DigitsValueIsRead(n.fraction);
  }

  lemma WholeIsPrinted(s: string) returns (n: nat)
    requires WholeText(s)
    ensures NatText(n) == s
  {
    if s == "0" {
      n := 0;
    } else {
      n := ReadNat(0, s).0;
      PositivePrints(s);
      DigitsValueIsRead(s);
      assert NatText(n) + "" == NatText(n);
    }
  }

  lemma PrintedIsWhole(n: nat)
    ensures WholeText(NatText(n))
  {
    DigitsOfPrinted(n);
    if n > 0 {
      NoLeadingZero(n);
    }
  }

  lemma WrittenOf(s: string) returns (n: Written)
    requires DecimalText(s)
    ensures Digits(n.fraction) && n.Text() == s
  {
    hide NatText;
    if WholeText(s) {
      var whole := WholeIsPrinted(s);
      n := Written(whole, "");
    } else {
      var k: nat :| FractionAt(s, k);
      var whole := WholeIsPrinted(s[..k]);
      assert s == s[..k] + ("." + s[k + 1..]);
      n := Written(whole, s[k + 1..]);
    }
  }

  lemma TextIsDecimal(n: Written)
    requires Digits(n.fraction)
    ensures DecimalText(n.Text())
  {
    hide NatText;
    PrintedIsWhole(n.whole);
    var w, s := NatText(n.whole), n.Text();
    if n.fraction == "" {
      assert s == w;
    } else {
      assert s[..|w|] == w && s[|w| + 1..] == n.fraction;
      assert FractionAt(s, |w|);
    }
  }

  /** Every text the schema admits writes a number in this form, and only such texts do. */
  lemma DecimalTextIff(s: string)
    ensures DecimalText(s) <==> exists n: Written :: Digits(n.fraction) && n.Text() == s
  {
    hide DecimalText, Written.Text;
    if DecimalText(s) {
      var n := WrittenOf(s);
    }
    if n: Written :| Digits(n.fraction) && n.Text() == s {
      TextIsDecimal(n);
    }
  }
}
