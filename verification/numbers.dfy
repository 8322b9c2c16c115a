/** Decimal digits and the price parser of the storefront script.

    `parsePrice` (scripts/inicio.js:111) turns the price text of a product
    card into a number by deleting every character that is not an ASCII
    digit and reading what is left in base 10; the empty remainder reads
    as 0. */
module Numbers {

  /** What the regular-expression class `\d` matches: ASCII digits only. */
  predicate IsDigit(c: char) {
    '0' <= c <= '9'
  }

  predicate AllDigits(s: string) {
    forall i | 0 <= i < |s| :: IsDigit(s[i])
  }

  function DigitValue(c: char): (d: nat)
    requires IsDigit(c)
    ensures d < 10
  {
    c as int - '0' as int
  }

  function DigitChar(d: nat): (c: char)
    requires d < 10
    ensures IsDigit(c)
    ensures DigitValue(c) == d
  {
    ('0' as int + d) as char
  }

  function Pow10(k: nat): (p: nat)
    ensures p >= 1
  {
    if k == 0 then 1 else 10 * Pow10(k - 1)
  }

  /** The digits of `s` in their original order: what `replace(/[^\d]/g, '')` leaves. */
  function Digits(s: string): (r: string)
    ensures AllDigits(r)
    ensures |r| <= |s|
    ensures forall c :: c in r <==> c in s && IsDigit(c)
  {
    if s == [] then []
    else
      var init := Digits(s[..|s| - 1]);
      assert s == s[..|s| - 1] + [s[|s| - 1]];
      if IsDigit(s[|s| - 1]) then init + [s[|s| - 1]] else init
  }

  /** The base-10 value of a string of digits, most significant first;
      leading zeros are allowed and the empty string reads as 0. */
  function ValueOf(ds: string): (n: nat)
    requires AllDigits(ds)
    ensures n < Pow10(|ds|)
  {
    if ds == [] then 0
    else ValueOf(ds[..|ds| - 1]) * 10 + DigitValue(ds[|ds| - 1])
  }

  /** The shortest decimal numeral of `n`: no leading zero except for 0 itself.
      This is also how a JavaScript integer-valued number turns into text. */
  function Decimal(n: nat): (s: string)
    ensures AllDigits(s)
    ensures 1 <= |s|
    ensures s[0] == '0' <==> n == 0
    decreases n
  {
    if n < 10 then [DigitChar(n)]
    else Decimal(n / 10) + [DigitChar(n % 10)]
  }

  /** A signed integer as text, as `${n}` prints an integer-valued number. */
  function IntToString(n: int): (s: string)
    ensures 1 <= |s|
    ensures s[0] == '-' <==> n < 0
    ensures n >= 0 ==> s == Decimal(n)
  {
    if n < 0 then "-" + Decimal(-n) else Decimal(n)
  }

  /** `parsePrice(text)`: the value of the digits of `text`, every other character ignored. */
  function ParsePrice(text: string): (n: nat)
    ensures Digits(text) == [] ==> n == 0
    ensures n < Pow10(|Digits(text)|)
  {
    ValueOf(Digits(text))
  }

  lemma {:induction false} DigitsAppend(a: string, b: string)
    ensures Digits(a + b) == Digits(a) + Digits(b)
    decreases |b|
  {
    if b == [] {
      assert a + b == a;
    } else {
      var b' := b[..|b| - 1];
      assert (a + b)[..|a + b| - 1] == a + b';
      assert (a + b)[|a + b| - 1] == b[|b| - 1];
      DigitsAppend(a, b');
    }
  }

  lemma {:induction false} DigitsOfDigits(s: string)
    requires AllDigits(s)
    ensures Digits(s) == s
    decreases |s|
  {
    if s != [] {
      DigitsOfDigits(s[..|s| - 1]);
      assert s == s[..|s| - 1] + [s[|s| - 1]];
    }
  }

  /** Reading back a numeral gives the number: ValueOf inverts Decimal. */
  lemma {:induction false} ValueOfDecimal(n: nat)
    ensures ValueOf(Decimal(n)) == n
    decreases n
  {
    if n >= 10 {
      var s := Decimal(n);
      assert s[..|s| - 1] == Decimal(n / 10);
      ValueOfDecimal(n / 10);
    }
  }

  /** `k` zero digits. */
  function Zeros(k: nat): (z: string)
    ensures |z| == k && AllDigits(z)
  {
    if k == 0 then [] else "0" + Zeros(k - 1)
  }

  /** A leading zero does not change the value of a digit string. */
  lemma {:induction false} ValueOfLeadingZero(ds: string)
    requires AllDigits(ds)
    ensures ValueOf("0" + ds) == ValueOf(ds)
    decreases |ds|
  {
    if ds != [] {
      var init := ds[..|ds| - 1];
      var padded := "0" + ds;
      assert padded[..|padded| - 1] == "0" + init;
      assert padded[|padded| - 1] == ds[|ds| - 1];
      ValueOfLeadingZero(init);
    }
  }

  /** Any number of leading zeros leaves the value unchanged. */
  lemma {:induction false} ValueOfZeros(k: nat, ds: string)
    requires AllDigits(ds)
    ensures ValueOf(Zeros(k) + ds) == ValueOf(ds)
    decreases k
  {
    if k > 0 {
      assert Zeros(k) + ds == "0" + (Zeros(k - 1) + ds);
      ValueOfLeadingZero(Zeros(k - 1) + ds);
      ValueOfZeros(k - 1, ds);
    } else {
      assert Zeros(k) + ds == ds;
    }
  }

  /** Text whose digits are the numeral of `n` after some zeros ("$ 05")
      parses to `n`, as `Number("05")` is 5. */
  lemma ParsePricePadded(text: string, k: nat, n: nat)
    requires Digits(text) == Zeros(k) + Decimal(n)
    ensures ParsePrice(text) == n
  {
    ValueOfZeros(k, Decimal(n));
    ValueOfDecimal(n);
  }

  /** Characters other than digits make no difference to the parsed price. */
  lemma ParsePriceIgnoresNonDigit(a: string, c: char, b: string)
    requires !IsDigit(c)
    ensures ParsePrice(a + [c] + b) == ParsePrice(a + b)
  {
    DigitsAppend(a + [c], b);
    DigitsAppend(a, [c]);
    DigitsAppend(a, b);
    assert Digits([c]) == Digits([]) + [] by {
      assert [c][..0] == [];
    }
  }

  /** Any text whose digits, in order, spell the numeral of `n` parses to `n`. */
  lemma ParsePriceOfDecorated(text: string, n: nat)
    requires Digits(text) == Decimal(n)
    ensures ParsePrice(text) == n
  {
    ValueOfDecimal(n);
  }

  /** ParsePrice inverts the plain numeral. */
  lemma ParsePriceDecimal(n: nat)
    ensures ParsePrice(Decimal(n)) == n
  {
    DigitsOfDigits(Decimal(n));
    ValueOfDecimal(n);
  }

  /** Three digits, zero-padded: one group of the thousands-grouped numeral. */
  function Pad3(m: nat): (s: string)
    requires m < 1000
    ensures |s| == 3 && AllDigits(s)
  {
    [DigitChar(m / 100), DigitChar(m / 10 % 10), DigitChar(m % 10)]
  }

  /** The numeral of `n` with a '.' between groups of three digits, the way
      Colombian peso amounts are written on the product cards ("45.000"). */
  function Grouped(n: nat): (s: string)
    ensures 1 <= |s|
    decreases n
  {
    if n < 1000 then Decimal(n)
    else Grouped(n / 1000) + "." + Pad3(n % 1000)
  }

  lemma DecimalSplit3(n: nat)
    requires n >= 1000
    ensures Decimal(n) == Decimal(n / 1000) + Pad3(n % 1000)
  {
    var q, m := n / 1000, n % 1000;
    assert n / 10 == 100 * q + m / 10;
    assert n / 100 == 10 * q + m / 100;
    assert n / 10 / 10 == n / 100;
    assert n / 100 / 10 == q;
    assert n % 10 == m % 10;
    assert n / 10 % 10 == m / 10 % 10;
    assert n / 100 % 10 == m / 100;
    calc {
      Decimal(n);
      Decimal(n / 10) + [DigitChar(n % 10)];
      Decimal(n / 100) + [DigitChar(n / 10 % 10)] + [DigitChar(n % 10)];
      Decimal(q) + [DigitChar(n / 100 % 10)] + [DigitChar(n / 10 % 10)] + [DigitChar(n % 10)];
      Decimal(q) + Pad3(m);
    }
  }

  /** The grouped numeral keeps exactly the digits of the plain one. */
  lemma {:induction false} DigitsOfGrouped(n: nat)
    ensures Digits(Grouped(n)) == Decimal(n)
    decreases n
  {
    if n < 1000 {
      DigitsOfDigits(Decimal(n));
    } else {
      DigitsOfGrouped(n / 1000);
      DigitsAppend(Grouped(n / 1000) + ".", Pad3(n % 1000));
      DigitsAppend(Grouped(n / 1000), ".");
      assert Digits(".") == [] by {
        assert "."[..0] == [];
      }
      DigitsOfDigits(Pad3(n % 1000));
      DecimalSplit3(n);
    }
  }

  /** A peso amount as printed on a product card ("$ 45.000") parses back to the amount. */
  lemma ParsePriceOfPesoLabel(prefix: string, n: nat)
    requires Digits(prefix) == []
    ensures ParsePrice(prefix + Grouped(n)) == n
  {
    DigitsAppend(prefix, Grouped(n));
    DigitsOfGrouped(n);
    assert Digits(prefix + Grouped(n)) == Decimal(n);
    ParsePriceOfDecorated(prefix + Grouped(n), n);
  }

  lemma GroupedExample()
    ensures Grouped(45000) == "45.000"
  {
    assert Decimal(45) == "45" by {
      assert Decimal(4) == "4";
    }
    assert Pad3(0) == "000";
    assert Grouped(45) == "45";
  }

  lemma ParsePriceExamples()
    ensures ParsePrice("$ 45.000") == 45000
    ensures ParsePrice("") == 0
  {
    var prefix, text := "$ ", "$ 45.000";
    assert Digits(prefix) == [] by {
      assert prefix[..1] == "$";
      assert "$"[..0] == [];
    }
    GroupedExample();
    assert text == prefix + Grouped(45000);
    ParsePriceOfPesoLabel(prefix, 45000);
  }
}
