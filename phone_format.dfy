/** `formatPhoneNumber` of lib/utils.ts as __tests__/utils.test.ts pins it
    down: every character that is not a decimal digit is dropped, the first
    ten digits are kept, and dashes go after the third and the sixth. The
    inquiry form accepts a phone in the `ddd-ddd-dddd` shape. */
module PhoneFormat {
  import opened Wrappers
  import opened Seqs
  import opened Strings

  const MAX_DIGITS := 10

  /** `value.replace(/\D/g, '')`. */
  function Digits(s: string): (d: string)
    ensures AllDigits(d) && |d| <= |s|
  {
    Filter(IsDigit, s)
  }

  /** The layout of at most ten digits. */
  function Layout(t: string): string
    requires |t| <= MAX_DIGITS
  {
    if |t| <= 3 then t
    else if |t| <= 6 then t[..3] + "-" + t[3..]
    else t[..3] + "-" + t[3..6] + "-" + t[6..]
  }

  function Min(a: int, b: int): int { if a <= b then a else b }

  /** The digits kept: the first ten. */
  function Kept(s: string): (t: string)
    ensures AllDigits(t) && |t| == Min(|Digits(s)|, MAX_DIGITS)
    ensures t == Digits(s)[..|t|]
  {
    var d := Digits(s);
    d[..Min(|d|, MAX_DIGITS)]
  }

  function FormatPhoneNumber(s: string): (r: string)
    ensures |r| <= MAX_DIGITS + 2
  {
    Layout(Kept(s))
  }

  /** The output's digits are exactly the kept digits, in order, and a dash
      is added after the third and after the sixth of them. */
  lemma FormatKeepsDigits(s: string)
    ensures Digits(FormatPhoneNumber(s)) == Kept(s)
    ensures |FormatPhoneNumber(s)| ==
              |Kept(s)| + (if |Kept(s)| > 3 then 1 else 0) + (if |Kept(s)| > 6 then 1 else 0)
  {
    var t := Kept(s);
    if |t| <= 3 {
      DigitsOfAllDigits(t);
    } else if |t| <= 6 {
      DigitsAroundDash(t[..3], t[3..]);
      DigitsOfAllDigits(t[..3]);
      DigitsOfAllDigits(t[3..]);
      assert t[..3] + t[3..] == t;
    } else {
      DigitsAroundDash(t[..3] + "-" + t[3..6], t[6..]);
      DigitsAroundDash(t[..3], t[3..6]);
      DigitsOfAllDigits(t[..3]);
      DigitsOfAllDigits(t[3..6]);
      DigitsOfAllDigits(t[6..]);
      assert t[..3] + t[3..6] + t[6..] == t;
    }
  }

  /** The dashes sit after the third and the sixth digit: positions 3 and 7
      of the output, whenever it reaches them, hold the dashes and every
      other position a digit. */
  lemma FormatDashPositions(s: string)
    ensures |Kept(s)| > 3 ==> FormatPhoneNumber(s)[3] == '-'
    ensures |Kept(s)| > 6 ==> FormatPhoneNumber(s)[7] == '-'
    ensures forall i :: 0 <= i < |FormatPhoneNumber(s)| && i != 3 && i != 7 ==> IsDigit(FormatPhoneNumber(s)[i])
  {
    var t := Kept(s);
    var r := FormatPhoneNumber(s);
    if |t| <= 3 {
      assert r == t;
    } else if |t| <= 6 {
      assert r == t[..3] + "-" + t[3..];
      assert forall i :: 4 <= i < |r| ==> r[i] == t[i - 1];
    } else {
      assert r == t[..3] + "-" + t[3..6] + "-" + t[6..];
      assert forall i :: 4 <= i < 7 ==> r[i] == t[i - 1];
      assert forall i :: 8 <= i < |r| ==> r[i] == t[i - 2];
    }
  }

  /** A dash contributes no digit. */
  lemma DigitsAroundDash(x: string, y: string)
    ensures Digits(x + "-" + y) == Digits(x) + Digits(y)
  {
    FilterConcat(IsDigit, x + "-", y);
    FilterConcat(IsDigit, x, "-");
    assert Filter(IsDigit, "-") == [] by { assert "-"[1..] == []; }
  }

  lemma DigitsOfAllDigits(t: string)
    requires AllDigits(t)
    ensures Digits(t) == t
  {
    FilterNoneOrAll(IsDigit, t);
  }

  /** Formatting a formatted number changes nothing. */
  lemma FormatIdempotent(s: string)
    ensures FormatPhoneNumber(FormatPhoneNumber(s)) == FormatPhoneNumber(s)
  {
    FormatKeepsDigits(s);
    var t := Kept(s);
    assert Kept(FormatPhoneNumber(s)) == t;
  }

  /** Two inputs with the same digits format the same. */
  lemma OnlyDigitsMatter(a: string, b: string)
    requires Digits(a) == Digits(b)
    ensures FormatPhoneNumber(a) == FormatPhoneNumber(b)
  {
  }

  /** The form's `/^\d{3}-\d{3}-\d{4}$/`. */
  predicate PhonePattern(s: string)
  {
    |s| == 12 && s[3] == '-' && s[7] == '-' &&
    AllDigits(s[..3]) && AllDigits(s[4..7]) && AllDigits(s[8..])
  }

  /** The form's phone rule: empty or absent, or in the pattern. */
  predicate PhoneAccepted(phone: Option<string>)
  {
    phone.None? || phone.value == "" || PhonePattern(phone.value)
  }

  /** The formatted number has the form's shape exactly when the input has
      at least ten digits. */
  lemma FormatFitsPattern(s: string)
    ensures PhonePattern(FormatPhoneNumber(s)) <==> |Digits(s)| >= MAX_DIGITS
  {
    FormatKeepsDigits(s);
    var t := Kept(s);
    var r := FormatPhoneNumber(s);
    if |t| == MAX_DIGITS {
      assert r == t[..3] + "-" + t[3..6] + "-" + t[6..];
      assert r[..3] == t[..3] && r[4..7] == t[3..6] && r[8..] == t[6..];
    }
  }

  lemma EmptyExample()
    ensures FormatPhoneNumber("") == ""
  {
    assert Digits("") == "";
  }

  lemma ShortExample()
    ensures FormatPhoneNumber("123") == "123"
  {
    DigitsOfAllDigits("123");
  }

  /** A non-digit anywhere in the input is ignored. */
  lemma NonDigitIgnored(a: string, c: char, b: string)
    requires !IsDigit(c)
    ensures FormatPhoneNumber(a + [c] + b) == FormatPhoneNumber(a + b)
  {
    FilterConcat(IsDigit, a + [c], b);
    FilterConcat(IsDigit, a, [c]);
    FilterConcat(IsDigit, a, b);
    assert Filter(IsDigit, [c]) == [] by { assert [c][1..] == []; }
    assert Filter(IsDigit, a) + [] == Filter(IsDigit, a);
    assert Digits(a + [c] + b) == Digits(a + b);
  }

  /** Past the tenth digit the input is ignored. */
  lemma TruncatesToTen(s: string)
    requires |Digits(s)| > MAX_DIGITS
    ensures FormatPhoneNumber(s) == FormatPhoneNumber(Digits(s)[..MAX_DIGITS])
  {
    var t := Digits(s)[..MAX_DIGITS];
    DigitsOfAllDigits(t);
    assert t[..MAX_DIGITS] == t;
  }

  /** Four to six digits give `ddd-d`, up to `ddd-ddd`. */
  lemma FourToSixDigitsLayout(t: string)
    requires AllDigits(t) && 3 < |t| <= 6
    ensures FormatPhoneNumber(t) == t[..3] + "-" + t[3..]
  {
    DigitsOfAllDigits(t);
    assert t[..|t|] == t;
  }

  /** Seven to nine digits give `ddd-ddd-d`, up to `ddd-ddd-ddd`. */
  lemma SevenToNineDigitsLayout(t: string)
    requires AllDigits(t) && 6 < |t| < MAX_DIGITS
    ensures FormatPhoneNumber(t) == t[..3] + "-" + t[3..6] + "-" + t[6..]
  {
    DigitsOfAllDigits(t);
    assert t[..|t|] == t;
  }

  /** Ten digits give the full `ddd-ddd-dddd` layout. */
  lemma TenDigitsLayout(t: string)
    requires AllDigits(t) && |t| == MAX_DIGITS
    ensures FormatPhoneNumber(t) == t[..3] + "-" + t[3..6] + "-" + t[6..]
  {
    DigitsOfAllDigits(t);
    assert t[..MAX_DIGITS] == t;
  }
}
