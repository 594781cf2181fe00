/** The few JavaScript string and number primitives the components rely on:
    `toLowerCase` (ASCII letters only), `includes` (substring test),
    `Number(string)` and `String(number)` (decimal integers only). */
module JsText {

  /** Lower-cases the ASCII letters 'A'..'Z' and leaves every other character alone. */
  function LowerChar(c: char): char
  {
    if 'A' <= c <= 'Z' then (c as int + 32) as char else c
  }

  /** `s.toLowerCase()` restricted to ASCII. */
  function ToLower(s: string): (r: string)
    ensures |r| == |s|
  {
    if s == [] then [] else [LowerChar(s[0])] + ToLower(s[1..])
  }

  /** Lower-casing works character by character. */
  lemma {:induction false} ToLowerAt(s: string, i: int)
    requires 0 <= i < |s|
    ensures ToLower(s)[i] == LowerChar(s[i])
    decreases |s|
  {
    if i > 0 {
      ToLowerAt(s[1..], i - 1);
    }
  }

  /** Lower-casing twice is lower-casing once. */
  lemma ToLowerIdempotent(s: string)
    ensures ToLower(ToLower(s)) == ToLower(s)
  {
    forall i | 0 <= i < |s| ensures ToLower(ToLower(s))[i] == ToLower(s)[i] {
      ToLowerAt(s, i);
      ToLowerAt(ToLower(s), i);
    }
  }

  predicate StartsWith(s: string, prefix: string)
  {
    |prefix| <= |s| && s[..|prefix|] == prefix
  }

  /** `s.includes(sub)`: `sub` occurs in `s` at some position. */
  predicate Includes(s: string, sub: string)
    decreases |s|
  {
    StartsWith(s, sub) || (s != [] && Includes(s[1..], sub))
  }

  /** `sub` occurs in `s` starting at offset `k`. */
  predicate OccursAt(s: string, sub: string, k: int)
  {
    0 <= k <= |s| - |sub| && s[k..k + |sub|] == sub
  }

  /** `includes` means "occurs at some offset". */
  lemma {:induction false} IncludesAtOffset(s: string, sub: string)
    ensures Includes(s, sub) <==> exists k :: OccursAt(s, sub, k)
  {
    if StartsWith(s, sub) {
      assert OccursAt(s, sub, 0);
    }
    if s != [] {
      IncludesAtOffset(s[1..], sub);
      if Includes(s[1..], sub) {
        var k :| OccursAt(s[1..], sub, k);
        assert s[k + 1..k + 1 + |sub|] == s[1..][k..k + |sub|];
        assert OccursAt(s, sub, k + 1);
      }
      if k :| OccursAt(s, sub, k) {
        if k > 0 {
          assert s[1..][k - 1..k - 1 + |sub|] == s[k..k + |sub|];
          assert OccursAt(s[1..], sub, k - 1);
        }
      }
    } else {
      if k :| OccursAt(s, sub, k) {
        assert |sub| == 0 && s[..|sub|] == sub;
      }
    }
  }

  /** Every string includes the empty string. */
  lemma IncludesEmpty(s: string)
    ensures Includes(s, "")
  {
    assert s[..0] == "";
  }

  /** Lower-casing works character by character, so it distributes over concatenation. */
  lemma ToLowerAppend(a: string, b: string)
    ensures ToLower(a + b) == ToLower(a) + ToLower(b)
  {
    forall i | 0 <= i < |a + b| ensures ToLower(a + b)[i] == (ToLower(a) + ToLower(b))[i] {
      ToLowerAt(a + b, i);
      if i < |a| {
        ToLowerAt(a, i);
      } else {
        ToLowerAt(b, i - |a|);
      }
    }
  }

  /** A string includes each of its suffixes. */
  lemma {:induction false} IncludesSuffix(x: string, y: string)
    ensures Includes(x + y, y)
    decreases |x|
  {
    if x == [] {
      assert (x + y)[..|y|] == y;
    } else {
      assert (x + y)[1..] == x[1..] + y;
      IncludesSuffix(x[1..], y);
    }
  }

  /** A string cannot include a text whose first character it does not contain. */
  lemma {:induction false} FirstCharMissing(s: string, sub: string)
    requires sub != [] && sub[0] !in s
    ensures !Includes(s, sub)
    decreases |s|
  {
    if s != [] {
      assert s[0] != sub[0];
      FirstCharMissing(s[1..], sub);
    }
  }

  // ---- Number(string) and String(number), on integers ----

  /** A JavaScript number as far as this model needs it: an integer or NaN. */
  datatype JsNumber = Int(i: int) | NaN

  predicate IsDigit(c: char)
  {
    '0' <= c <= '9'
  }

  predicate AllDigits(s: string)
  {
    forall i :: 0 <= i < |s| ==> IsDigit(s[i])
  }

  function DigitChar(d: nat): (c: char)
    requires d < 10
    ensures IsDigit(c)
  {
    ('0' as int + d) as char
  }

  function DigitValue(c: char): (d: nat)
    requires IsDigit(c)
    ensures d < 10 && DigitChar(d) == c
  {
    c as int - '0' as int
  }

  /** The value of a string of decimal digits, most significant first. */
  function DecimalValue(s: string): nat
    requires AllDigits(s)
  {
    if s == [] then 0 else DecimalValue(s[..|s| - 1]) * 10 + DigitValue(s[|s| - 1])
  }

  /** The decimal digits of `n`, without leading zeros. */
  function Decimal(n: nat): (r: string)
    ensures r != [] && AllDigits(r)
  {
    if n < 10 then [DigitChar(n)] else Decimal(n / 10) + [DigitChar(n % 10)]
  }

  /** `Number(raw)`: the empty string is 0, an optional '-' followed by decimal digits
      is that integer, anything else is NaN. */
  function NumberOf(raw: string): JsNumber
  {
    if raw == [] then Int(0)
    else if AllDigits(raw) then Int(DecimalValue(raw))
    else if raw[0] == '-' && |raw| > 1 && AllDigits(raw[1..]) then Int(-(DecimalValue(raw[1..]) as int))
    else NaN
  }

  /** `String(x)` for a number `x`. */
  function NumberToString(x: JsNumber): string
  {
    match x
    case NaN => "NaN"
    case Int(i) => if i < 0 then "-" + Decimal(-i) else Decimal(i)
  }

  lemma {:induction false} DecimalRoundTrip(n: nat)
    ensures DecimalValue(Decimal(n)) == n
  {
    if n >= 10 {
      DecimalRoundTrip(n / 10);
      var s := Decimal(n / 10) + [DigitChar(n % 10)];
      assert s[..|s| - 1] == Decimal(n / 10);
    }
  }

  /** `Number(String(x))` gives back `x`. */
  lemma NumberOfNumberToString(x: JsNumber)
    ensures NumberOf(NumberToString(x)) == x
  {
    match x
    case NaN =>
      assert !IsDigit("NaN"[0]);
    case Int(i) =>
      if i < 0 {
        var s := "-" + Decimal(-i);
        DecimalRoundTrip(-i);
        assert !IsDigit(s[0]);
        assert s[1..] == Decimal(-i);
      } else {
        DecimalRoundTrip(i);
      }
  }
}
