/** The string operations the onion path is built from: decimal formatting of a
    port, `padStart` with "0", `slice`, and `parseInt(_, 10)`. Strings are
    sequences of UTF-16 code units in JavaScript; here they are `seq<char>`,
    and every length and index below counts characters. The two counts agree
    for text without surrogate pairs, which covers every digit string and
    every base64 string on the onion path. */
module Text {

  predicate IsDigit(ch: char)
  {
    '0' <= ch <= '9'
  }

  predicate AllDigits(s: string)
  {
    forall i :: 0 <= i < |s| ==> IsDigit(s[i])
  }

  function DigitChar(d: nat): (ch: char)
    requires d < 10
    ensures IsDigit(ch)
  {
    (('0' as int) + d) as char
  }

  function DigitValue(ch: char): (d: nat)
    requires IsDigit(ch)
    ensures d < 10 && DigitChar(d) == ch
  {
    (ch as int) - ('0' as int)
  }

  /** The decimal digits of `n`, most significant first, without leading
      zeros ("0" for zero). */
  function Digits(n: nat): (s: string)
    ensures 1 <= |s| && AllDigits(s)
  {
    if n < 10 then [DigitChar(n)] else Digits(n / 10) + [DigitChar(n % 10)]
  }

  /** `Number.prototype.toString()` of an integer: a minus sign exactly for
      a negative number, then its decimal digits. */
  function NumberToString(n: int): (s: string)
    ensures 1 <= |s| && (s[0] == '-' <==> n < 0)
  {
    if n < 0 then "-" + Digits(-n) else Digits(n)
  }

  /** The number a string of decimal digits denotes, most significant first. */
  function Value(s: string): (v: nat)
    requires AllDigits(s)
  {
    if s == [] then 0 else Value(s[..|s| - 1]) * 10 + DigitValue(s[|s| - 1])
  }

  function Pow10(k: nat): (p: nat)
    ensures 1 <= p
  {
    if k == 0 then 1 else 10 * Pow10(k - 1)
  }

  /** A string of `k` zero characters. */
  function Zeros(k: nat): (s: string)
    ensures |s| == k && forall i :: 0 <= i < k ==> s[i] == '0'
  {
    if k == 0 then "" else "0" + Zeros(k - 1)
  }

  /** `s.padStart(width, "0")`: zeros are added in front until the string is
      `width` long; a longer string is returned whole, never cut. */
  function PadStart(s: string, width: nat): (r: string)
    ensures |r| == if |s| < width then width else |s|
  {
    if |s| < width then Zeros(width - |s|) + s else s
  }

  /** The padded string is `width` long unless `s` was already longer, ends
      with `s`, and everything before `s` is "0". */
  lemma PadStartPads(s: string, width: nat)
    ensures var r := PadStart(s, width);
            && |r| == (if |s| < width then width else |s|)
            && r[|r| - |s|..] == s
            && forall i :: 0 <= i < |r| - |s| ==> r[i] == '0'
  {
  }

  /** `s.slice(0, n)` for `n >= 0`. */
  function SliceTo(s: string, n: nat): (r: string)
    ensures |r| == if |s| < n then |s| else n
    ensures r <= s
    ensures n <= |s| ==> r == s[..n]
  {
    if |s| <= n then s else s[..n]
  }

  /** `s.slice(n)` for `n >= 0`: everything from index `n` on, empty when the
      string is not longer than `n`. */
  function SliceFrom(s: string, n: nat): (r: string)
    ensures SliceTo(s, n) + r == s
    ensures |s| <= n ==> r == ""
  {
    if |s| <= n then "" else s[n..]
  }

  /** A JavaScript number as `parseInt` can produce it from text: an
      integer, or NaN. */
  datatype Number = Int(value: int) | NaN

  /** The longest prefix of `s` made of decimal digits. */
  function LeadingDigits(s: string): (r: string)
    ensures AllDigits(r) && r <= s
    ensures |r| < |s| ==> !IsDigit(s[|r|])
  {
    if s == [] || !IsDigit(s[0]) then "" else [s[0]] + LeadingDigits(s[1..])
  }

  /** `parseInt(s, 10)` on text without a sign or leading white space: the
      value of the leading digits, NaN when there are none. */
  function ParseInt(s: string): (r: Number)
    ensures r.NaN? <==> s == [] || !IsDigit(s[0])
  {
    var d := LeadingDigits(s);
    if d == "" then NaN else Int(Value(d))
  }

  /** The width of the address field that precedes the payload in every layer. */
  const ADDRESS_WIDTH: nat := 10

  /** The address field for a port: its decimal text left-padded with "0" to
      `ADDRESS_WIDTH` characters. */
  function AddressField(port: int): (field: string)
    ensures |field| >= ADDRESS_WIDTH
  {
    PadStart(NumberToString(port), ADDRESS_WIDTH)
  }

  lemma {:induction false} ValueOfDigits(n: nat)
    ensures Value(Digits(n)) == n
  {
    if n >= 10 {
      var s := Digits(n);
      assert s[..|s| - 1] == Digits(n / 10);
      ValueOfDigits(n / 10);
    }
  }

  /** The text of a number reads back as that number: the digits after an
      optional minus sign denote its absolute value. */
  lemma NumberToStringValue(n: int)
    ensures n >= 0 ==> AllDigits(NumberToString(n)) && Value(NumberToString(n)) == n
    ensures n < 0 ==> 2 <= |NumberToString(n)| && AllDigits(NumberToString(n)[1..]) &&
                      Value(NumberToString(n)[1..]) == -n
  {
    if n >= 0 {
      ValueOfDigits(n);
    } else {
      assert NumberToString(n)[1..] == Digits(-n);
      ValueOfDigits(-n);
    }
  }

  lemma {:induction false} DigitsLength(n: nat, k: nat)
    requires 1 <= k && n < Pow10(k)
    ensures |Digits(n)| <= k
  {
    if n >= 10 {
      assert n / 10 < Pow10(k - 1);
      assert 1 <= k - 1;
      DigitsLength(n / 10, k - 1);
    }
  }

  lemma {:induction false} LeadingZeroValue(s: string)
    requires AllDigits(s)
    ensures AllDigits("0" + s) && Value("0" + s) == Value(s)
  {
    var t := "0" + s;
    assert AllDigits(t);
    if s != [] {
      assert t[..|t| - 1] == "0" + s[..|s| - 1];
      LeadingZeroValue(s[..|s| - 1]);
    }
  }

  lemma {:induction false} ZerosValue(k: nat, s: string)
    requires AllDigits(s)
    ensures AllDigits(Zeros(k) + s) && Value(Zeros(k) + s) == Value(s)
  {
    if k > 0 {
      var t := Zeros(k - 1) + s;
      ZerosValue(k - 1, s);
      LeadingZeroValue(t);
      assert Zeros(k) + s == "0" + t;
    } else {
      assert Zeros(k) + s == s;
    }
  }

  lemma {:induction false} LeadingDigitsOfDigits(s: string)
    requires AllDigits(s)
    ensures LeadingDigits(s) == s
  {
    if s != [] {
      LeadingDigitsOfDigits(s[1..]);
    }
  }

  /** The address field of a port below 10^10 is exactly ten digits and
      `parseInt` reads the same port back from it. */
  lemma AddressFieldRoundTrip(port: int)
    requires 0 <= port < Pow10(ADDRESS_WIDTH)
    ensures |AddressField(port)| == ADDRESS_WIDTH && AllDigits(AddressField(port))
    ensures ParseInt(AddressField(port)) == Int(port)
  {
    var d := Digits(port);
    DigitsLength(port, ADDRESS_WIDTH);
    ValueOfDigits(port);
    ZerosValue(ADDRESS_WIDTH - |d|, d);
    var a := AddressField(port);
    assert a == Zeros(ADDRESS_WIDTH - |d|) + d;
    LeadingDigitsOfDigits(a);
  }

  /** Slicing at the length of a first part separates it from what follows. */
  lemma SliceConcat(a: string, rest: string, n: nat)
    requires |a| == n
    ensures SliceTo(a + rest, n) == a && SliceFrom(a + rest, n) == rest
  {
    assert (a + rest)[..n] == a;
    if |rest| > 0 {
      assert (a + rest)[n..] == rest;
    }
  }

  /** Reading the address back from a field followed by any payload gives the
      port and the payload. */
  lemma AddressFieldPrefix(port: int, payload: string)
    requires 0 <= port < Pow10(ADDRESS_WIDTH)
    ensures SliceTo(AddressField(port) + payload, ADDRESS_WIDTH) == AddressField(port)
    ensures SliceFrom(AddressField(port) + payload, ADDRESS_WIDTH) == payload
  {
    AddressFieldRoundTrip(port);
    SliceConcat(AddressField(port), payload, ADDRESS_WIDTH);
  }
}
