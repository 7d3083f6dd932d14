/** The fixed-width base 62 in which the relay writes credentials (relay/rules/99-default.py, _b62). */
module Base62 {

  type Byte = n: nat | n < 256

  /** int.from_bytes(data, "big") */
  function BigEndian(data: seq<Byte>): nat {
    if data == [] then 0 else 256 * BigEndian(data[..|data| - 1]) + data[|data| - 1]
  }

  function Pow62(n: nat): (p: nat)
    ensures p >= 1
  {
    if n == 0 then 1 else 62 * Pow62(n - 1)
  }

  // ---- the alphabet: 0-9, a-z, A-Z --------------------------------------------

  predicate IsDigit(c: char) {
    '0' <= c <= '9' || 'a' <= c <= 'z' || 'A' <= c <= 'Z'
  }

  function CharOf(d: nat): (c: char)
    requires d < 62
    ensures IsDigit(c)
  {
    if d < 10 then (('0' as int) + d) as char
    else if d < 36 then (('a' as int) + d - 10) as char
    else (('A' as int) + d - 36) as char
  }

  function Digit(c: char): (d: nat)
    requires IsDigit(c)
    ensures d < 62 && CharOf(d) == c
  {
    if c <= '9' then (c as int) - ('0' as int)
    else if c <= 'Z' then (c as int) - ('A' as int) + 36
    else (c as int) - ('a' as int) + 10
  }

  lemma DigitOfChar(d: nat)
    requires d < 62
    ensures Digit(CharOf(d)) == d
  {
  }

  const DECIMALS := "0123456789"
  const LOWERS := "abcdefghijklmnopqrstuvwxyz"
  const UPPERS := "ABCDEFGHIJKLMNOPQRSTUVWXYZ"

  /** A digit is the character at its place in the alphabet DECIMALS + LOWERS + UPPERS. */
  lemma CharsOfTheAlphabet(d: nat)
    requires d < 62
    ensures |DECIMALS| == 10 && |LOWERS| == |UPPERS| == 26
    ensures CharOf(d) == if d < 10 then DECIMALS[d] else if d < 36 then LOWERS[d - 10] else UPPERS[d - 36]
  {
    if d < 10 {
      DecimalChar(d);
    } else if d < 36 {
      LetterChar(d - 10);
    } else {
      LetterChar(d - 36);
    }
  }

  lemma DecimalChar(d: nat)
    requires d < 10
    ensures (DECIMALS[d] as int) == ('0' as int) + d
  {
  }

  lemma LetterChar(d: nat)
    requires d < 26
    ensures (LOWERS[d] as int) == ('a' as int) + d
    ensures (UPPERS[d] as int) == ('A' as int) + d
  {
  }

  predicate AllDigits(s: string) {
    forall i :: 0 <= i < |s| ==> IsDigit(s[i])
  }

  /** The number a text of digits stands for, most significant digit first. */
  function Value(s: string): nat
    requires AllDigits(s)
  {
    if s == "" then 0 else 62 * Value(s[..|s| - 1]) + Digit(s[|s| - 1])
  }

  /** The last `length` base-62 digits of a number. */
  function Text(n: nat, length: nat): (s: string)
    ensures |s| == length && AllDigits(s)
  {
    if length == 0 then "" else Text(n / 62, length - 1) + [CharOf(n % 62)]
  }

  function Reverse(s: string): (r: string)
    ensures |r| == |s|
  {
    if s == "" then "" else [s[|s| - 1]] + Reverse(s[..|s| - 1])
  }

  /** _b62: digits are produced from the least significant end, and reversed. */
  method Encode(data: seq<Byte>, length: nat) returns (text: string)
    ensures |text| == length && AllDigits(text)
    ensures text == Text(BigEndian(data), length)
    ensures Value(text) == BigEndian(data) % Pow62(length)
  {
    var n := BigEndian(data);
    var out := "";
    while |out| < length
      invariant |out| <= length
      invariant Text(BigEndian(data), length) == Text(n, length - |out|) + Reverse(out)
      decreases length - |out|
    {
      var c := CharOf(n % 62);
      var more := out + [c];
      assert more[..|more| - 1] == out;
      n := n / 62;
      assert Text(n, length - |more|) + [c] + Reverse(out) == Text(n, length - |more|) + Reverse(more);
      out := more;
    }
    text := Reverse(out);
    assert text == Text(n, 0) + Reverse(out);
    TextValue(BigEndian(data), length);
  }

  // ---- arithmetic -----------------------------------------------------------------

  lemma Multiple(a: int, p: nat)
    requires a >= 1
    ensures a * p >= p
  {
    assert a * p == (a - 1) * p + p;
    assert (a - 1) * p >= 0;
  }

  lemma RemainderUnique(n: int, p: nat, q: int, v: int)
    requires p > 0 && n == q * p + v && 0 <= v < p
    ensures n % p == v
  {
    var k := n / p;
    assert n == k * p + n % p;
    assert (k - q) * p == k * p - q * p;
    assert (q - k) * p == q * p - k * p;
    if k > q {
      Multiple(k - q, p);
    } else if k < q {
      Multiple(q - k, p);
    }
  }

  /** Taking off the last digit commutes with taking a remainder. */
  lemma LastDigit(n: nat, p: nat)
    requires p > 0
    ensures n % (62 * p) == 62 * ((n / 62) % p) + n % 62
  {
    var m, r := n / 62, n % 62;
    var q, s := m / p, m % p;
    assert m == q * p + s;
    assert q * (62 * p) == 62 * (q * p);
    assert n == q * (62 * p) + (62 * s + r);
    RemainderUnique(n, 62 * p, q, 62 * s + r);
  }

  /** The text's value is the number modulo 62^length. */
  lemma {:induction false} TextValue(n: nat, length: nat)
    ensures Value(Text(n, length)) == n % Pow62(length)
  {
    if length > 0 {
      TextValue(n / 62, length - 1);
      var s := Text(n, length);
      assert s[..|s| - 1] == Text(n / 62, length - 1);
      DigitOfChar(n % 62);
      LastDigit(n, Pow62(length - 1));
    }
  }

  /** Texts of one length are equal exactly when their values are. */
  lemma {:induction false} ValueInjective(s: string, t: string)
    requires AllDigits(s) && AllDigits(t) && |s| == |t|
    ensures Value(s) == Value(t) <==> s == t
  {
    if s != "" {
      var i := |s| - 1;
      ValueInjective(s[..i], t[..i]);
      assert s == s[..i] + [s[i]] && t == t[..i] + [t[i]];
      if Value(s) == Value(t) {
        assert CharOf(Digit(s[i])) == s[i] && CharOf(Digit(t[i])) == t[i];
      }
    }
  }

  lemma ShiftByModulus(n: nat, p: nat)
    requires 0 < p <= n
    ensures (n - p) % p == n % p
  {
    var q, v := n / p, n % p;
    assert n == q * p + v;
    assert (q - 1) * p == q * p - p;
    RemainderUnique(n - p, p, q - 1, v);
  }

  /** Two numbers get the same text exactly when they agree modulo 62^length: different ones below
      62^length never do, and every number from there on shares its text with a smaller one. */
  lemma CollisionsExactly(m: nat, n: nat, length: nat)
    ensures Text(m, length) == Text(n, length) <==> m % Pow62(length) == n % Pow62(length)
    ensures m < Pow62(length) && n < Pow62(length) && m != n ==> Text(m, length) != Text(n, length)
    ensures n >= Pow62(length) ==> Text(n - Pow62(length), length) == Text(n, length)
  {
    hide Text, Value;
    var p := Pow62(length);
    TextValue(m, length);
    TextValue(n, length);
    ValueInjective(Text(m, length), Text(n, length));
    if m < p && n < p {
      RemainderUnique(m, p, 0, m);
      RemainderUnique(n, p, 0, n);
    }
    if n >= p {
      ShiftByModulus(n, p);
      TextValue(n - p, length);
      ValueInjective(Text(n - p, length), Text(n, length));
    }
  }

  /** The entity id takes 8 bytes into 10 characters, which is too few for all of them: these two
      eight-byte strings are given the same ten characters. */
  lemma EntityIdsCanCollide()
    ensures var a, b: seq<Byte> := [0, 0, 0, 0, 0, 0, 0, 0], [11, 165, 202, 83, 146, 203, 4, 0];
            |a| == |b| == 8 && a != b && Text(BigEndian(a), 10) == Text(BigEndian(b), 10)
  {
    hide Text;
    var a, b: seq<Byte> := [0, 0, 0, 0, 0, 0, 0, 0], [11, 165, 202, 83, 146, 203, 4, 0];
    assert Pow62(5) == 916132832;
    assert Pow62(10) == 839299365868340224;
    EightBytes(a);
    EightBytes(b);
    assert BigEndian(b) == Pow62(10) && BigEndian(a) == 0;
    assert a[0] != b[0];
    CollisionsExactly(0, BigEndian(b), 10);
  }

  function Horner(d: seq<Byte>, n: nat): nat
    requires n <= |d|
  {
    if n == 0 then 0 else 256 * Horner(d, n - 1) + d[n - 1]
  }

  lemma {:induction false} HornerIsBigEndian(d: seq<Byte>, n: nat)
    requires n <= |d|
    ensures BigEndian(d[..n]) == Horner(d, n)
  {
    if n > 0 {
      HornerIsBigEndian(d, n - 1);
      assert d[..n][..n - 1] == d[..n - 1];
    }
  }

  lemma EightBytes(d: seq<Byte>)
    requires |d| == 8
    ensures BigEndian(d) == 256 * (256 * (256 * (256 * (256 * (256 * (256 * (d[0] as int) + d[1]) + d[2]) + d[3]) + d[4])
                                              + d[5]) + d[6]) + d[7]
  {
    HornerIsBigEndian(d, 8);
    assert d[..8] == d;
    assert Horner(d, 1) == d[0];
    assert Horner(d, 2) == 256 * (d[0] as int) + d[1];
    assert Horner(d, 4) == 256 * (256 * Horner(d, 2) + d[2]) + d[3];
    assert Horner(d, 6) == 256 * (256 * Horner(d, 4) + d[4]) + d[5];
    assert Horner(d, 8) == 256 * (256 * Horner(d, 6) + d[6]) + d[7];
  }
}
