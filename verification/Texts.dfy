/** Numbers as decimal text, and back; text in lower case and as bytes. */
module Texts {
  import opened Options

  function Decimal(n: nat): (s: string)
    ensures s != [] && forall c <- s :: '0' <= c <= '9'
  {
    (if n < 10 then [] else Decimal(n / 10)) + [('0' as int + n % 10) as char]
  }

  function TenTo(k: nat): (r: nat)
    ensures r > 0
  {
    if k == 0 then 1 else 10 * TenTo(k - 1)
  }

  /** The k-th digit from the right counts the k-th power of ten, and there are no more digits than it takes. */
  lemma {:induction false} DecimalSpells(n: nat, k: nat)
    requires k < |Decimal(n)|
    ensures Decimal(n)[|Decimal(n)| - 1 - k] as int - '0' as int == n / TenTo(k) % 10
    ensures n < TenTo(|Decimal(n)|) && (|Decimal(n)| > 1 ==> TenTo(|Decimal(n)| - 1) <= n)
  {
    hide TenTo;
    DecimalSize(n);
    LastDigit(n);
    OneAndTens(k);
    if k > 0 {
      DecimalSpells(n / 10, k - 1);
      TenthOf(n, TenTo(k - 1));
    }
  }

  lemma LastDigit(n: nat)
    ensures var s := Decimal(n);
      && s[|s| - 1] as int - '0' as int == n % 10
      && (n < 10 ==> |s| == 1) && (n >= 10 ==> s[..|s| - 1] == Decimal(n / 10))
  {
  }

  lemma OneAndTens(k: nat)
    ensures TenTo(0) == 1 && (k > 0 ==> TenTo(k) == 10 * TenTo(k - 1))
  {
  }

  lemma {:induction false} DecimalSize(n: nat)
    ensures n < TenTo(|Decimal(n)|) && (|Decimal(n)| > 1 ==> TenTo(|Decimal(n)| - 1) <= n)
  {
    hide TenTo;
    OneAndTens(1);
    OneAndTens(|Decimal(n)|);
    OneAndTens(|Decimal(n)| - 1);
    if n >= 10 { DecimalSize(n / 10); }
  }

  lemma TenthOf(n: nat, t: nat)
    requires t > 0
    ensures n / 10 / t == n / (10 * t)
  {
    var q, r := n / (10 * t), n % (10 * t);
    assert n == 10 * (t * q) + r;
    assert n / 10 == t * q + r / 10 && r / 10 < t;
    assert (t * q + r / 10) / t == q by { QuotientOf(t, q, r / 10); }
  }

  lemma ProductGap(t: nat, a: int, b: int)
    ensures a < b ==> t * a + t <= t * b
  {
    if a < b { assert t * b - t * a - t == t * (b - a - 1); }
  }

  lemma QuotientOf(t: nat, q: nat, r: nat)
    requires r < t
    ensures (t * q + r) / t == q
  {
    var n := t * q + r;
    var p := n / t;
    assert n == t * p + n % t;
    ProductGap(t, p, q);
    ProductGap(t, q, p);
  }

  /** `Number` of a string of digits; the empty string is zero. */
  function Number(s: string): Option<nat> {
    if s == "" then Some(0)
    else
      var init, c := Number(s[..|s| - 1]), s[|s| - 1];
      if init.None? || !('0' <= c <= '9') then None else Some(10 * init.value + (c as int - '0' as int))
  }

  lemma {:induction false} NumberOfDecimal(n: nat)
    ensures Number(Decimal(n)) == Some(n)
  {
    var s := Decimal(n);
    var init := if n < 10 then [] else Decimal(n / 10);
    assert s[..|s| - 1] == init;
    if n >= 10 { NumberOfDecimal(n / 10); }
  }

  function LowerChar(c: char): char {
    if 'A' <= c <= 'Z' then (c as int + 32) as char else c
  }

  function Lower(s: string): string {
    seq(|s|, i requires 0 <= i < |s| => LowerChar(s[i]))
  }

  const LETTERS := "abcdefghijklmnopqrstuvwxyz"
  const CAPITALS := "ABCDEFGHIJKLMNOPQRSTUVWXYZ"

  /** Lower-casing replaces the i-th capital by the i-th letter and leaves every other character alone. */
  lemma LowerLetters(s: string, i: nat)
    requires i < |s|
    ensures |Lower(s)| == |s|
    ensures forall k :: 0 <= k < 26 && s[i] == CAPITALS[k] ==> Lower(s)[i] == LETTERS[k]
    ensures s[i] !in CAPITALS ==> Lower(s)[i] == s[i]
  {
    if 'A' <= s[i] <= 'Z' {
      assert CAPITALS[s[i] as int - 'A' as int] == s[i];
    }
  }

  type Byte = x: int | 0 <= x < 256

  /** The UTF-8 form of one character. */
  function Utf8Char(c: char): seq<Byte> {
    var u := c as int;
    if u < 0x80 then [u]
    else if u < 0x800 then [0xC0 + u / 0x40, 0x80 + u % 0x40]
    else if u < 0x10000 then [0xE0 + u / 0x1000, 0x80 + u / 0x40 % 0x40, 0x80 + u % 0x40]
    else [0xF0 + u / 0x40000, 0x80 + u / 0x1000 % 0x40, 0x80 + u / 0x40 % 0x40, 0x80 + u % 0x40]
  }

  /** The bytes after the first hold six bits each. */
  function SixBits(b: int): int {
    b - 0x80
  }

  predicate IsContinuation(b: int) {
    0x80 <= b < 0xC0
  }

  lemma Sixes(u: nat)
    ensures u == 0x40 * (u / 0x40) + u % 0x40 && u / 0x1000 == u / 0x40 / 0x40 && u / 0x40000 == u / 0x1000 / 0x40
  {
  }

  /** The first byte of a character tells how many there are, and together they hold the character's number. */
  lemma Utf8Decodes(c: char)
    ensures var b, u := Utf8Char(c), c as int;
      && (|b| == 1 || |b| == 2 || |b| == 3 || |b| == 4) && (forall i :: 0 < i < |b| ==> IsContinuation(b[i]))
      && (|b| == 1 ==> b[0] < 0x80 && u == b[0])
      && (|b| == 2 ==> 0xC2 <= b[0] < 0xE0 && u == 0x40 * ((b[0] as int) - 0xC0) + SixBits(b[1]))
      && (|b| == 3 ==> 0xE0 <= b[0] < 0xF0 && u == 0x40 * (0x40 * ((b[0] as int) - 0xE0) + SixBits(b[1])) + SixBits(b[2]))
      && (|b| == 4 ==> 0xF0 <= b[0] < 0xF5)
      && (|b| == 4 ==> u == 0x40 * (0x40 * (0x40 * ((b[0] as int) - 0xF0) + SixBits(b[1])) + SixBits(b[2])) + SixBits(b[3]))
  {
    var u := c as int;
    Sixes(u);
    Sixes(u / 0x40);
    Sixes(u / 0x1000);
  }

  function Utf8(s: string): seq<Byte> {
    if s == "" then [] else Utf8(s[..|s| - 1]) + Utf8Char(s[|s| - 1])
  }

  lemma Utf8Last(s: string, c: char)
    ensures Utf8(s + [c]) == Utf8(s) + Utf8Char(c)
  {
    hide Utf8Char;
    assert (s + [c])[..|s|] == s;
  }

  /** The bytes of a text are those of its parts in their order. */
  lemma {:induction false} Utf8Joins(s: string, t: string)
    ensures Utf8(s + t) == Utf8(s) + Utf8(t)
  {
    hide Utf8, Utf8Char;
    if t == "" {
      assert s + t == s && Utf8(t) == [] by { NoBytes(); }
    } else {
      var n := |t| - 1;
      Utf8Joins(s, t[..n]);
      Utf8Last(s + t[..n], t[n]);
      Utf8Last(t[..n], t[n]);
      assert s + t == s + t[..n] + [t[n]] && t == t[..n] + [t[n]];
    }
  }

  lemma NoBytes()
    ensures Utf8("") == []
  {
  }
}
