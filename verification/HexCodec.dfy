/** The two hex decoders of the program: the grant path and the statistics read brackets with one that
    truncates, the leaf is hashed from the bytes of one that throws. */
module HexCodec {
  import opened Options
  import opened Texts

  function HexValue(c: char): Option<nat> {
    if '0' <= c <= '9' then Some(c as int - '0' as int)
    else if 'a' <= c <= 'f' then Some(c as int - 'a' as int + 10)
    else if 'A' <= c <= 'F' then Some(c as int - 'A' as int + 10)
    else None
  }

  predicate IsHex(c: char) {
    HexValue(c).Some?
  }

  const DIGITS := "0123456789abcdef"
  const CAPITAL_DIGITS := "0123456789ABCDEF"

  /** A hex digit of either case is worth its place in the row of digits; nothing else is one. */
  lemma DigitsCount(c: char, v: nat)
    ensures HexValue(c) == Some(v) <==> v < 16 && (c == DIGITS[v] || c == CAPITAL_DIGITS[v])
  {
    assert DIGITS[10] == 'a' && DIGITS[11] == 'b' && DIGITS[12] == 'c' && DIGITS[13] == 'd' && DIGITS[14] == 'e' && DIGITS[15] == 'f';
  }

  function PairValue(a: char, b: char): Byte
    requires IsHex(a) && IsHex(b)
  {
    16 * HexValue(a).value + HexValue(b).value
  }

  /** Whole pairs of hex digits and nothing else. */
  predicate IsStrictHex(digits: string) {
    |digits| % 2 == 0 && forall i :: 0 <= i < |digits| ==> IsHex(digits[i])
  }

  // ---------- The truncating decoder ----------

  /** How many leading pairs of `digits`, from pair `i` on, are valid. */
  function ValidPairs(digits: string, i: nat): nat
    decreases |digits| - i
  {
    if 2 * i + 1 < |digits| && IsHex(digits[2 * i]) && IsHex(digits[2 * i + 1]) then 1 + ValidPairs(digits, i + 1) else 0
  }

  lemma {:induction false} ValidPairsAreValid(digits: string, i: nat)
    ensures ValidPairs(digits, i) == 0 || 2 * (i + ValidPairs(digits, i)) <= |digits|
    ensures forall k :: i <= k < i + ValidPairs(digits, i) ==> 2 * k + 1 < |digits| && IsHex(digits[2 * k]) && IsHex(digits[2 * k + 1])
    ensures var n := i + ValidPairs(digits, i); 2 * n + 1 < |digits| ==> !(IsHex(digits[2 * n]) && IsHex(digits[2 * n + 1]))
    decreases |digits| - i
  {
    if 2 * i + 1 < |digits| && IsHex(digits[2 * i]) && IsHex(digits[2 * i + 1]) {
      ValidPairsAreValid(digits, i + 1);
    }
  }

  /** `Buffer.from(digits, 'hex')`: it stops at the first invalid pair and drops an odd digit. */
  function BufferFrom(digits: string): (buf: seq<Byte>)
    ensures |buf| == ValidPairs(digits, 0)
  {
    ValidPairsAreValid(digits, 0);
    seq(ValidPairs(digits, 0), k requires 0 <= k < ValidPairs(digits, 0) => PairValue(digits[2 * k], digits[2 * k + 1]))
  }

  /** `buf.readUInt16BE(offset)`; None when it throws. */
  function ReadUInt16BE(buf: seq<Byte>, offset: nat): Option<int> {
    if offset + 1 < |buf| then Some(256 * (buf[offset] as int) + buf[offset + 1]) else None
  }

  /** The ids a byte string spells. */
  function Uint16s(buf: seq<Byte>): (ids: seq<nat>)
    ensures |ids| == |buf| / 2 && forall i :: 0 <= i < |ids| ==> ids[i] < 65536
  {
    seq(|buf| / 2, i requires 0 <= i < |buf| / 2 => 256 * (buf[2 * i] as int) + buf[2 * i + 1])
  }

  /** The i-th id is the number its four hex digits spell, the first one most significant. */
  lemma IdsAreFourDigits(digits: string, i: nat)
    requires i < |BufferFrom(digits)| / 2
    ensures 4 * i + 3 < |digits|
    ensures var a, b := HexValue(digits[4 * i]), HexValue(digits[4 * i + 1]);
      var c, d := HexValue(digits[4 * i + 2]), HexValue(digits[4 * i + 3]);
      && a.Some? && b.Some? && c.Some? && d.Some?
      && Uint16s(BufferFrom(digits))[i] == 0x1000 * a.value + 0x100 * b.value + 0x10 * c.value + d.value
  {
    hide ValidPairs, HexValue;
    ValidPairsAreValid(digits, 0);
    assert IsHex(digits[2 * (2 * i)]) && IsHex(digits[2 * (2 * i) + 1]);
    assert IsHex(digits[2 * (2 * i + 1)]) && IsHex(digits[2 * (2 * i + 1) + 1]);
  }

  function AfterPrefix(data: string): string {
    if |data| <= 2 then "" else data[2..]
  }

  method TournamentDataToUint16Array(data: string) returns (r: Option<seq<nat>>)
    ensures var buf := BufferFrom(AfterPrefix(data)); r == if |buf| % 2 == 0 then Some(Uint16s(buf)) else None
  {
    var buf := BufferFrom(AfterPrefix(data));
    if |buf| % 2 != 0 { return None; }
    var out := new nat[|buf| / 2];
    for i := 0 to out.Length
      invariant forall k :: 0 <= k < i ==> out[k] == Uint16s(buf)[k]
    {
      var word := ReadUInt16BE(buf, 2 * i);
      out[i] := word.value;
    }
    assert out[..] == Uint16s(buf);
    return Some(out[..]);
  }

  // ---------- The strict decoder ----------

  /** What `fromHex` decodes; None when it throws. */
  function HexBytes(digits: string): Option<seq<Byte>> {
    if IsStrictHex(digits)
    then Some(seq(|digits| / 2, k requires 0 <= k < |digits| / 2 => PairValue(digits[2 * k], digits[2 * k + 1])))
    else None
  }

  predicate HasPrefix(hex: string) {
    |hex| >= 2 && hex[0] == '0' && hex[1] == 'x'
  }

  function Stripped(hex: string): string {
    if HasPrefix(hex) then hex[2..] else hex
  }

  method FromHex(hex: string) returns (r: Option<seq<Byte>>)
    ensures r == HexBytes(Stripped(hex))
  {
    var clean := if HasPrefix(hex) then hex[2..] else hex;
    if |clean| % 2 != 0 { return None; }
    for i := 0 to |clean|
      invariant forall k :: 0 <= k < i ==> IsHex(clean[k])
    {
      if !IsHex(clean[i]) { return None; }
    }
    var out := new Byte[|clean| / 2];
    for i := 0 to out.Length
      invariant forall k :: 0 <= k < i ==> out[k] == PairValue(clean[2 * k], clean[2 * k + 1])
    {
      out[i] := PairValue(clean[2 * i], clean[2 * i + 1]);
    }
    assert IsStrictHex(clean);
    assert out[..] == HexBytes(clean).value;
    return Some(out[..]);
  }

  /** `bytes32`: exactly 32 bytes, or an error. */
  function Bytes32Of(hex: string): (r: Option<seq<Byte>>)
    ensures r.Some? <==> IsStrictHex(Stripped(hex)) && |Stripped(hex)| == 64
  {
    var b := HexBytes(Stripped(hex));
    if b.Some? && |b.value| == 32 then b else None
  }

  function Zeros(n: nat): seq<Byte> {
    seq(n, _ => 0)
  }

  /** The UTF-8 bytes of a text of at most 32 of them, filled up with zeros. */
  function Padded(text: string): (r: Option<seq<Byte>>)
    ensures r.Some? <==> |Utf8(text)| <= 32
    ensures r.Some? ==> |r.value| == 32
  {
    if |Utf8(text)| > 32 then None else Some(Utf8(text) + Zeros(32 - |Utf8(text)|))
  }

  method Pad32(text: string) returns (r: Option<seq<Byte>>)
    ensures r == Padded(text)
  {
    var enc := Utf8(text);
    if |enc| > 32 { return None; }
    var out := new Byte[32](_ => 0);
    for i := 0 to |enc|
      invariant forall k :: 0 <= k < i ==> out[k] == enc[k]
      invariant forall k :: i <= k < 32 ==> out[k] == 0
    {
      out[i] := enc[i];
    }
    assert out[..] == Padded(text).value;
    return Some(out[..]);
  }

  /** Bytes as a number, the first one most significant. */
  function BytesValue(bytes: seq<Byte>): nat {
    if bytes == [] then 0 else 256 * BytesValue(bytes[..|bytes| - 1]) + bytes[|bytes| - 1]
  }

  // ---------- The printer ----------

  function HexDigit(v: nat): char
    requires v < 16
  {
    if v < 10 then ('0' as int + v) as char else ('a' as int + (v - 10)) as char
  }

  function ToHex(bytes: seq<Byte>): (digits: string)
    ensures |digits| == 2 * |bytes|
  {
    seq(2 * |bytes|, i requires 0 <= i < 2 * |bytes| => HexDigit(if i % 2 == 0 then bytes[i / 2] / 16 else bytes[i / 2] % 16))
  }

  lemma PairOfDigits(b: Byte)
    ensures var x, y := HexDigit(b / 16), HexDigit(b % 16); IsHex(x) && IsHex(y) && PairValue(x, y) == b && y != 'x'
  {
  }

  lemma PrintedDigits(bytes: seq<Byte>, k: nat)
    requires k < |bytes|
    ensures var x, y := ToHex(bytes)[2 * k], ToHex(bytes)[2 * k + 1];
      IsHex(x) && IsHex(y) && PairValue(x, y) == bytes[k] && y != 'x'
  {
    hide HexDigit, HexValue, PairValue;
    PairOfDigits(bytes[k]);
  }

  lemma PrintedIsStrict(bytes: seq<Byte>)
    ensures IsStrictHex(ToHex(bytes)) && HexBytes(ToHex(bytes)) == Some(bytes)
  {
    hide ToHex, HexValue, PairValue;
    var digits := ToHex(bytes);
    forall i | 0 <= i < |digits| ensures IsHex(digits[i]) {
      PrintedDigits(bytes, i / 2);
      assert i == 2 * (i / 2) || i == 2 * (i / 2) + 1;
    }
    forall k | 0 <= k < |bytes| ensures HexBytes(digits).value[k] == bytes[k] {
      PrintedDigits(bytes, k);
    }
    assert HexBytes(digits).value == bytes;
  }

  /** The number that stands for some bytes tells them apart from all others of the same length. */
  lemma {:induction false} BytesValueTellsBytes(a: seq<Byte>, b: seq<Byte>)
    requires |a| == |b| && BytesValue(a) == BytesValue(b)
    ensures a == b
  {
    if a != [] {
      var n := |a| - 1;
      BytesValueTellsBytes(a[..n], b[..n]);
      assert a == a[..n] + [a[n]] && b == b[..n] + [b[n]];
    }
  }

  /** Printing and decoding give the bytes back, with and without the prefix: a printed string never
      starts like one. */
  lemma HexRoundTrip(bytes: seq<Byte>)
    ensures HexBytes(Stripped(ToHex(bytes))) == Some(bytes)
    ensures HexBytes(Stripped("0x" + ToHex(bytes))) == Some(bytes)
  {
    hide ToHex, HexBytes;
    var digits := ToHex(bytes);
    PrintedIsStrict(bytes);
    if bytes != [] { PrintedDigits(bytes, 0); }
    assert Stripped(digits) == digits;
    assert Stripped("0x" + digits) == digits;
  }

  // ---------- The two decoders against each other ----------

  /** On prefixed data the decoders read the same bytes exactly when the rest is whole pairs of hex digits,
      which is what the request's own format check demands. */
  lemma DecodersAgreeIff(data: string)
    requires HasPrefix(data)
    ensures HexBytes(Stripped(data)) == Some(BufferFrom(AfterPrefix(data))) <==> IsStrictHex(AfterPrefix(data))
  {
    var digits := AfterPrefix(data);
    assert Stripped(data) == digits;
    if IsStrictHex(digits) {
      ValidPairsAreValid(digits, 0);
      assert |BufferFrom(digits)| == |digits| / 2;
      assert BufferFrom(digits) == HexBytes(digits).value;
    }
  }

  /** A stray character: one decoder cuts the bracket short, the other refuses it. */
  lemma DecodersDisagree()
    ensures BufferFrom(AfterPrefix("0x0007zz")) == [0, 7] && HexBytes(Stripped("0x0007zz")) == None
  {
    var digits := "0007zz";
    assert AfterPrefix("0x0007zz") == digits && Stripped("0x0007zz") == digits;
    assert !IsHex(digits[4]);
    assert ValidPairs(digits, 2) == 0;
    assert ValidPairs(digits, 0) == 2;
  }
}
