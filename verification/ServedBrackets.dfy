/** The checks a bracket passes before it is granted, and what they come to: a duplicate-free rearrangement
    of the ids the player was served, which every later reader decodes alike and can replay. */
module ServedBrackets {
  import opened Options
  import opened Texts
  import opened HexCodec
  import opened Bracket
  import opened BracketLaws
  import opened Sorting

  // ---------- The length check ----------

  /** Bitwise and of two non-negative integers. */
  function BitAnd(a: nat, b: nat): nat {
    if a == 0 then 0 else (a % 2) * (b % 2) + 2 * BitAnd(a / 2, b / 2)
  }

  predicate IsValidBracketByteLength(n: nat) {
    4 <= n <= 2048 && BitAnd(n, n - 1) == 0
  }

  lemma {:induction false} AndWithItself(a: nat)
    ensures BitAnd(a, a) == a
  {
    if a > 0 { AndWithItself(a / 2); }
  }

  /** Clearing the lowest bit leaves nothing exactly for the powers of two. */
  lemma {:induction false} LowestBitTest(n: nat)
    requires n >= 1
    ensures BitAnd(n, n - 1) == 0 <==> IsPowerOfTwo(n)
  {
    if n == 1 {
    } else if n % 2 == 0 {
      LowestBitTest(n / 2);
      assert (n - 1) / 2 == n / 2 - 1;
    } else {
      AndWithItself(n / 2);
      assert (n - 1) / 2 == n / 2;
    }
  }

  /** The length check in terms of the ids it leaves room for. */
  lemma LengthFits(n: nat)
    ensures IsValidBracketByteLength(n) <==> n % 2 == 0 && 2 <= n / 2 <= 1024 && IsPowerOfTwo(n / 2)
  {
    hide BitAnd;
    if n >= 2 {
      LowestBitTest(n);
      assert IsPowerOfTwo(n) <==> n % 2 == 0 && IsPowerOfTwo(n / 2);
    }
  }

  // ---------- Duplicates ----------

  function IdSet(ids: seq<int>): set<int> {
    set id | id in ids
  }

  predicate HasDuplicateIds(ids: seq<int>) {
    |IdSet(ids)| != |ids|
  }

  lemma {:induction false} SetSize(ids: seq<int>)
    ensures |IdSet(ids)| <= |ids| && (|IdSet(ids)| == |ids| <==> Distinct(ids))
  {
    if ids == [] {
      assert IdSet(ids) == {};
    } else {
      var rest, last := ids[..|ids| - 1], ids[|ids| - 1];
      SetSize(rest);
      assert IdSet(ids) == IdSet(rest) + {last};
      if last in rest {
        assert IdSet(rest) + {last} == IdSet(rest);
        assert !Distinct(ids);
      } else if Distinct(rest) {
        assert Distinct(ids);
      }
    }
  }

  lemma DuplicatesFound(ids: seq<int>)
    ensures HasDuplicateIds(ids) <==> !Distinct(ids)
  {
    SetSize(ids);
  }

  // ---------- Equality up to order ----------

  predicate SortedEqual(a: seq<int>, b: seq<int>) {
    |a| == |b| && Sorted(a) == Sorted(b)
  }

  /** Comparing sorted copies is comparing multisets. */
  lemma SortedEqualIsMultisetEquality(a: seq<int>, b: seq<int>)
    ensures SortedEqual(a, b) <==> multiset(a) == multiset(b)
  {
    SortSorts(a);
    SortSorts(b);
    if multiset(a) == multiset(b) {
      SortedFormIsUnique(Sorted(a), Sorted(b));
      assert |multiset(a)| == |a| && |multiset(b)| == |b|;
    }
  }

  // ---------- The stored form of the served ids ----------

  function Join(ids: seq<nat>): string {
    if ids == [] then "" else if |ids| == 1 then Decimal(ids[0]) else Decimal(ids[0]) + "_" + Join(ids[1..])
  }

  /** `text.split('_')`, reading from `from` with `piece` gathered so far. */
  function Split(text: string, from: nat, piece: string): seq<string>
    requires from <= |text|
    decreases |text| - from
  {
    if from == |text| then [piece]
    else if text[from] == '_' then [piece] + Split(text, from + 1, "")
    else Split(text, from + 1, piece + [text[from]])
  }

  function Decimals(ids: seq<nat>): seq<string> {
    seq(|ids|, i requires 0 <= i < |ids| => Decimal(ids[i]))
  }

  lemma {:induction false} SplitReadsPiece(text: string, from: nat, piece: string, upTo: nat)
    requires from <= upTo <= |text| && '_' !in text[from..upTo]
    ensures Split(text, from, piece) == Split(text, upTo, piece + text[from..upTo])
    decreases upTo - from
  {
    if from == upTo {
      assert piece + text[from..upTo] == piece;
    } else {
      assert text[from] == text[from..upTo][0];
      assert text[from..upTo] == [text[from]] + text[from + 1..upTo];
      SplitReadsPiece(text, from + 1, piece + [text[from]], upTo);
      assert piece + [text[from]] + text[from + 1..upTo] == piece + text[from..upTo];
    }
  }

  lemma SplitStops(text: string, from: nat, piece: string)
    requires from <= |text|
    ensures from == |text| ==> Split(text, from, piece) == [piece]
    ensures from < |text| && text[from] == '_' ==> Split(text, from, piece) == [piece] + Split(text, from + 1, "")
  {
  }

  /** The text of a list starts with its first number, which holds no separator. */
  lemma JoinStarts(ids: seq<nat>)
    requires ids != []
    ensures var d, text := Decimal(ids[0]), Join(ids);
      && |d| <= |text| && text[..|d|] == d && '_' !in d
      && (if |ids| == 1 then |text| == |d| else |text| > |d| && text[|d|] == '_' && text[|d| + 1..] == Join(ids[1..]))
  {
    hide Decimal;
  }

  lemma DecimalsOf(ids: seq<nat>)
    requires ids != []
    ensures Decimals(ids) == [Decimal(ids[0])] + Decimals(ids[1..])
  {
  }

  lemma {:induction false} SplitJoined(text: string, from: nat, ids: seq<nat>)
    requires ids != [] && from <= |text| && text[from..] == Join(ids)
    ensures Split(text, from, "") == Decimals(ids)
    decreases |ids|
  {
    hide Split, Join, Decimal, Decimals;
    var d := Decimal(ids[0]);
    var upTo := from + |d|;
    JoinStarts(ids);
    DecimalsOf(ids);
    assert text[from..upTo] == text[from..][..|d|] == d;
    SplitReadsPiece(text, from, "", upTo);
    assert "" + d == d;
    SplitStops(text, upTo, d);
    if |ids| == 1 {
      NoDecimals();
      assert ids[1..] == [];
    } else {
      assert text[upTo] == text[from..][|d|];
      assert text[upTo + 1..] == text[from..][|d| + 1..];
      SplitJoined(text, upTo + 1, ids[1..]);
    }
  }

  lemma NoDecimals()
    ensures Decimals([]) == []
  {
  }

  /** `itemIds.split('_').map(Number)`. */
  function ServedIds(text: string): seq<Option<nat>> {
    var pieces := Split(text, 0, "");
    seq(|pieces|, i requires 0 <= i < |pieces| => Number(pieces[i]))
  }

  function Present(ids: seq<nat>): seq<Option<nat>> {
    seq(|ids|, i requires 0 <= i < |ids| => Some(ids[i]))
  }

  /** Joining and splitting gives the served ids back, exactly when there are any: the empty list is stored
      as the empty text, which reads as the one id zero. */
  lemma JoinSplitRoundTrip(ids: seq<nat>)
    ensures ServedIds(Join(ids)) == Present(ids) <==> ids != []
    ensures ids == [] ==> ServedIds(Join(ids)) == [Some(0)]
  {
    var text := Join(ids);
    if ids == [] {
      assert Split("", 0, "") == [""];
      assert Number("") == Some(0);
    } else {
      assert text[0..] == text;
      SplitJoined(text, 0, ids);
      forall i | 0 <= i < |ids| ensures Number(Decimals(ids)[i]) == Some(ids[i]) {
        NumberOfDecimal(ids[i]);
      }
      assert ServedIds(text) == Present(ids);
    }
  }

  // ---------- The whole check ----------

  /** The request's format check: 0x and at least one whole pair of hex digits. */
  predicate WellFormed(data: string) {
    HasPrefix(data) && |data| > 2 && IsStrictHex(AfterPrefix(data))
  }

  /** `decodeAndValidateData` behind the format check. */
  method DecodeAndValidateData(data: string) returns (r: Option<seq<nat>>)
    requires WellFormed(data)
    ensures r == if SpellsBracket(data) then Some(IdsIn(data)) else None
  {
    hide IsValidBracketByteLength, HasDuplicateIds, BufferFrom, IsPowerOfTwo, WellFormed;
    LengthOfStrict(data);
    r := TournamentDataToUint16Array(data);
    var byteLength := (|data| - 2) / 2;
    LengthFits(byteLength);
    if !IsValidBracketByteLength(byteLength) { return None; }
    if r.None? { return; }
    DuplicatesFound(r.value);
    if HasDuplicateIds(r.value) { return None; }
  }

  function AsIds(served: seq<nat>): (ids: seq<int>)
    ensures |ids| == |served|
  {
    served
  }

  function IdsIn(data: string): seq<nat> {
    Uint16s(BufferFrom(AfterPrefix(data)))
  }

  predicate SpellsBracket(data: string) {
    |BufferFrom(AfterPrefix(data))| % 2 == 0 && ValidBracket(IdsIn(data))
  }

  lemma LengthOfStrict(data: string)
    requires WellFormed(data)
    ensures |BufferFrom(AfterPrefix(data))| == (|data| - 2) / 2
  {
    DecodersAgreeIff(data);
  }

  /** Between 2 and 1024 ids, a power of two of them, no two alike. */
  predicate ValidBracket(ids: seq<int>) {
    2 <= |ids| <= 1024 && IsPowerOfTwo(|ids|) && Distinct(ids)
  }

  function Unwrapped(served: seq<Option<nat>>): (ids: seq<int>)
    ensures |ids| == |served|
  {
    // a piece that is no number equals no id
    seq(|served|, i requires 0 <= i < |served| => if served[i].Some? then served[i].value as int else -1)
  }

  method AssertMatchesPlayVerification(served: seq<Option<nat>>, ids: seq<int>) returns (ok: bool)
    ensures ok <==> multiset(ids) == multiset(Unwrapped(served))
  {
    SortedEqualIsMultisetEquality(ids, Unwrapped(served));
    if |ids| != |served| {
      assert |multiset(ids)| == |ids| && |multiset(Unwrapped(served))| == |served|;
      return false;
    }
    return SortedEqual(ids, Unwrapped(served));
  }

  /** A bracket passes the grant path's checks exactly when it is a valid arrangement of the served ids. */
  method AcceptBracket(data: string, served: seq<nat>) returns (r: Option<seq<nat>>)
    requires WellFormed(data)
    ensures r == if SpellsBracket(data) && multiset(AsIds(IdsIn(data))) == multiset(AsIds(served)) then Some(IdsIn(data)) else None
  {
    r := DecodeAndValidateData(data);
    if r.None? { return; }
    var stored := ServedIds(Join(served));
    JoinSplitRoundTrip(served);
    var ok := AssertMatchesPlayVerification(stored, r.value);
    if served == [] {
      assert |multiset(r.value)| == |r.value| && |multiset(Unwrapped(stored))| == 1;
    } else {
      assert Unwrapped(stored) == served;
    }
    if !ok { return None; }
  }

  /** What an accepted bracket is good for: the leaf's decoder reads the same ids from it, the statistics
      replay it without an error, and the replay credits each served item with one loss except the first. */
  lemma AcceptedBracketsAreServed(data: string, served: seq<nat>, p: nat)
    requires WellFormed(data)
    requires SpellsBracket(data) && multiset(AsIds(IdsIn(data))) == multiset(AsIds(served)) && p < |IdsIn(data)|
    ensures HexBytes(Stripped(data)).Some? && Uint16s(HexBytes(Stripped(data)).value) == IdsIn(data)
    ensures var ids := IdsIn(data);
      Replayable(|ids|) && |ids| == |served| && ids[p] in served && Losses(Games(ids), ids[p]) == (if p == 0 then 0 else 1)
  {
    var ids := IdsIn(data);
    DecodersAgreeIff(data);
    assert |multiset(ids)| == |ids| && |multiset(AsIds(served))| == |served|;
    assert ids[p] in multiset(ids);
    PositionLaw(ids, p);
  }
}
