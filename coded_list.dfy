/** Coded-list attributes (RESTRN, CATREA, COLOUR, CATLIT, ...): the text
  * "a,b,c" decoded by `_parseList` into a 0-terminated byte buffer, and the
  * membership test `_strpbrk` run over such buffers. */
module CodedList {
  import opened Basics

  /** Size of every code buffer; at most LISTSIZE - 1 codes are kept. */
  const LISTSIZE: nat := 16

  /** The end of the run of digits that starts at position `p` of `s`. */
  function RunEnd(s: string, p: nat): (q: nat)
    requires p <= |s|
    ensures p <= q <= |s|
    ensures forall i :: p <= i < q ==> IsDigit(s[i])
    ensures q < |s| ==> !IsDigit(s[q])
    decreases |s| - p
  {
    if p == |s| || !IsDigit(s[p]) then p else RunEnd(s, p + 1)
  }

  /** The code stored for the field that starts at position `p`: the value
    * of its digits, cast to an unsigned char (an empty field gives 0). */
  function FieldAt(s: string, p: nat): (c: int)
    requires p <= |s|
    ensures 0 <= c < 256
  {
    var q := RunEnd(s, p);
    assert AllDigits(s[p..q]) by {
      forall i | 0 <= i < q - p ensures IsDigit(s[p..q][i]) {
        assert s[p..q][i] == s[p + i];
      }
    }
    DigitsValue(s[p..q]) % 256
  }

  /** Every code the parsing loop stores from position `p` on when the
    * buffer is large enough: one per field, where a field ends at the first
    * non-digit and that character is skipped. */
  function DecodeAt(s: string, p: nat): (codes: seq<int>)
    requires p <= |s|
    ensures |codes| >= 1
    decreases |s| - p
  {
    var q := RunEnd(s, p);
    if q == |s| then [FieldAt(s, p)]
    else [FieldAt(s, p)] + DecodeAt(s, q + 1)
  }

  /** The codes `_parseList` leaves in front of the terminator for an
    * attribute text (None stands for a NULL text). */
  function ParseListSpec(text: Option<string>): seq<int> {
    if text.None? || text.value == [] then []
    else
      var all := DecodeAt(text.value, 0);
      all[..Min(|all|, LISTSIZE - 1)]
  }

  /** The `isdigit` loop of `_parseList`: the position after the digits at `p`. */
  method SkipDigits(s: string, p: nat) returns (q: nat)
    requires p <= |s|
    ensures q == RunEnd(s, p)
  {
    q := p;
    while q < |s| && IsDigit(s[q])
      invariant p <= q <= |s|
      invariant RunEnd(s, q) == RunEnd(s, p)
    {
      q := q + 1;
    }
  }

  /** One round of the parsing loop: the field at `p` is the next code,
    * and what follows the character after its digits decodes to the rest. */
  lemma ParseStep(s: string, p: nat, all: seq<int>, n: nat)
    requires p <= |s| && n < |all|
    requires DecodeAt(s, p) == all[n..]
    ensures all[n] == FieldAt(s, p)
    ensures RunEnd(s, p) == |s| ==> |all| == n + 1
    ensures RunEnd(s, p) < |s| ==> n + 1 < |all| && DecodeAt(s, RunEnd(s, p) + 1) == all[n + 1..]
  {
    assert all[n..] == [all[n]] + all[n + 1..];
  }

  /** `_parseList`: fills `buf` with the codes of `text`, writes the 0
    * terminator after them and returns their number. */
  method ParseList(text: Option<string>, buf: array<int>) returns (n: nat)
    requires buf.Length == LISTSIZE
    modifies buf
    ensures n <= LISTSIZE - 1
    ensures buf[..n] == ParseListSpec(text)
    ensures buf[n] == 0
    ensures forall k :: n < k < LISTSIZE ==> buf[k] == old(buf[k])
  {
    n := 0;
    if text.Some? && text.value != [] {
      n := FillCodes(text.value, buf);
    }
    buf[n] := 0;
  }

  /** The filling loop of `_parseList` on a non-empty text: it stores the
    * decoded codes until the text ends or 15 are stored. */
  method FillCodes(s: string, buf: array<int>) returns (n: nat)
    requires buf.Length == LISTSIZE && s != []
    modifies buf
    ensures n == Min(|DecodeAt(s, 0)|, LISTSIZE - 1)
    ensures buf[..n] == DecodeAt(s, 0)[..n]
    ensures forall k :: n <= k < LISTSIZE ==> buf[k] == old(buf[k])
  {
    ghost var all := DecodeAt(s, 0);
    n := 0;
    var p := 0;
    while n < LISTSIZE - 1
      invariant p <= |s| && n <= LISTSIZE - 1 && n < |all|
      invariant buf[..n] == all[..n]
      invariant DecodeAt(s, p) == all[n..]
      invariant forall k :: n <= k < LISTSIZE ==> buf[k] == old(buf[k])
      decreases |s| - p
    {
      var q := StoreField(s, p, buf, n, all);
      n := n + 1;
      if q == |s| {
        return;
      }
      p := q + 1;
    }
  }

  /** One round of the filling loop: stores the code of the field at `p`
    * in slot `n` and returns the position after its digits. */
  method StoreField(s: string, p: nat, buf: array<int>, n: nat, ghost all: seq<int>) returns (q: nat)
    requires p <= |s| && n < |all| && n < buf.Length
    requires DecodeAt(s, p) == all[n..]
    requires buf[..n] == all[..n]
    modifies buf
    ensures buf[..n + 1] == all[..n + 1]
    ensures forall k :: n < k < buf.Length ==> buf[k] == old(buf[k])
    ensures p <= q <= |s|
    ensures q == |s| ==> |all| == n + 1
    ensures q < |s| ==> n + 1 < |all| && DecodeAt(s, q + 1) == all[n + 1..]
  {
    ParseStep(s, p, all, n);
    buf[n] := FieldAt(s, p);
    assert buf[..n + 1] == buf[..n] + [all[n]];
    q := SkipDigits(s, p);
  }

  /** The text "c0,c1,...": each code in decimal, separated by commas. */
  function Join(codes: seq<nat>): (s: string)
    requires codes != []
    decreases |codes|
  {
    if |codes| == 1 then Decimal(codes[0])
    else Decimal(codes[0]) + "," + Join(codes[1..])
  }

  /** Positions in `t` keep their digit runs when `pre` is put in front. */
  lemma {:induction false} RunEndShift(pre: string, t: string, k: nat)
    requires k <= |t|
    ensures RunEnd(pre + t, |pre| + k) == |pre| + RunEnd(t, k)
    decreases |t| - k
  {
    if k < |t| && IsDigit(t[k]) {
      assert (pre + t)[|pre| + k] == t[k];
      RunEndShift(pre, t, k + 1);
    } else if k < |t| {
      assert (pre + t)[|pre| + k] == t[k];
    }
  }

  /** Putting `pre` in front of `t` does not change what `t` decodes to. */
  lemma {:induction false} DecodeAtShift(pre: string, t: string, k: nat)
    requires k <= |t|
    ensures DecodeAt(pre + t, |pre| + k) == DecodeAt(t, k)
    decreases |t| - k
  {
    var q := RunEnd(t, k);
    RunEndShift(pre, t, k);
    assert (pre + t)[|pre| + k..|pre| + q] == t[k..q];
    assert FieldAt(pre + t, |pre| + k) == FieldAt(t, k);
    if q < |t| {
      DecodeAtShift(pre, t, q + 1);
    }
  }

  /** The digits of a code, followed by nothing or by a non-digit, form one
    * field whose code is that value. */
  lemma {:induction false} RunOfDecimal(c: nat, rest: string, i: nat)
    requires c < 256 && i <= |Decimal(c)|
    requires rest == [] || !IsDigit(rest[0])
    ensures RunEnd(Decimal(c) + rest, i) == |Decimal(c)|
    decreases |Decimal(c)| - i
  {
    var s := Decimal(c) + rest;
    if i < |Decimal(c)| {
      assert s[i] == Decimal(c)[i];
      RunOfDecimal(c, rest, i + 1);
    } else if rest != [] {
      assert s[i] == rest[0];
    }
  }

  /** The digits of one code, alone, decode to it. */
  lemma DecodeDigits(c: nat)
    requires c < 256
    ensures DecodeAt(Decimal(c), 0) == [c]
  {
    var head := Decimal(c);
    RunOfDecimal(c, [], 0);
    assert head + [] == head;
    assert head[0..|head|] == head;
    assert c % 256 == c;
  }

  /** The digits of one code followed by a comma decode to it, and decoding
    * goes on after the comma. */
  lemma DecodeField(c: nat, tail: string)
    requires c < 256
    ensures DecodeAt(Decimal(c) + "," + tail, 0) == [c] + DecodeAt(tail, 0)
  {
    var head := Decimal(c);
    var s := head + "," + tail;
    assert RunEnd(s, 0) == |head| && s[0..|head|] == head by {
      assert s == head + ("," + tail);
      RunOfDecimal(c, "," + tail, 0);
    }
    assert FieldAt(s, 0) == c by {
      assert DigitsValue(s[0..|head|]) == c;
      assert c % 256 == c;
    }
    assert DecodeAt(s, |head| + 1) == DecodeAt(tail, 0) by {
      assert s == (head + ",") + tail;
      DecodeAtShift(head + ",", tail, 0);
    }
    assert DecodeAt(s, 0) == [FieldAt(s, 0)] + DecodeAt(s, |head| + 1);
  }

  /** Decoding undoes joining, for codes that fit in a byte. */
  lemma {:induction false} DecodeJoin(codes: seq<nat>)
    requires codes != []
    requires forall i :: 0 <= i < |codes| ==> codes[i] < 256
    ensures DecodeAt(Join(codes), 0) == codes
    decreases |codes|
  {
    if |codes| == 1 {
      DecodeDigits(codes[0]);
      assert codes == [codes[0]];
    } else {
      var tail := Join(codes[1..]);
      assert DecodeAt(tail, 0) == codes[1..] by {
        DecodeJoin(codes[1..]);
      }
      assert DecodeAt(Join(codes), 0) == [codes[0]] + DecodeAt(tail, 0) by {
        assert Join(codes) == Decimal(codes[0]) + "," + tail;
        DecodeField(codes[0], tail);
      }
      assert [codes[0]] + codes[1..] == codes;
    }
  }

  /** A list of at most LISTSIZE - 1 byte codes written as text is parsed
    * back to exactly those codes. */
  lemma ParseListJoin(codes: seq<nat>)
    requires 1 <= |codes| <= LISTSIZE - 1
    requires forall i :: 0 <= i < |codes| ==> codes[i] < 256
    ensures ParseListSpec(Some(Join(codes))) == codes
  {
    DecodeJoin(codes);
    assert Join(codes) != [] by {
      if |codes| > 1 { assert |Join(codes)| >= |Decimal(codes[0])|; }
    }
  }

  /** Whether `c` occurs in the 0-terminated list `list`. */
  predicate InList(c: int, list: seq<int>) {
    list != [] && list[0] != 0 && (list[0] == c || InList(c, list[1..]))
  }

  /** For a list without zeros, InList is plain membership. */
  lemma {:induction false} InListMembership(c: int, list: seq<int>)
    requires forall i :: 0 <= i < |list| ==> list[i] != 0
    ensures InList(c, list) <==> c in list
    decreases |list|
  {
    if list != [] {
      InListMembership(c, list[1..]);
      assert list == [list[0]] + list[1..];
    }
  }

  /** Whether some code of the 0-terminated buffer `s` occurs in `list`. */
  predicate HasAny(s: seq<int>, list: seq<int>) {
    s != [] && s[0] != 0 && (InList(s[0], list) || HasAny(s[1..], list))
  }

  /** HasAny asks for a code in front of the first 0 of `s` that is in `list`. */
  lemma {:induction false} HasAnyIff(s: seq<int>, list: seq<int>)
    ensures HasAny(s, list) <==>
      exists i :: 0 <= i < |s| && InList(s[i], list) && forall k :: 0 <= k <= i ==> s[k] != 0
    decreases |s|
  {
    if s != [] && s[0] != 0 {
      HasAnyIff(s[1..], list);
      if HasAny(s[1..], list) && !InList(s[0], list) {
        var i :| 0 <= i < |s[1..]| && InList(s[1..][i], list) && forall k :: 0 <= k <= i ==> s[1..][k] != 0;
        assert InList(s[i + 1], list) && forall k :: 0 <= k <= i + 1 ==> s[k] != 0 by {
          forall k | 0 <= k <= i + 1 ensures s[k] != 0 {
            if k > 0 { assert s[k] == s[1..][k - 1]; }
          }
        }
      }
      if exists i :: 0 <= i < |s| && InList(s[i], list) && forall k :: 0 <= k <= i ==> s[k] != 0 {
        var i :| 0 <= i < |s| && InList(s[i], list) && forall k :: 0 <= k <= i ==> s[k] != 0;
        if i > 0 {
          assert InList(s[1..][i - 1], list) && forall k :: 0 <= k <= i - 1 ==> s[1..][k] != 0;
        }
      }
    }
  }

  /** `_strpbrk`: the position of the first code of `s`, before its
    * terminator, that occurs in `list`. */
  method Strpbrk(s: seq<int>, list: seq<int>) returns (r: Option<nat>)
    ensures r.Some? <==> HasAny(s, list)
    ensures r.Some? ==> r.value < |s| && InList(s[r.value], list)
    ensures r.Some? ==> forall k :: 0 <= k <= r.value ==> s[k] != 0
    ensures r.Some? ==> forall k :: 0 <= k < r.value ==> !InList(s[k], list)
  {
    var i := 0;
    while i < |s| && s[i] != 0
      invariant 0 <= i <= |s|
      invariant forall k :: 0 <= k < i ==> s[k] != 0 && !InList(s[k], list)
      invariant HasAny(s, list) == HasAny(s[i..], list)
    {
      var j := 0;
      while j < |list| && list[j] != 0
        invariant 0 <= j <= |list|
        invariant InList(s[i], list) == InList(s[i], list[j..])
      {
        if list[j] == s[i] {
          return Some(i);
        }
        assert list[j..][1..] == list[j + 1..];
        j := j + 1;
      }
      assert s[i..][1..] == s[i + 1..];
      i := i + 1;
    }
    return None;
  }

  /** The codes in front of the first 0 of a buffer. */
  function CodeSet(s: seq<int>): set<int>
    decreases |s|
  {
    if s == [] || s[0] == 0 then {} else {s[0]} + CodeSet(s[1..])
  }

  /** HasAny depends only on which codes a buffer holds: not on their order,
    * nor on repetitions, nor on what follows the terminator. */
  lemma {:induction false} HasAnyCodeSet(s: seq<int>, list: seq<int>)
    ensures HasAny(s, list) <==> exists c :: c in CodeSet(s) && InList(c, list)
    decreases |s|
  {
    if s != [] && s[0] != 0 {
      HasAnyCodeSet(s[1..], list);
      assert CodeSet(s) == {s[0]} + CodeSet(s[1..]);
      if InList(s[0], list) {
        assert s[0] in CodeSet(s);
      }
    }
  }

  /** Two buffers holding the same codes meet the same membership tests. */
  lemma SameCodes(s1: seq<int>, s2: seq<int>, list: seq<int>)
    requires CodeSet(s1) == CodeSet(s2)
    ensures HasAny(s1, list) == HasAny(s2, list)
  {
    HasAnyCodeSet(s1, list);
    HasAnyCodeSet(s2, list);
  }

  /** A field left empty stores a 0, which ends every membership test there:
    * in "4,,7" the 7 is not seen. */
  lemma EmptyFieldHidesRest()
    ensures ParseListSpec(Some("4,,7")) == [4, 0, 7]
    ensures !HasAny(ParseListSpec(Some("4,,7")), [7])
  {
    var s := "4,,7";
    assert RunEnd(s, 3) == 4 && s[3..4] == "7";
    assert RunEnd(s, 2) == 2 && s[2..2] == "";
    assert RunEnd(s, 1) == 1;
    assert RunEnd(s, 0) == 1 && s[0..1] == "4";
    assert DecodeAt(s, 3) == [7];
    assert DecodeAt(s, 2) == [0, 7];
    assert DecodeAt(s, 0) == [4, 0, 7];
    assert [4, 0, 7][1..] == [0, 7];
  }
}
