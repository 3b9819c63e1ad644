/** Byte strings and UTF-8 character boundaries (section 4 of RFC 3629). */
module Utf8 {
  import opened Seqs
  import opened Text

  type Byte = b: int | 0 <= b < 256 witness 0

  type Bytes = seq<Byte>

  predicate IsContinuation(b: Byte) {
    0x80 <= b < 0xC0
  }

  /** Go's utf8.RuneStart. */
  predicate RuneStart(b: Byte) {
    !IsContinuation(b)
  }

  predicate Tail(s: Bytes, n: nat)
    requires n <= |s|
  {
    forall i :: 1 <= i < n ==> IsContinuation(s[i])
  }

  /** The length of the well-formed character s begins with, or 0. */
  function RuneLen(s: Bytes): (n: nat)
    ensures n <= 4 && n <= |s|
    ensures n > 0 ==> RuneStart(s[0]) && Tail(s, n)
  {
    if s == [] then 0
    else if s[0] <= 0x7F then 1
    else if 0xC2 <= s[0] <= 0xDF then
      if |s| >= 2 && Tail(s, 2) then 2 else 0
    else if 0xE0 <= s[0] <= 0xEF then
      if |s| >= 3 && Tail(s, 3) && (s[0] == 0xE0 ==> s[1] >= 0xA0) && (s[0] == 0xED ==> s[1] <= 0x9F) then 3 else 0
    else if 0xF0 <= s[0] <= 0xF4 then
      if |s| >= 4 && Tail(s, 4) && (s[0] == 0xF0 ==> s[1] >= 0x90) && (s[0] == 0xF4 ==> s[1] <= 0x8F) then 4 else 0
    else 0
  }

  predicate ValidUtf8(s: Bytes) {
    s == [] || (RuneLen(s) > 0 && ValidUtf8(s[RuneLen(s)..]))
  }

  /** A cut that does not split a character: at the end, or before a starting byte. */
  predicate Boundary(s: Bytes, i: nat)
    requires i <= |s|
  {
    i == |s| || RuneStart(s[i])
  }

  /** A character's length depends on its own bytes only. */
  lemma RuneLenPrefix(s: Bytes, n: nat)
    requires RuneLen(s) <= n <= |s| && RuneLen(s) > 0
    ensures RuneLen(s[..n]) == RuneLen(s)
  {
    assert forall i :: 0 <= i < RuneLen(s) ==> s[..n][i] == s[i];
  }

  lemma DropDrop(s: Bytes, i: nat, j: nat)
    requires i + j <= |s|
    ensures s[i..][j..] == s[i + j..]
    ensures s[..i + j] == s[..i] + s[i..][..j]
    ensures s[..i + j][i..] == s[i..][..j]
  {
  }

  lemma BoundaryAfter(s: Bytes, n: nat, i: nat)
    requires n <= i <= |s| && Boundary(s, i)
    ensures Boundary(s[n..], i - n)
  {
  }

  lemma ValidParts(s: Bytes)
    requires s != []
    ensures ValidUtf8(s) <==> RuneLen(s) > 0 && ValidUtf8(s[RuneLen(s)..])
  {
    hide RuneLen;
  }

  lemma NothingIsValid()
    ensures ValidUtf8([])
  {
  }

  /** In valid text, cutting before any starting byte leaves valid text on both sides. */
  lemma {:induction false} CutIsValid(s: Bytes, i: nat)
    requires ValidUtf8(s) && i <= |s| && Boundary(s, i)
    ensures ValidUtf8(s[..i]) && ValidUtf8(s[i..])
  {
    hide *;
    if i == 0 {
      TakeAll(s);
      NothingIsValid();
      assert s[..0] == [];
    } else {
      var n := RuneLen(s);
      ValidParts(s);
      FirstBoundary(s, i);
      BoundaryAfter(s, n, i);
      DropDrop(s, n, i - n);
      CutIsValid(s[n..], i - n);
      RuneLenPrefix(s, i);
      ValidParts(s[..i]);
    }
  }

  /** Valid text begins with a starting byte. */
  lemma ValidStarts(s: Bytes)
    requires ValidUtf8(s)
    ensures Boundary(s, 0)
  {
  }

  /** The first character ends at a boundary. */
  lemma RuneEnds(s: Bytes)
    requires ValidUtf8(s) && s != []
    ensures 0 < RuneLen(s) <= |s| && Boundary(s, RuneLen(s))
  {
    ValidStarts(s[RuneLen(s)..]);
  }

  /** No boundary falls inside the first character. */
  lemma FirstBoundary(s: Bytes, i: nat)
    requires ValidUtf8(s) && 0 < i <= |s| && Boundary(s, i)
    ensures RuneLen(s) <= i
  {
  }

  /** The last boundary in s at or before `at`. */
  function BoundaryBefore(s: Bytes, at: nat): (i: nat)
    requires at <= |s|
    ensures i <= at && (i > 0 ==> Boundary(s, i))
    ensures forall k :: i < k <= at ==> !Boundary(s, k)
  {
    if at == 0 || Boundary(s, at) then at else BoundaryBefore(s, at - 1)
  }

  /** Go's utf8.DecodeRune: the size of the first character, or 1 where there is none. */
  function DecodeSize(s: Bytes): (n: nat)
    requires s != []
    ensures 0 < n <= |s|
  {
    if RuneLen(s) > 0 then RuneLen(s) else 1
  }

  /** How many bytes of s a cut of at most max keeps: whole characters, but at least one. */
  function CutAt(s: Bytes, max: nat): (n: nat)
    ensures n <= |s| && (s != [] ==> n > 0)
  {
    if |s| <= max then |s|
    else if BoundaryBefore(s, max) > 0 then BoundaryBefore(s, max)
    else DecodeSize(s)
  }

  /** The cut falls on a boundary, keeps something, and is as long as the limit allows; it only
      exceeds the limit when the first character alone does. */
  lemma CutAtIsBoundary(s: Bytes, max: nat)
    requires ValidUtf8(s)
    ensures Boundary(s, CutAt(s, max)) && (s != [] ==> CutAt(s, max) > 0)
    ensures s != [] ==> CutAt(s, max) <= max || CutAt(s, max) == RuneLen(s)
    ensures max >= 4 ==> CutAt(s, max) <= max
    ensures forall k :: CutAt(s, max) < k <= max && k <= |s| ==> !Boundary(s, k)
  {
    if s != [] {
      RuneEnds(s);
    }
  }

  /** The backward scan to a starting byte. */
  method BackToRuneStart(s: Bytes, at: nat) returns (i: nat)
    requires at <= |s|
    ensures i == BoundaryBefore(s, at)
  {
    i := at;
    while i > 0 && i < |s| && !RuneStart(s[i])
      invariant i <= at && BoundaryBefore(s, at) == BoundaryBefore(s, i)
    {
      i := i - 1;
    }
  }

  // ---------------------------------------------------------------- bounded text

  function Capped(value: Bytes, max: nat): (r: Bytes)
    ensures |r| <= max
  {
    if |value| <= max then value else value[..BoundaryBefore(value, max)]
  }

  method CapUtf8Bytes(value: Bytes, max: nat) returns (capped: Bytes)
    ensures capped == Capped(value, max)
  {
    if |value| <= max {
      return value;
    }
    var cut := BackToRuneStart(value, max);
    return value[..cut];
  }

  /** A capped text is its longest whole-character prefix within the limit, so it is kept exactly
      when it is not too long. */
  lemma CappedIs(value: Bytes, max: nat)
    requires ValidUtf8(value)
    ensures var r := Capped(value, max);
      && r <= value && |r| <= max && ValidUtf8(r) && (r == value <==> |value| <= max)
      && forall n :: |r| < n <= max && n < |value| ==> !Boundary(value, n)
  {
    hide ValidUtf8;
    ValidStarts(value);
    if |value| > max {
      CutIsValid(value, BoundaryBefore(value, max));
    }
  }

  /** The code point of the character s begins with. */
  function Rune(s: Bytes): int
    requires RuneLen(s) > 0
  {
    match RuneLen(s)
    case 1 => s[0]
    case 2 => Bits(s, 0, 0xC0) * 0x40 + Bits(s, 1, 0x80)
    case 3 => (Bits(s, 0, 0xE0) * 0x40 + Bits(s, 1, 0x80)) * 0x40 + Bits(s, 2, 0x80)
    case _ => ((Bits(s, 0, 0xF0) * 0x40 + Bits(s, 1, 0x80)) * 0x40 + Bits(s, 2, 0x80)) * 0x40 + Bits(s, 3, 0x80)
  }

  /** A byte without its marker. */
  function Bits(s: Bytes, i: nat, marker: int): int
    requires i < |s|
  {
    var b: int := s[i];
    b - marker
  }

  /** Trimming leaves nothing: only white space. */
  predicate Blank(s: Bytes) {
    s == [] || (RuneLen(s) > 0 && IsSpaceCode(Rune(s)) && Blank(s[RuneLen(s)..]))
  }

  /** The bytes of a text that is all ASCII. */
  function Ascii(s: string): (r: Bytes)
    ensures |r| == |s|
  {
    seq(|s|, i requires 0 <= i < |s| => if s[i] as int < 0x80 then s[i] as int else 0x3F)
  }

  /** A Unicode scalar value: any code point but a surrogate. */
  predicate IsScalar(code: int) {
    0 <= code <= 0x10FFFF && !(0xD800 <= code <= 0xDFFF)
  }

  /** The encoding of a scalar value: six bits to each byte after the first. */
  function Encode(code: int): Bytes
    requires IsScalar(code)
  {
    var high := code / 0x40;
    if code < 0x80 then [code]
    else if code < 0x800 then [0xC0 + high, 0x80 + code % 0x40]
    else if code < 0x10000 then [0xE0 + high / 0x40, 0x80 + high % 0x40, 0x80 + code % 0x40]
    else [0xF0 + high / 0x40 / 0x40, 0x80 + high / 0x40 % 0x40, 0x80 + high % 0x40, 0x80 + code % 0x40]
  }

  lemma LenTwo(s: Bytes)
    requires |s| >= 2 && 0xC2 <= s[0] <= 0xDF && IsContinuation(s[1])
    ensures RuneLen(s) == 2
  {
  }

  lemma LenThree(s: Bytes)
    requires |s| >= 3 && 0xE0 <= s[0] <= 0xEF && IsContinuation(s[1]) && IsContinuation(s[2])
    requires (s[0] == 0xE0 ==> s[1] >= 0xA0) && (s[0] == 0xED ==> s[1] <= 0x9F)
    ensures RuneLen(s) == 3
  {
  }

  lemma LenFour(s: Bytes)
    requires |s| >= 4 && 0xF0 <= s[0] <= 0xF4
    requires IsContinuation(s[1]) && IsContinuation(s[2]) && IsContinuation(s[3])
    requires (s[0] == 0xF0 ==> s[1] >= 0x90) && (s[0] == 0xF4 ==> s[1] <= 0x8F)
    ensures RuneLen(s) == 4
  {
  }

  /** Reading a character back gives its code point and its length, whatever follows. */
  lemma EncodeReadsBack(code: int, rest: Bytes)
    requires IsScalar(code)
    ensures var s := Encode(code) + rest; RuneLen(s) == |Encode(code)| && Rune(s) == code
  {
    var s := Encode(code) + rest;
    hide RuneLen;
    if code < 0x80 {
      assert RuneLen(s) == 1 by { AsciiLen(s); }
    } else if code < 0x800 {
      LenTwo(s);
    } else if code < 0x10000 {
      LenThree(s);
    } else {
      LenFour(s);
    }
  }

  lemma AsciiLen(s: Bytes)
    requires s != [] && s[0] <= 0x7F
    ensures RuneLen(s) == 1
  {
  }

  /** What a character of this length looks like. */
  lemma LenIs(s: Bytes)
    requires RuneLen(s) > 0
    ensures RuneLen(s) == 1 ==> s[0] <= 0x7F
    ensures RuneLen(s) == 2 ==> 0xC2 <= s[0] <= 0xDF && IsContinuation(s[1])
    ensures RuneLen(s) == 3 ==>
      && 0xE0 <= s[0] <= 0xEF && IsContinuation(s[1]) && IsContinuation(s[2])
      && (s[0] == 0xE0 ==> s[1] >= 0xA0) && (s[0] == 0xED ==> s[1] <= 0x9F)
    ensures RuneLen(s) == 4 ==>
      && 0xF0 <= s[0] <= 0xF4 && IsContinuation(s[1]) && IsContinuation(s[2]) && IsContinuation(s[3])
      && (s[0] == 0xF0 ==> s[1] >= 0x90) && (s[0] == 0xF4 ==> s[1] <= 0x8F)
  {
  }

  lemma SixBits(high: int, low: int)
    requires 0 <= low < 0x40
    ensures (high * 0x40 + low) / 0x40 == high && (high * 0x40 + low) % 0x40 == low
  {
  }

  lemma ThreeAreEncoded(s: Bytes)
    requires RuneLen(s) == 3
    ensures IsScalar(Rune(s)) && Encode(Rune(s)) == s[..3]
  {
    LenIs(s);
    hide RuneLen;
    SixBits(Bits(s, 0, 0xE0), Bits(s, 1, 0x80));
    SixBits(Bits(s, 0, 0xE0) * 0x40 + Bits(s, 1, 0x80), Bits(s, 2, 0x80));
  }

  lemma FourAreEncoded(s: Bytes)
    requires RuneLen(s) == 4
    ensures IsScalar(Rune(s)) && Encode(Rune(s)) == s[..4]
  {
    LenIs(s);
    hide RuneLen;
    var top := Bits(s, 0, 0xF0) * 0x40 + Bits(s, 1, 0x80);
    SixBits(Bits(s, 0, 0xF0), Bits(s, 1, 0x80));
    SixBits(top, Bits(s, 2, 0x80));
    SixBits(top * 0x40 + Bits(s, 2, 0x80), Bits(s, 3, 0x80));
  }

  /** Every character is the encoding of its code point: nothing longer or out of range is read. */
  lemma RuneIsEncoded(s: Bytes)
    requires RuneLen(s) > 0
    ensures IsScalar(Rune(s)) && Encode(Rune(s)) == s[..RuneLen(s)]
  {
    LenIs(s);
    var n := RuneLen(s);
    if n == 4 {
      FourAreEncoded(s);
      hide *;
    } else if n == 3 {
      ThreeAreEncoded(s);
      hide *;
    } else {
      hide RuneLen;
      if n == 2 {
        SixBits(Bits(s, 0, 0xC0), Bits(s, 1, 0x80));
      }
    }
  }

  /** A white space character begins here. */
  predicate SpaceAt(s: Bytes, i: nat)
    requires i <= |s|
  {
    RuneLen(s[i..]) > 0 && IsSpaceCode(Rune(s[i..]))
  }

  predicate AllSpace(s: Bytes) {
    forall i :: 0 <= i < |s| && Boundary(s, i) ==> SpaceAt(s, i)
  }

  lemma SpaceLater(s: Bytes, n: nat, i: nat)
    requires n <= i < |s|
    ensures SpaceAt(s, i) <==> SpaceAt(s[n..], i - n)
    ensures Boundary(s, i) <==> Boundary(s[n..], i - n)
  {
    DropDrop(s, n, i - n);
  }

  lemma AllSpaceStep(s: Bytes)
    requires ValidUtf8(s) && s != []
    ensures 0 < RuneLen(s) <= |s|
    ensures AllSpace(s) <==> SpaceAt(s, 0) && AllSpace(s[RuneLen(s)..])
  {
    hide *;
    RuneEnds(s);
    ValidStarts(s);
    var n := RuneLen(s);
    forall i | 0 < i < |s| && Boundary(s, i)
      ensures n <= i && (SpaceAt(s, i) <==> SpaceAt(s[n..], i - n)) && Boundary(s[n..], i - n)
    {
      FirstBoundary(s, i);
      SpaceLater(s, n, i);
    }
    forall i | 0 <= i < |s[n..]| && Boundary(s[n..], i)
      ensures (SpaceAt(s, n + i) <==> SpaceAt(s[n..], i)) && Boundary(s, n + i)
    {
      SpaceLater(s, n, n + i);
    }
    AllSpaceParts(s, n);
  }

  lemma AllSpaceParts(s: Bytes, n: nat)
    requires 0 < n <= |s| && Boundary(s, 0)
    requires forall i :: 0 < i < |s| && Boundary(s, i) ==>
      n <= i && (SpaceAt(s, i) <==> SpaceAt(s[n..], i - n)) && Boundary(s[n..], i - n)
    requires forall i :: 0 <= i < |s[n..]| && Boundary(s[n..], i) ==>
      (SpaceAt(s, n + i) <==> SpaceAt(s[n..], i)) && Boundary(s, n + i)
    ensures AllSpace(s) <==> SpaceAt(s, 0) && AllSpace(s[n..])
  {
    hide SpaceAt, Boundary;
    if SpaceAt(s, 0) && AllSpace(s[n..]) {
      forall i | 0 < i < |s| && Boundary(s, i) ensures SpaceAt(s, i) {
        assert SpaceAt(s[n..], i - n);
      }
    }
    if AllSpace(s) {
      forall i | 0 <= i < |s[n..]| && Boundary(s[n..], i) ensures SpaceAt(s[n..], i) {
        assert SpaceAt(s, n + i);
      }
    }
  }

  lemma BlankStep(s: Bytes)
    requires s != [] && 0 < RuneLen(s) <= |s|
    ensures Blank(s) <==> SpaceAt(s, 0) && Blank(s[RuneLen(s)..])
  {
    TakeAll(s);
    hide RuneLen, Rune, IsSpaceCode;
  }

  /** Valid text is blank exactly when each of its characters is white space. */
  lemma {:induction false} BlankIs(s: Bytes)
    requires ValidUtf8(s)
    ensures Blank(s) <==> AllSpace(s)
  {
    hide *;
    if s == [] {
      NothingIsBlank();
    } else {
      ValidParts(s);
      AllSpaceStep(s);
      BlankStep(s);
      BlankIs(s[RuneLen(s)..]);
    }
  }

  lemma NothingIsBlank()
    ensures Blank([]) && AllSpace([])
  {
  }

  /** ASCII text is its own encoding. */
  lemma {:induction false} AsciiIs(s: string)
    requires forall i :: 0 <= i < |s| ==> s[i] as int < 0x80
    ensures forall i :: 0 <= i < |s| ==> Ascii(s)[i] == s[i] as int
    ensures ValidUtf8(Ascii(s))
  {
    if s != [] {
      AsciiIs(s[1..]);
      AsciiLen(Ascii(s));
      assert Ascii(s)[1..] == Ascii(s[1..]);
    }
  }
}
