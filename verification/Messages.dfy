/** The runtime message of a service is cut to the journal's byte bound without
    breaking a UTF-8 character (sections 3 and 4 of RFC 3629). */
module Messages {
  type Byte = b: int | 0 <= b < 256

  predicate Tail(b: Byte) {
    0x80 <= b < 0xC0
  }

  /** utf8.RuneStart: anything but a continuation byte. */
  predicate RuneStart(b: Byte) {
    !Tail(b)
  }

  /** The length of the character at the head, by the syntax of section 4; 0 when
      there is none. */
  function CharSize(s: seq<Byte>): (n: nat)
    ensures n <= 4 && n <= |s|
    ensures n > 0 ==> RuneStart(s[0]) && forall k :: 0 < k < n ==> Tail(s[k])
  {
    if |s| == 0 then 0
    else if s[0] < 0x80 then 1
    else if 0xC2 <= s[0] <= 0xDF then
      if |s| >= 2 && Tail(s[1]) then 2 else 0
    else if 0xE0 <= s[0] <= 0xEF then
      if |s| >= 3 && Tail(s[1]) && Tail(s[2]) && (s[0] == 0xE0 ==> s[1] >= 0xA0) && (s[0] == 0xED ==> s[1] < 0xA0)
        then 3 else 0
    else if 0xF0 <= s[0] <= 0xF4 then
      if |s| >= 4 && Tail(s[1]) && Tail(s[2]) && Tail(s[3]) && (s[0] == 0xF0 ==> s[1] >= 0x90) &&
        (s[0] == 0xF4 ==> s[1] < 0x90) then 4 else 0
    else 0
  }

  predicate ValidUtf8(s: seq<Byte>)
    decreases |s|
  {
    |s| == 0 || (CharSize(s) > 0 && ValidUtf8(s[CharSize(s)..]))
  }

  // ---- the same from the characters ----

  /** A Unicode scalar value: no surrogate. */
  predicate IsScalar(c: int) {
    0 <= c < 0xD800 || 0xDFFF < c < 0x11_0000
  }

  /** Its encoding, six bits a continuation byte (section 3 of RFC 3629). */
  function Encoding(c: int): seq<Byte>
    requires IsScalar(c)
  {
    if c < 0x80 then [c]
    else if c < 0x800 then [0xC0 + c / 64, 0x80 + c % 64]
    else if c < 0x1_0000 then [0xE0 + c / 64 / 64, 0x80 + c / 64 % 64, 0x80 + c % 64]
    else [0xF0 + c / 64 / 64 / 64, 0x80 + c / 64 / 64 % 64, 0x80 + c / 64 % 64, 0x80 + c % 64]
  }

  predicate AreScalars(cs: seq<int>) {
    forall k :: 0 <= k < |cs| ==> IsScalar(cs[k])
  }

  function Text(cs: seq<int>): seq<Byte>
    requires AreScalars(cs)
  {
    if |cs| == 0 then [] else Encoding(cs[0]) + Text(cs[1..])
  }

  lemma EncodingIsCharacter(c: int, rest: seq<Byte>)
    requires IsScalar(c)
    ensures CharSize(Encoding(c) + rest) == |Encoding(c)|
  {
    var s := Encoding(c) + rest;
    assert s[0] == Encoding(c)[0];
    assert |Encoding(c)| > 1 ==> s[1] == Encoding(c)[1];
    assert |Encoding(c)| > 2 ==> s[2] == Encoding(c)[2];
    assert |Encoding(c)| > 3 ==> s[3] == Encoding(c)[3];
  }

  // A number with the six bits of a continuation byte behind it.
  function Six(high: int, b: Byte): int {
    high * 64 + (b as int - 0x80)
  }

  lemma SixBits(high: int, b: Byte)
    requires Tail(b)
    ensures Six(high, b) / 64 == high && Six(high, b) % 64 == b as int - 0x80
  {
  }

  lemma CharacterIsEncoding(s: seq<Byte>) returns (c: int)
    requires CharSize(s) > 0
    ensures IsScalar(c) && s[..CharSize(s)] == Encoding(c)
  {
    var n := CharSize(s);
    if n == 1 {
      c := s[0];
    } else if n == 2 {
      c := Six(s[0] as int - 0xC0, s[1]);
      SixBits(s[0] as int - 0xC0, s[1]);
    } else if n == 3 {
      c := ThreeBytes(s);
    } else {
      c := FourBytes(s);
    }
  }

  lemma ThreeBytes(s: seq<Byte>) returns (c: int)
    requires CharSize(s) == 3
    ensures IsScalar(c) && s[..3] == Encoding(c)
  {
    var high := Six(s[0] as int - 0xE0, s[1]);
    c := Six(high, s[2]);
    SixBits(s[0] as int - 0xE0, s[1]);
    SixBits(high, s[2]);
  }

  lemma FourBytes(s: seq<Byte>) returns (c: int)
    requires CharSize(s) == 4
    ensures IsScalar(c) && s[..4] == Encoding(c)
  {
    var high := Six(s[0] as int - 0xF0, s[1]);
    var middle := Six(high, s[2]);
    c := Six(middle, s[3]);
    SixBits(s[0] as int - 0xF0, s[1]);
    SixBits(high, s[2]);
    SixBits(middle, s[3]);
  }

  lemma {:induction false} TextIsValid(cs: seq<int>)
    requires AreScalars(cs)
    ensures ValidUtf8(Text(cs))
  {
    if |cs| > 0 {
      TextIsValid(cs[1..]);
      EncodingIsCharacter(cs[0], Text(cs[1..]));
      assert Text(cs)[|Encoding(cs[0])|..] == Text(cs[1..]);
    }
  }

  lemma {:induction false} ValidIsText(s: seq<Byte>) returns (cs: seq<int>)
    requires ValidUtf8(s)
    ensures AreScalars(cs) && Text(cs) == s
    decreases |s|
  {
    cs := [];
    if |s| > 0 {
      var c := CharacterIsEncoding(s);
      var rest := ValidIsText(s[CharSize(s)..]);
      cs := [c] + rest;
      assert cs[1..] == rest;
      assert s == s[..CharSize(s)] + s[CharSize(s)..];
    }
  }

  /** The valid texts are exactly the encodings of scalar values. */
  lemma ValidUtf8Exactly(s: seq<Byte>)
    ensures ValidUtf8(s) <==> exists cs :: AreScalars(cs) && Text(cs) == s
  {
    if ValidUtf8(s) {
      var cs := ValidIsText(s);
    }
    forall cs | AreScalars(cs) && Text(cs) == s ensures ValidUtf8(s) {
      TextIsValid(cs);
    }
  }

  // ---- cutting ----

  // A character is told by its own bytes alone.
  lemma CharSizeOfPrefix(s: seq<Byte>, k: nat)
    requires 0 < CharSize(s) && k <= |s|
    ensures CharSize(s[..k]) == if k >= CharSize(s) then CharSize(s) else 0
  {
  }

  /** Where a valid text may be cut: in front of a byte that starts a character, and
      nowhere else. */
  lemma {:induction false} CutExactly(s: seq<Byte>, k: nat)
    requires ValidUtf8(s) && k <= |s|
    ensures ValidUtf8(s[..k]) <==> k == |s| || RuneStart(s[k])
    ensures k == |s| || RuneStart(s[k]) ==> ValidUtf8(s[k..])
    decreases |s|
  {
    var n := CharSize(s);
    if k == 0 {
      assert s[k..] == s;
    } else if k == |s| {
      assert s[..k] == s;
    } else {
      CharSizeOfPrefix(s, k);
      if k >= n {
        CutExactly(s[n..], k - n);
        assert s[n..][..k - n] == s[..k][n..];
        assert s[n..][k - n..] == s[k..];
      }
    }
  }

  lemma {:induction false} ConcatIsValid(s: seq<Byte>, t: seq<Byte>)
    requires ValidUtf8(s) && ValidUtf8(t)
    ensures ValidUtf8(s + t)
    decreases |s|
  {
    var n := CharSize(s);
    if |s| == 0 {
      assert s + t == t;
    } else {
      assert (s + t)[..|s|] == s;
      assert CharSize(s + t) == n;
      assert (s + t)[n..] == s[n..] + t;
      ConcatIsValid(s[n..], t);
    }
  }

  /** At most three bytes in a row continue a character. */
  lemma {:induction false} StartIsNear(s: seq<Byte>, k: nat)
    requires ValidUtf8(s) && k < |s|
    ensures exists j :: k - 3 <= j <= k && 0 <= j && RuneStart(s[j])
    decreases |s|
  {
    var n := CharSize(s);
    if k < n {
      assert RuneStart(s[0]);
    } else {
      StartIsNear(s[n..], k - n);
      var j :| k - n - 3 <= j <= k - n && 0 <= j && RuneStart(s[n..][j]);
      assert s[n..][j] == s[n + j];
    }
  }

  const LIMIT: nat := 512
  const ELLIPSIS: seq<Byte> := [0xE2, 0x80, 0xA6]
  const ROOM: nat := LIMIT - |ELLIPSIS|

  /** A message that fits is kept. A longer one keeps its longest valid prefix that
      leaves room for the ellipsis, and of that room at most three bytes are lost. */
  method BoundedAutonomyMessage(message: seq<Byte>) returns (r: seq<Byte>)
    ensures |r| <= LIMIT
    ensures |message| <= LIMIT ==> r == message
    ensures ValidUtf8(message) ==> ValidUtf8(r)
    ensures ValidUtf8(message) && |message| > LIMIT ==>
              exists cut {:trigger message[..cut]} :: ROOM - 3 <= cut <= ROOM && r == message[..cut] + ELLIPSIS
                && ValidUtf8(message[..cut]) && forall k :: cut < k <= ROOM ==> !ValidUtf8(message[..k])
  {
    if |message| <= LIMIT {
      return message;
    }
    var cut := ROOM;
    while cut > 0 && !RuneStart(message[cut])
      invariant 0 <= cut <= ROOM
      invariant forall k :: cut < k <= ROOM ==> !RuneStart(message[k])
    {
      cut := cut - 1;
    }
    r := message[..cut] + ELLIPSIS;
    if ValidUtf8(message) {
      StartIsNear(message, ROOM);
      CutExactly(message, cut);
      assert CharSize(ELLIPSIS) == 3 && ELLIPSIS[3..] == [];
      assert ValidUtf8(ELLIPSIS);
      ConcatIsValid(message[..cut], ELLIPSIS);
      forall k | cut < k <= ROOM ensures !ValidUtf8(message[..k]) {
        CutExactly(message, k);
      }
    }
  }
}
