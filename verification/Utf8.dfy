/** UTF-8 byte sequences, by the syntax of section 4 of RFC 3629. */
module Utf8 {
  import opened Bytes

  predicate Tail(b: byte) {
    0x80 <= b <= 0xBF
  }

  /** The length of the character at the head of `s`, or 0 when there is no valid one. */
  function CharLen(s: seq<byte>): (n: nat)
    ensures n <= 4 && n <= |s|
    ensures s != [] && s[0] < 0x80 ==> n == 1
    ensures n > 0 ==> !Tail(s[0])
    ensures n > 1 ==> s[0] >= 0xC2 && Tail(s[1])
  {
    if s == [] then 0
    else if s[0] <= 0x7F then 1
    else if 0xC2 <= s[0] <= 0xDF && |s| >= 2 && Tail(s[1]) then 2
    else if |s| >= 3 && Tail(s[1]) && Tail(s[2]) &&
         ((s[0] == 0xE0 && s[1] >= 0xA0) || 0xE1 <= s[0] <= 0xEC || (s[0] == 0xED && s[1] <= 0x9F) || 0xEE <= s[0] <= 0xEF) then 3
    else if |s| >= 4 && Tail(s[1]) && Tail(s[2]) && Tail(s[3]) &&
         ((s[0] == 0xF0 && s[1] >= 0x90) || 0xF1 <= s[0] <= 0xF3 || (s[0] == 0xF4 && s[1] <= 0x8F)) then 4
    else 0
  }

  predicate Valid(s: seq<byte>) {
    s == [] || (CharLen(s) > 0 && Valid(s[CharLen(s)..]))
  }

  /** A byte in front of a string keeps it valid exactly when the byte is ASCII. */
  lemma Prefixed(b: byte, s: seq<byte>)
    requires Valid(s)
    ensures Valid([b] + s) <==> b < 0x80
    ensures b < 0x80 ==> CharLen([b] + s) == 1
  {
    if b < 0x80 {
      assert ([b] + s)[1..] == s;
    } else if s != [] {
      assert ([b] + s)[1] == s[0];
    }
  }

  // ---- the strings of characters these are ----

  /** The characters: all numbers up to 0x10FFFF but the surrogates. */
  predicate Scalar(c: nat) {
    c < 0xD800 || 0xE000 <= c < 0x11_0000
  }

  /** A character in UTF-8, by section 3 of RFC 3629. */
  function Encoded(c: nat): (s: seq<byte>)
    requires Scalar(c)
    ensures 0 < |s|
  {
    if c < 0x80 then [c]
    else if c < 0x800 then [0xC0 + c / 0x40, 0x80 + c % 0x40]
    else if c < 0x1_0000 then [0xE0 + c / 0x1000, 0x80 + c / 0x40 % 0x40, 0x80 + c % 0x40]
    else [0xF0 + c / 0x4_0000, 0x80 + c / 0x1000 % 0x40, 0x80 + c / 0x40 % 0x40, 0x80 + c % 0x40]
  }

  predicate AllScalars(cs: seq<nat>) {
    forall c :: c in cs ==> Scalar(c)
  }

  function EncodedAll(cs: seq<nat>): seq<byte>
    requires AllScalars(cs)
  {
    if cs == [] then [] else Encoded(cs[0]) + EncodedAll(cs[1..])
  }

  lemma ThreeLead(c: nat, rest: seq<byte>)
    requires 0x800 <= c < 0x1_0000 && Scalar(c)
    ensures CharLen(Encoded(c) + rest) == 3 == |Encoded(c)|
  {
    var s := Encoded(c) + rest;
    assert s[0] == 0xE0 + c / 0x1000 && s[1] == 0x80 + c / 0x40 % 0x40 && s[2] == 0x80 + c % 0x40;
  }

  lemma FourLead(c: nat, rest: seq<byte>)
    requires 0x1_0000 <= c && Scalar(c)
    ensures CharLen(Encoded(c) + rest) == 4 == |Encoded(c)|
  {
    var s := Encoded(c) + rest;
    assert s[0] == 0xF0 + c / 0x4_0000 && s[1] == 0x80 + c / 0x1000 % 0x40;
    assert s[2] == 0x80 + c / 0x40 % 0x40 && s[3] == 0x80 + c % 0x40;
  }

  lemma EncodedLeads(c: nat, rest: seq<byte>)
    requires Scalar(c)
    ensures CharLen(Encoded(c) + rest) == |Encoded(c)|
  {
    if c >= 0x1_0000 {
      FourLead(c, rest);
    } else if c >= 0x800 {
      ThreeLead(c, rest);
    }
  }

  lemma TwoBytes(s: seq<byte>)
    requires CharLen(s) == 2
    ensures exists c :: Scalar(c) && s[..2] == Encoded(c)
  {
    var c: nat := (s[0] as int - 0xC0) * 0x40 + (s[1] as int - 0x80);
    assert s[..2] == Encoded(c);
  }

  lemma SixBits(high: nat, mid: nat, low: nat)
    requires mid < 0x40 && low < 0x40
    ensures var c := high * 0x1000 + mid * 0x40 + low;
      c / 0x1000 == high && c / 0x40 % 0x40 == mid && c % 0x40 == low
  {
  }

  lemma ThreeBytes(s: seq<byte>)
    requires CharLen(s) == 3
    ensures exists c :: Scalar(c) && s[..3] == Encoded(c)
  {
    var high: nat, mid: nat, low: nat := s[0] - 0xE0, s[1] - 0x80, s[2] - 0x80;
    SixBits(high, mid, low);
    var c: nat := high * 0x1000 + mid * 0x40 + low;
    assert s[..3] == Encoded(c);
  }

  lemma FourBytes(s: seq<byte>)
    requires CharLen(s) == 4
    ensures exists c :: Scalar(c) && s[..4] == Encoded(c)
  {
    var top: nat, high: nat, mid: nat, low: nat := s[0] - 0xF0, s[1] - 0x80, s[2] - 0x80, s[3] - 0x80;
    var c: nat := (top * 0x40 + high) * 0x1000 + mid * 0x40 + low;
    SixBits(top * 0x40 + high, mid, low);
    assert 0x1_0000 <= c < 0x11_0000;
    FourDigits(c, top, high);
    assert s[..4] == Encoded(c) by {
      assert s[..4] == [s[0], s[1], s[2], s[3]];
    }
  }

  lemma FourDigits(c: nat, top: nat, high: nat)
    requires c / 0x1000 == top * 0x40 + high && high < 0x40
    ensures c / 0x4_0000 == top && c / 0x1000 % 0x40 == high
  {
    assert c / 0x4_0000 == c / 0x1000 / 0x40;
  }

  lemma LeadIsEncoded(s: seq<byte>) returns (c: nat)
    requires CharLen(s) > 0
    ensures Scalar(c) && s[..CharLen(s)] == Encoded(c)
  {
    if CharLen(s) == 1 {
      c := s[0];
    } else if CharLen(s) == 2 {
      TwoBytes(s);
      c :| Scalar(c) && s[..2] == Encoded(c);
    } else if CharLen(s) == 3 {
      ThreeBytes(s);
      c :| Scalar(c) && s[..3] == Encoded(c);
    } else {
      FourBytes(s);
      c :| Scalar(c) && s[..4] == Encoded(c);
    }
  }

  lemma {:induction false} EncodedIsValid(cs: seq<nat>)
    requires AllScalars(cs)
    ensures Valid(EncodedAll(cs))
  {
    if cs != [] {
      EncodedLeads(cs[0], EncodedAll(cs[1..]));
      EncodedIsValid(cs[1..]);
      assert EncodedAll(cs)[|Encoded(cs[0])|..] == EncodedAll(cs[1..]);
    }
  }

  lemma {:induction false} ValidIsEncoded(s: seq<byte>) returns (cs: seq<nat>)
    requires Valid(s)
    ensures AllScalars(cs) && s == EncodedAll(cs)
    decreases |s|
  {
    hide CharLen, Encoded, Scalar;
    if s == [] {
      cs := [];
    } else {
      var c := LeadIsEncoded(s);
      var more := ValidIsEncoded(s[CharLen(s)..]);
      cs := [c] + more;
      assert cs[1..] == more;
      assert s == s[..CharLen(s)] + s[CharLen(s)..];
    }
  }

  /** The valid byte sequences are exactly the encodings of sequences of characters. */
  lemma ValidExactlyWhenEncoded(s: seq<byte>)
    ensures Valid(s) <==> exists cs: seq<nat> :: AllScalars(cs) && s == EncodedAll(cs)
  {
    if Valid(s) {
      var cs := ValidIsEncoded(s);
    }
    if cs: seq<nat> :| AllScalars(cs) && s == EncodedAll(cs) {
      EncodedIsValid(cs);
    }
  }
}
