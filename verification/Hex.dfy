/** Hex encoding of byte strings (src/token/mod.rs:710-726), as the token store persists its hashes. */
module Hex {
  import opened Prelude

  newtype Byte = b: int | 0 <= b < 256

  function DigitChar(d: int): (c: char)
    requires 0 <= d < 16
  {
    if d < 10 then '0' + d as char else 'a' + (d - 10) as char
  }

  /** A digit in either case, as integer parsing takes it. */
  function DigitValue(c: char): (d: Option<int>)
    ensures d.Some? ==> 0 <= d.value < 16
  {
    if '0' <= c <= '9' then Some(c as int - '0' as int)
    else if 'a' <= c <= 'f' then Some(c as int - 'a' as int + 10)
    else if 'A' <= c <= 'F' then Some(c as int - 'A' as int + 10)
    else None
  }

  /** `u8::from_str_radix` on two characters: two digits, or a plus sign and one digit. */
  function ParsePair(hi: char, lo: char): (b: Option<Byte>)
  {
    if DigitValue(lo).None? then None
    else if hi == '+' then Some(DigitValue(lo).value as Byte)
    else if DigitValue(hi).None? then None
    else Some((16 * DigitValue(hi).value + DigitValue(lo).value) as Byte)
  }

  /** What a digit is worth, by its code: 0 to 9, then a to f in either case. */
  lemma DigitCodes(c: char, d: nat)
    requires d < 16
    ensures DigitValue(c) == Some(d) <==>
              if d < 10 then c as int == 48 + d else c as int == 87 + d || c as int == 55 + d
    ensures DigitChar(d) as int == if d < 10 then 48 + d else 87 + d
  {
  }

  /** How a pair of characters is read: two digits, high one first, or a plus sign for a leading zero. */
  lemma PairsRead(hi: char, lo: char)
    ensures ParsePair(hi, lo).Some? <==> DigitValue(lo).Some? && (hi as int == 43 || DigitValue(hi).Some?)
    ensures ParsePair(hi, lo).Some? && hi as int == 43 ==> ParsePair(hi, lo).value as int == DigitValue(lo).value
    ensures ParsePair(hi, lo).Some? && hi as int != 43 ==>
              ParsePair(hi, lo).value as int == 16 * DigitValue(hi).value + DigitValue(lo).value
  {
  }

  /** A text is read pair by pair, from its start. */
  lemma {:induction false} ReadPairByPair(s: string)
    requires FromHex(s).Some?
    ensures |s| == 2 * |FromHex(s).value|
    ensures forall i | 0 <= i < |FromHex(s).value| :: ParsePair(s[2 * i], s[2 * i + 1]) == Some(FromHex(s).value[i])
    decreases |s|
  {
    if s != "" { ReadPairByPair(s[..|s| - 2]); }
  }

  /** And it is read if every pair is. */
  lemma {:induction false} ReadIfPairsAre(s: string)
    requires |s| % 2 == 0 && forall i | 0 <= i < |s| / 2 :: ParsePair(s[2 * i], s[2 * i + 1]).Some?
    ensures FromHex(s).Some?
    decreases |s|
  {
    if s != "" {
      var n, front := |s| / 2, s[..|s| - 2];
      assert ParsePair(s[2 * (n - 1)], s[2 * (n - 1) + 1]).Some?;
      forall i | 0 <= i < |front| / 2 ensures ParsePair(front[2 * i], front[2 * i + 1]).Some? {
        assert ParsePair(s[2 * i], s[2 * i + 1]).Some?;
      }
      ReadIfPairsAre(front);
    }
  }

  function Pair(b: Byte): (s: string)
    ensures |s| == 2
  {
    [DigitChar(b as int / 16), DigitChar(b as int % 16)]
  }

  function Encoded(bytes: seq<Byte>): (s: string)
    ensures |s| == 2 * |bytes|
  {
    if bytes == [] then "" else Encoded(bytes[..|bytes| - 1]) + Pair(bytes[|bytes| - 1])
  }

  /** `to_hex`: two digits are appended for every byte. */
  method ToHex(bytes: seq<Byte>) returns (s: string)
    ensures s == Encoded(bytes)
  {
    s := "";
    for i := 0 to |bytes|
      invariant s == Encoded(bytes[..i])
    {
      assert bytes[..i + 1][..i] == bytes[..i];
      s := s + Pair(bytes[i]);
    }
    assert bytes[..|bytes|] == bytes;
  }

  /** `from_hex`: an even number of characters, every pair of them a byte. */
  function FromHex(s: string): (bytes: Option<seq<Byte>>)
    decreases |s|
  {
    if s == "" then Some([])
    else if |s| == 1 then None
    else
      var b, rest := ParsePair(s[|s| - 2], s[|s| - 1]), FromHex(s[..|s| - 2]);
      if b.None? || rest.None? then None else Some(rest.value + [b.value])
  }

  /** What `from_hex` checks first: a text of odd length is no byte string. */
  lemma {:induction false} OddIsRejected(s: string)
    requires |s| % 2 == 1
    ensures FromHex(s).None?
    decreases |s|
  {
    if |s| > 1 {
      OddIsRejected(s[..|s| - 2]);
    }
  }

  predicate LowerDigit(c: char)
  {
    '0' <= c <= '9' || 'a' <= c <= 'f'
  }

  lemma DigitParses(d: int)
    requires 0 <= d < 16
    ensures DigitValue(DigitChar(d)) == Some(d) && LowerDigit(DigitChar(d))
  {
  }

  lemma DigitPrints(c: char)
    requires DigitValue(c).Some?
    ensures DigitChar(DigitValue(c).value) == c <==> LowerDigit(c)
  {
  }

  lemma PairParses(b: Byte)
    ensures ParsePair(Pair(b)[0], Pair(b)[1]) == Some(b)
  {
    DigitParses(b as int / 16);
    DigitParses(b as int % 16);
  }

  lemma EncodedSnoc(bytes: seq<Byte>, b: Byte)
    ensures Encoded(bytes + [b]) == Encoded(bytes) + Pair(b)
  {
    assert (bytes + [b])[..|bytes|] == bytes;
  }

  lemma FromHexSnoc(s: string, p: string)
    requires |p| == 2
    ensures FromHex(s + p) ==
            if ParsePair(p[0], p[1]).None? || FromHex(s).None? then None
              else Some(FromHex(s).value + [ParsePair(p[0], p[1]).value])
  {
    var t := s + p;
    assert t[..|t| - 2] == s && t[|t| - 2] == p[0] && t[|t| - 1] == p[1];
  }

  lemma RoundTripStep(bytes: seq<Byte>, front: seq<Byte>, text: string)
    requires bytes != [] && front == bytes[..|bytes| - 1] && text == Encoded(front)
    requires FromHex(text) == Some(front)
    ensures FromHex(text + Pair(bytes[|bytes| - 1])) == Some(bytes)
  {
    var b := bytes[|bytes| - 1];
    PairParses(b);
    FromHexSnoc(text, Pair(b));
    assert bytes == front + [b];
  }

  /** Reading back what was written gives the bytes, for every byte string. */
  lemma {:induction false} RoundTrip(bytes: seq<Byte>)
    ensures FromHex(Encoded(bytes)) == Some(bytes)
  {
    if bytes != [] {
      var front := bytes[..|bytes| - 1];
      RoundTrip(front);
      RoundTripStep(bytes, front, Encoded(front));
    }
  }

  /** Distinct byte strings have distinct encodings. */
  lemma EncodedInjective(a: seq<Byte>, b: seq<Byte>)
    requires Encoded(a) == Encoded(b)
    ensures a == b
  {
    RoundTrip(a);
    RoundTrip(b);
  }

  lemma PairCanonical(hi: char, lo: char)
    requires ParsePair(hi, lo).Some?
    ensures Pair(ParsePair(hi, lo).value) == [hi, lo] <==> LowerDigit(hi) && LowerDigit(lo)
  {
    DigitPrints(lo);
    var l := DigitValue(lo).value;
    var h := if hi == '+' then 0 else DigitValue(hi).value;
    var p := Pair(ParsePair(hi, lo).value);
    assert p == [DigitChar(h), DigitChar(l)] by { SplitDigits(h, l); }
    assert p[0] == DigitChar(h) && p[1] == DigitChar(l);
    if hi != '+' { DigitPrints(hi); }
    assert p == [hi, lo] <==> p[0] == hi && p[1] == lo;
  }

  lemma SplitDigits(h: int, l: int)
    requires 0 <= h < 16 && 0 <= l < 16
    ensures (16 * h + l) / 16 == h && (16 * h + l) % 16 == l
  {
  }

  /**
   `from_hex` accepts more than `to_hex` writes (capitals, and a plus sign for a leading zero). What
   it accepts is written back unchanged exactly when it has lower-case digits throughout.
   */
  lemma {:induction false} RoundTripBack(s: string)
    requires FromHex(s).Some?
    ensures Encoded(FromHex(s).value) == s <==> forall c <- s :: LowerDigit(c)
    decreases |s|
  {
    if s != "" {
      var front, p := s[..|s| - 2], s[|s| - 2..];
      assert s == front + p;
      FromHexSnoc(front, p);
      RoundTripBack(front);
      BackStep(front, p);
    }
  }

  lemma BackStep(front: string, p: string)
    requires |p| == 2 && ParsePair(p[0], p[1]).Some? && FromHex(front).Some?
    requires Encoded(FromHex(front).value) == front <==> forall c <- front :: LowerDigit(c)
    ensures Encoded(FromHex(front).value + [ParsePair(p[0], p[1]).value]) == front + p <==>
              forall c <- front + p :: LowerDigit(c)
  {
    var b, rest := ParsePair(p[0], p[1]).value, FromHex(front).value;
    EncodedSnoc(rest, b);
    SnocEqual(Encoded(rest), Pair(b), front, p);
    PairCanonical(p[0], p[1]);
    assert p == [p[0], p[1]];
    assert forall c <- front + p :: c in front || c in p;
    assert forall c <- front :: c in front + p;
    assert p[0] in front + p && p[1] in front + p;
  }

  lemma SnocEqual(a: string, x: string, b: string, y: string)
    requires |x| == |y|
    ensures a + x == b + y <==> a == b && x == y
  {
    if a + x == b + y {
      assert a == (a + x)[..|a|] && b == (b + y)[..|b|];
      assert x == (a + x)[|a|..] && y == (b + y)[|b|..];
    }
  }
}
