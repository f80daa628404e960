/** The scrubbing of `hlr_` secrets out of log text (src/debug.rs:587-613). */
module Redaction {
  const PREFIX: string := "hlr_"
  const REDACTED: string := "[redacted]"

  predicate TokenChar(c: char)
  {
    '0' <= c <= '9' || 'a' <= c <= 'z' || 'A' <= c <= 'Z' || c == '-' || c == '_'
  }

  predicate PrefixAt(s: string, i: int)
  {
    0 <= i && i + 4 <= |s| && s[i] == 'h' && s[i + 1] == 'l' && s[i + 2] == 'r' && s[i + 3] == '_'
  }

  /** The characters of a token, by their codes: digits, letters, hyphen and underscore. */
  lemma TokenCodes(c: char)
    ensures var k := c as int;
            TokenChar(c) <==> 48 <= k <= 57 || 65 <= k <= 90 || 97 <= k <= 122 || k == 45 || k == 95
  {
  }

  /** The prefix is the four characters `hlr_`. */
  lemma PrefixIs(s: string, i: nat)
    ensures PrefixAt(s, i) <==> i + 4 <= |s| && s[i..i + 4] == "hlr_"
  {
    if i + 4 <= |s| {
      var w := s[i..i + 4];
      assert w[0] == s[i] && w[1] == s[i + 1] && w[2] == s[i + 2] && w[3] == s[i + 3];
    }
  }

  // ----- What is secret, position by position -----

  /** A secret starts here: the prefix, and a token character behind it. */
  predicate SecretAt(s: string, a: int)
  {
    PrefixAt(s, a) && a + 4 < |s| && TokenChar(s[a + 4])
  }

  /** The characters from `a` up to `i`, inclusive, are all token characters. */
  predicate Unbroken(s: string, a: int, i: int)
  {
    0 <= a <= i < |s| && forall k | a <= k <= i :: TokenChar(s[k])
  }

  /** Position `i` belongs to a secret: one starts at or before it, with no break in between. */
  ghost predicate Covered(s: string, i: int)
  {
    exists a :: SecretAt(s, a) && Unbroken(s, a, i)
  }

  ghost function Cover(s: string): (cov: seq<bool>)
    ensures |cov| == |s| && forall i | 0 <= i < |s| :: cov[i] <==> Covered(s, i)
  {
    seq(|s|, i requires 0 <= i < |s| => Covered(s, i))
  }

  /** The first `n` characters, each run of covered ones replaced by one mark and the others kept. */
  function Mask(s: string, cov: seq<bool>, n: nat): (out: string)
    requires n <= |s| == |cov|
  {
    if n == 0 then ""
    else if !cov[n - 1] then Mask(s, cov, n - 1) + [s[n - 1]]
    else if n > 1 && cov[n - 2] then Mask(s, cov, n - 1)
    else Mask(s, cov, n - 1) + REDACTED
  }

  /** The reference: the text with its secrets, and nothing else, replaced. */
  ghost function Masked(s: string): (out: string)
  {
    Mask(s, Cover(s), |s|)
  }

  // ----- The loop -----

  /** `rest.find("hlr_")`, from position `start` of the text; the length if there is none. */
  method FindPrefix(s: string, start: nat) returns (i: nat)
    requires start <= |s|
    ensures start <= i <= |s|
    ensures forall k | start <= k < i :: !PrefixAt(s, k)
    ensures i < |s| ==> PrefixAt(s, i)
  {
    i := start;
    while i < |s| && !PrefixAt(s, i)
      invariant start <= i <= |s|
      invariant forall k | start <= k < i :: !PrefixAt(s, k)
    {
      i := i + 1;
    }
  }

  /** Where the run of token characters that starts at `start` ends. */
  method TokenEnd(s: string, start: nat) returns (e: nat)
    requires start <= |s|
    ensures start <= e <= |s|
    ensures forall k | start <= k < e :: TokenChar(s[k])
    ensures e < |s| ==> !TokenChar(s[e])
  {
    e := start;
    while e < |s| && TokenChar(s[e])
      invariant start <= e <= |s|
      invariant forall k | start <= k < e :: TokenChar(s[k])
    {
      e := e + 1;
    }
  }

  /** No run of token characters reaches from before `n` into it. */
  predicate Boundary(s: string, n: nat)
  {
    n <= |s| && (n == 0 || n == |s| || !TokenChar(s[n]))
  }

  /** Nothing is covered between a boundary and the first secret after it. */
  lemma NotCovered(s: string, n: nat, i: nat, k: nat)
    requires Boundary(s, n) && n <= k < i <= |s| && forall j | n <= j < i :: !SecretAt(s, j)
    ensures !Covered(s, k)
  {
    forall a | SecretAt(s, a) ensures !Unbroken(s, a, k) { }
  }

  /** A stretch with nothing covered is copied. */
  lemma {:induction false} MaskCopies(s: string, cov: seq<bool>, n: nat, i: nat)
    requires n <= i <= |s| == |cov| && forall k | n <= k < i :: !cov[k]
    ensures Mask(s, cov, i) == Mask(s, cov, n) + s[n..i]
  {
    if n < i {
      MaskCopies(s, cov, n, i - 1);
      assert s[n..i] == s[n..i - 1] + [s[i - 1]];
    }
  }

  /** A covered stretch that nothing covered precedes leaves one mark. */
  lemma {:induction false} MaskMarks(s: string, cov: seq<bool>, i: nat, e: nat)
    requires i < e <= |s| == |cov| && (i == 0 || !cov[i - 1]) && forall k | i <= k < e :: cov[k]
    ensures Mask(s, cov, e) == Mask(s, cov, i) + REDACTED
  {
    if e > i + 1 { MaskMarks(s, cov, i, e - 1); }
  }

  /** `redact_hlr_tokens`. */
  method RedactHlrTokens(text: string) returns (result: string)
    ensures result == Masked(text)
  {
    ghost var cov := Cover(text);
    result := "";
    var n := 0;
    var start := FindPrefix(text, n);
    while start < |text|
      invariant n <= start <= |text| && Boundary(text, n)
      invariant forall k | n <= k < start :: !PrefixAt(text, k)
      invariant start < |text| ==> PrefixAt(text, start)
      invariant result == Mask(text, cov, n)
      decreases |text| - n
    {
      var e := TokenEnd(text, start + 4);
      ScanFinds(text, n, start, e);
      StepIsMasked(text, cov, n, start, e);
      result := result + text[n..start];
      if e == start + 4 {
        result := result + PREFIX;
      } else {
        result := result + REDACTED;
      }
      n := e;
      start := FindPrefix(text, n);
    }
    forall k | n <= k < |text| ensures !Covered(text, k) { NotCovered(text, n, |text|, k); }
    MaskCopies(text, cov, n, |text|);
    result := result + text[n..];
    assert text[n..] == text[n..|text|];
  }

  /** A bare prefix, with no token character behind it, is not covered, and nor is anything before it. */
  lemma BarePrefix(s: string, n: nat, start: nat)
    requires Boundary(s, n) && n <= start && PrefixAt(s, start) && forall k | n <= k < start :: !PrefixAt(s, k)
    requires start + 4 < |s| ==> !TokenChar(s[start + 4])
    ensures forall k | n <= k < start + 4 :: !Covered(s, k)
  {
    forall j | n <= j < start + 4 ensures !SecretAt(s, j) { }
    forall k | n <= k < start + 4 ensures !Covered(s, k) { NotCovered(s, n, start + 4, k); }
  }

  /** A prefix with a run of token characters behind it is covered to the end of the run. */
  lemma FullToken(s: string, n: nat, start: nat, e: nat)
    requires Boundary(s, n) && n <= start && PrefixAt(s, start) && forall k | n <= k < start :: !PrefixAt(s, k)
    requires start + 4 < e <= |s| && forall k | start + 4 <= k < e :: TokenChar(s[k])
    ensures forall k | n <= k < start :: !Covered(s, k)
    ensures forall k | start <= k < e :: Covered(s, k)
    ensures n == start ==> n == 0
  {
    forall k | n <= k < start ensures !Covered(s, k) { NotCovered(s, n, start, k); }
    assert SecretAt(s, start);
    forall k | start <= k < e ensures Covered(s, k) { assert Unbroken(s, start, k); }
  }

  /** What a scan from a boundary finds is exactly what is covered there. */
  ghost predicate Found(cov: seq<bool>, n: nat, start: nat, e: nat)
    requires n <= start && start + 4 <= e <= |cov|
  {
    if e == start + 4 then forall k | n <= k < e :: !cov[k]
    else
      && (forall k | n <= k < start :: !cov[k])
      && (forall k | start <= k < e :: cov[k])
      && (start == 0 || !cov[start - 1])
  }

  lemma ScanFinds(s: string, n: nat, start: nat, e: nat)
    requires Boundary(s, n) && n <= start && PrefixAt(s, start) && forall k | n <= k < start :: !PrefixAt(s, k)
    requires start + 4 <= e <= |s| && (forall k | start + 4 <= k < e :: TokenChar(s[k])) &&
             (e < |s| ==> !TokenChar(s[e]))
    ensures Found(Cover(s), n, start, e)
  {
    if e == start + 4 { BarePrefix(s, n, start); } else { FullToken(s, n, start, e); }
  }

  /** One turn of the loop agrees with the reference. */
  lemma StepIsMasked(s: string, cov: seq<bool>, n: nat, start: nat, e: nat)
    requires n <= start && start + 4 <= e <= |s| == |cov| && Found(cov, n, start, e) && PrefixAt(s, start)
    ensures Mask(s, cov, e) == Mask(s, cov, n) + s[n..start] + (if e == start + 4 then PREFIX else REDACTED)
  {
    if e == start + 4 {
      MaskCopies(s, cov, n, e);
      assert s[n..e] == s[n..start] + PREFIX;
    } else {
      MaskCopies(s, cov, n, start);
      MaskMarks(s, cov, start, e);
    }
  }

  // ----- The output -----

  ghost predicate Clean(s: string)
  {
    forall a :: !SecretAt(s, a)
  }

  /** Behind a covered position the output ends in the mark. */
  lemma {:induction false} EndsInMark(s: string, cov: seq<bool>, n: nat)
    requires 0 < n <= |s| == |cov| && cov[n - 1]
    ensures var out := Mask(s, cov, n); out != "" && out[|out| - 1] == ']'
  {
    if n > 1 && cov[n - 2] { EndsInMark(s, cov, n - 1); }
  }

  /** An output that does not end in the mark ends in the last character of the text. */
  lemma LastIsText(s: string, cov: seq<bool>, n: nat)
    requires n <= |s| == |cov| && Mask(s, cov, n) != "" && Mask(s, cov, n)[|Mask(s, cov, n)| - 1] != ']'
    ensures n > 0 && Mask(s, cov, n) == Mask(s, cov, n - 1) + [s[n - 1]]
  {
    if cov[n - 1] { EndsInMark(s, cov, n); }
  }

  /** So a prefix at the end of the output is a prefix at the end of the text. */
  lemma PrefixIsText(s: string, cov: seq<bool>, n: nat)
    requires n <= |s| == |cov| && PrefixAt(Mask(s, cov, n), |Mask(s, cov, n)| - 4)
    ensures n >= 4 && PrefixAt(s, n - 4)
  {
    LastIsText(s, cov, n);
    LastIsText(s, cov, n - 1);
    LastIsText(s, cov, n - 2);
    LastIsText(s, cov, n - 3);
  }

  lemma MarkIsClean(out: string)
    requires Clean(out)
    ensures Clean(out + REDACTED)
  {
    forall a ensures !SecretAt(out + REDACTED, a) {
      assert !SecretAt(out, a);
      assert REDACTED[0] == '[' && forall i | 0 <= i < 10 :: REDACTED[i] != 'h';
    }
  }

  lemma CharIsClean(out: string, c: char)
    requires Clean(out) && !(PrefixAt(out, |out| - 4) && TokenChar(c))
    ensures Clean(out + [c])
  {
    forall a | PrefixAt(out + [c], a) ensures !SecretAt(out + [c], a) {
      assert !SecretAt(out, a);
      assert a + 4 == |out| ==> PrefixAt(out, a);
    }
  }

  /** Every token character right behind a prefix is covered. */
  ghost predicate Guards(s: string, cov: seq<bool>)
  {
    |cov| == |s| && forall i | 0 <= i < |s| && PrefixAt(s, i - 4) && TokenChar(s[i]) :: cov[i]
  }

  lemma CoverGuards(s: string)
    ensures Guards(s, Cover(s))
  {
    forall i | 0 <= i < |s| && PrefixAt(s, i - 4) && TokenChar(s[i]) ensures Covered(s, i) {
      assert SecretAt(s, i - 4) && Unbroken(s, i - 4, i);
    }
  }

  lemma NextIsClean(s: string, cov: seq<bool>, n: nat, out: string)
    requires Guards(s, cov) && n < |s| && !cov[n] && out == Mask(s, cov, n) && Clean(out)
    ensures Clean(out + [s[n]])
  {
    if PrefixAt(out, |out| - 4) { PrefixIsText(s, cov, n); }
    CharIsClean(out, s[n]);
  }

  lemma {:induction false} GuardedIsClean(s: string, cov: seq<bool>, n: nat)
    requires Guards(s, cov) && n <= |s|
    ensures Clean(Mask(s, cov, n))
  {
    if n > 0 {
      var out := Mask(s, cov, n - 1);
      GuardedIsClean(s, cov, n - 1);
      if !cov[n - 1] {
        NextIsClean(s, cov, n - 1, out);
      } else if !(n > 1 && cov[n - 2]) {
        MarkIsClean(out);
      }
    }
  }

  /** The output holds no secret, not even one put together across the edges of what was cut out. */
  lemma OutputIsClean(s: string)
    ensures Clean(Masked(s))
  {
    CoverGuards(s);
    GuardedIsClean(s, Cover(s), |s|);
  }

  /** A text is left alone exactly when it holds no secret. */
  lemma UnchangedIffClean(s: string)
    ensures Masked(s) == s <==> Clean(s)
  {
    OutputIsClean(s);
    if Clean(s) {
      MaskCopies(s, Cover(s), 0, |s|);
      assert s[0..|s|] == s;
    }
  }

  /** A second pass changes nothing. */
  lemma Idempotent(s: string)
    ensures Masked(Masked(s)) == Masked(s)
  {
    OutputIsClean(s);
    UnchangedIffClean(Masked(s));
  }

  // ----- Two texts -----

  lemma SecretShifts(s: string, e: nat, a: int)
    requires e <= |s| && e <= a && SecretAt(s, a)
    ensures SecretAt(s[e..], a - e)
  {
    var after := s[e..];
    assert forall k | 0 <= k < |after| :: after[k] == s[e + k];
    assert a + 4 < |s| && a - e + 4 < |after|;
  }

  /** Behind a token nothing is covered, if the rest holds no secret of its own. */
  lemma AfterToken(s: string, e: nat, k: nat)
    requires e <= k < |s| && Clean(s[e..]) && !TokenChar(s[e])
    ensures !Covered(s, k)
  {
    forall a | SecretAt(s, a) ensures a < e {
      if a >= e { SecretShifts(s, e, a); }
    }
  }

  lemma TokenCover(s: string, e: nat)
    requires PrefixAt(s, 0) && 4 < e <= |s| && (forall k | 4 <= k < e :: TokenChar(s[k]))
    requires (e < |s| ==> !TokenChar(s[e])) && Clean(s[e..])
    ensures forall k | 0 <= k < |s| :: Covered(s, k) <==> k < e
  {
    FullToken(s, 0, 0, e);
    forall k | e <= k < |s| ensures !Covered(s, k) { AfterToken(s, e, k); }
  }

  lemma MaskFront(s: string, cov: seq<bool>, e: nat)
    requires 0 < e <= |s| == |cov| && forall k | 0 <= k < |s| :: cov[k] <==> k < e
    ensures Mask(s, cov, |s|) == "[redacted]" + s[e..]
  {
    MaskMarks(s, cov, 0, e);
    MaskCopies(s, cov, e, |s|);
    assert s[e..|s|] == s[e..];
  }

  /** A text that opens with a token: one mark instead of it, and the rest as it was. */
  lemma OneToken(s: string, e: nat)
    requires PrefixAt(s, 0) && 4 < e <= |s| && (forall k | 4 <= k < e :: TokenChar(s[k]))
    requires (e < |s| ==> !TokenChar(s[e])) && Clean(s[e..])
    ensures Masked(s) == "[redacted]" + s[e..]
  {
    TokenCover(s, e);
    MaskFront(s, Cover(s), e);
  }

  /** A bare prefix is no secret. */
  lemma BarePrefixKept()
    ensures Masked("hlr_") == "hlr_" && Masked("hlr_ ") == "hlr_ "
  {
    UnchangedIffClean("hlr_");
    UnchangedIffClean("hlr_ ");
  }
}
