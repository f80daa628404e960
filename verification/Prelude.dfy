/** Shared vocabulary: an optional value, and the concatenation of a list of strings. */
module Prelude {
  datatype Option<+T> = None | Some(value: T)

  /** `pieces.concat()`: all the strings, in order. */
  function Concat(pieces: seq<string>): (text: string)
  {
    if pieces == [] then "" else Concat(pieces[..|pieces| - 1]) + pieces[|pieces| - 1]
  }

  lemma {:induction false} ConcatAppend(a: seq<string>, b: seq<string>)
    ensures Concat(a + b) == Concat(a) + Concat(b)
  {
    if b == [] {
      assert a + b == a;
    } else {
      ConcatAppend(a, b[..|b| - 1]);
      assert (a + b)[..|a + b| - 1] == a + b[..|b| - 1];
    }
  }

  /** With `ConcatAppend`, all there is to know: of nothing, nothing; of one string, that string. */
  lemma ConcatOne(s: string)
    ensures Concat([]) == "" && Concat([s]) == s
  {
    assert [s][..0] == [];
  }
}
