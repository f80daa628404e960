/**
 JSON trees (section 3 of RFC 8259) and the reading of records out of them. Text is left to the JSON library: a tree is
 what it parses to, with the last of several equal keys winning.
 */
module Json {
  import opened Prelude

  datatype Json =
    | Null
    | Bool(b: bool)
    | Int(n: int)
    | Float(literal: string)
    | Str(s: string)
    | Arr(items: seq<Json>)
    | Obj(fields: map<string, Json>)

  predicate Distinct(names: seq<string>)
  {
    forall i, j | 0 <= i < j < |names| :: names[i] != names[j]
  }

  /** The object with these fields, those without a value left out. */
  function MakeFields(names: seq<string>, values: seq<Option<Json>>): (m: map<string, Json>)
    requires |names| == |values|
  {
    if names == [] then map[]
    else
      var n := |names| - 1;
      var m := MakeFields(names[..n], values[..n]);
      if values[n].Some? then m[names[n] := values[n].value] else m
  }

  function Get(m: map<string, Json>, key: string): (v: Option<Json>)
  {
    if key in m then Some(m[key]) else None
  }

  /**
   The named fields of a record body: by name from an object, ignoring other keys; by position from an
   array, which the deserializer takes as well as long as it is not too long. Anything else is no record.
   */
  function Fields(body: Json, names: seq<string>): (values: Option<seq<Option<Json>>>)
    ensures values.Some? ==> |values.value| == |names|
  {
    match body
    case Obj(m) => Some(seq(|names|, i requires 0 <= i < |names| => Get(m, names[i])))
    case Arr(items) =>
      if |items| > |names| then None
      else Some(seq(|names|, i requires 0 <= i < |names| => if i < |items| then Some(items[i]) else None))
    case _ => None
  }

  lemma {:induction false} MakeFieldsGet(names: seq<string>, values: seq<Option<Json>>)
    requires |names| == |values| && Distinct(names)
    ensures forall i | 0 <= i < |names| :: Get(MakeFields(names, values), names[i]) == values[i]
    ensures forall key :: key !in names ==> key !in MakeFields(names, values)
  {
    if names != [] {
      var n := |names| - 1;
      MakeFieldsGet(names[..n], values[..n]);
      assert forall i | 0 <= i < n :: names[..n][i] == names[i] && values[..n][i] == values[i];
      assert names[n] !in names[..n];
    }
  }

  /** Reading the fields of a record that was just written gives its values back. */
  lemma FieldsRoundTrip(names: seq<string>, values: seq<Option<Json>>)
    requires |names| == |values| && Distinct(names)
    ensures Fields(Obj(MakeFields(names, values)), names) == Some(values)
  {
    MakeFieldsGet(names, values);
    var f := Fields(Obj(MakeFields(names, values)), names).value;
    assert forall i | 0 <= i < |names| :: f[i] == values[i];
    assert f == values;
  }

  // ----- Field types: `None` is a type error -----

  function Text(v: Option<Json>): (r: Option<string>)
  {
    if v.Some? && v.value.Str? then Some(v.value.s) else None
  }

  function Flag(v: Option<Json>): (r: Option<bool>)
  {
    if v.Some? && v.value.Bool? then Some(v.value.b) else None
  }

  function FlagOrFalse(v: Option<Json>): (r: Option<bool>)
  {
    if v.None? then Some(false) else Flag(v)
  }

  function MaybeText(v: Option<Json>): (r: Option<Option<string>>)
  {
    if v.None? || v.value.Null? then Some(None)
    else if v.value.Str? then Some(Some(v.value.s)) else None
  }

  function MaybeAny(v: Option<Json>): (r: Option<Option<Json>>)
  {
    if v.None? || v.value.Null? then Some(None) else Some(v)
  }

  const TWO_32: int := 0x1_0000_0000
  const TWO_63: int := 0x8000_0000_0000_0000
  const TWO_64: int := 0x1_0000_0000_0000_0000

  type U32 = n: int | 0 <= n < TWO_32
  type I64 = n: int | -TWO_63 <= n < TWO_63

  function Word(v: Option<Json>): (r: Option<U32>)
  {
    if v.Some? && v.value.Int? && 0 <= v.value.n < TWO_32 then Some(v.value.n) else None
  }

  function MaybeLong(v: Option<Json>): (r: Option<Option<I64>>)
  {
    if v.None? || v.value.Null? then Some(None)
    else if v.value.Int? && -TWO_63 <= v.value.n < TWO_63 then Some(Some(v.value.n)) else None
  }

  function Texts(items: seq<Json>): (r: Option<seq<string>>)
  {
    if forall i | 0 <= i < |items| :: items[i].Str?
    then Some(seq(|items|, i requires 0 <= i < |items| && items[i].Str? => items[i].s)) else None
  }

  function TextsOrNone(v: Option<Json>): (r: Option<seq<string>>)
  {
    if v.None? then Some([]) else if v.value.Arr? then Texts(v.value.items) else None
  }

  function Items(v: Option<Json>): (r: Option<seq<Json>>)
  {
    if v.Some? && v.value.Arr? then Some(v.value.items) else None
  }

  // ----- Writing -----

  function PutText(s: Option<string>): (v: Option<Json>)
  {
    if s.Some? then Some(Str(s.value)) else None
  }

  function TextArray(ss: seq<string>): (v: Json)
  {
    Arr(seq(|ss|, i requires 0 <= i < |ss| => Str(ss[i])))
  }

  /** `skip_serializing_if = "Vec::is_empty"`. */
  function PutTexts(ss: seq<string>): (v: Option<Json>)
  {
    if ss == [] then None else Some(TextArray(ss))
  }

  lemma TextsRoundTrip(ss: seq<string>)
    ensures TextsOrNone(PutTexts(ss)) == Some(ss) && TextsOrNone(Some(TextArray(ss))) == Some(ss)
  {
    assert Texts(TextArray(ss).items).value == ss;
  }
}
