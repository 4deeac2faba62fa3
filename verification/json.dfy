/** A minimal JSON value and the pieces of `serde`'s derived decoding the
    live-game and link types depend on: 64-bit integers and struct fields. */
module Json {
  import opened Wrappers

  datatype Json =
    | Null
    | Bool(b: bool)
    | Number(n: int)
    | Str(s: string)
    | Array(items: seq<Json>)
    | Object(members: seq<(string, Json)>)

  /** Why decoding failed; the code never inspects the reason. */
  datatype DecodeError =
    | InvalidType
    | OutOfRange
    | MissingField(name: string)
    | DuplicateField(name: string)
    | InvalidLength
    | NoVariantMatched

  const I64_MIN: int := -0x8000_0000_0000_0000
  const I64_MAX: int := 0x7FFF_FFFF_FFFF_FFFF

  predicate InI64(n: int) { I64_MIN <= n <= I64_MAX }

  /** Decodes an `i64`: a JSON integer within the 64-bit signed range. */
  function DecodeI64(j: Json): (r: Result<int, DecodeError>)
    ensures r.Ok? <==> j.Number? && InI64(j.n)
    ensures r.Ok? ==> r.value == j.n
  {
    match j
    case Number(n) => if InI64(n) then Ok(n) else Err(OutOfRange)
    case _ => Err(InvalidType)
  }

  /** The values stored under `key`, in document order. */
  function ValuesOf(members: seq<(string, Json)>, key: string): (vs: seq<Json>)
    ensures |vs| <= |members|
    ensures forall v :: v in vs ==> (key, v) in members
  {
    if |members| == 0 then []
    else (if members[0].0 == key then [members[0].1] else []) + ValuesOf(members[1..], key)
  }

  /** A struct field: present exactly once (a repeated field is an error in
      `serde`'s derived visitor, a missing one likewise). */
  function Field(members: seq<(string, Json)>, key: string): (r: Result<Json, DecodeError>)
    ensures r.Ok? <==> |ValuesOf(members, key)| == 1
    ensures r.Ok? ==> (key, r.value) in members
  {
    var vs := ValuesOf(members, key);
    if |vs| == 0 then Err(MissingField(key))
    else if |vs| > 1 then Err(DuplicateField(key))
    else Ok(vs[0])
  }

  /** Decodes an `i64` struct field. */
  function I64Field(members: seq<(string, Json)>, key: string): (r: Result<int, DecodeError>)
    ensures r.Ok? <==> Field(members, key).Ok? && DecodeI64(Field(members, key).value).Ok?
    ensures r.Ok? ==> (key, Number(r.value)) in members && InI64(r.value)
  {
    match Field(members, key)
    case Err(e) => Err(e)
    case Ok(v) => DecodeI64(v)
  }

  /** In a member list whose keys all differ from `key` except at index
      `i`, the values under `key` are exactly the one at `i`. */
  lemma {:induction false} ValuesOfPick(m: seq<(string, Json)>, key: string, i: int)
    requires 0 <= i < |m| && m[i].0 == key
    requires forall k :: 0 <= k < |m| && k != i ==> m[k].0 != key
    ensures ValuesOf(m, key) == [m[i].1]
  {
    if i == 0 {
      ValuesOfAbsent(m[1..], key);
    } else {
      ValuesOfPick(m[1..], key, i - 1);
    }
  }

  lemma {:induction false} ValuesOfAbsent(m: seq<(string, Json)>, key: string)
    requires forall k :: 0 <= k < |m| ==> m[k].0 != key
    ensures ValuesOf(m, key) == []
  {
    if |m| > 0 {
      ValuesOfAbsent(m[1..], key);
    }
  }
}
