/** The JSON documents the views hand to the web layer, and the response that
    carries one together with its HTTP status code. */
module Json {
  import opened Outcomes

  datatype Json =
    | Bool(b: bool)
    | Str(s: string)
    | Array(items: seq<Json>)
    | Object(fields: seq<(string, Json)>)

  /** A JSON response: the body and the HTTP status code. */
  datatype Response = Response(body: Json, status: int)

  /** The status code a JSON response gets when none is given. */
  const DefaultStatus := 200

  /** The keys of an object's fields, in insertion order. */
  function Keys(fields: seq<(string, Json)>): (ks: seq<string>)
    ensures |ks| == |fields|
    ensures forall i :: 0 <= i < |fields| ==> ks[i] == fields[i].0
  {
    if fields == [] then [] else [fields[0].0] + Keys(fields[1..])
  }

  /** True if `j` is an object with a field named `k`. */
  predicate HasKey(j: Json, k: string) {
    j.Object? && k in Keys(j.fields)
  }

  /** The value of the first field named `k`, if any. */
  function Lookup(fields: seq<(string, Json)>, k: string): (v: Option<Json>)
    ensures v.Some? <==> k in Keys(fields)
  {
    if fields == [] then None
    else if fields[0].0 == k then Some(fields[0].1)
    else Lookup(fields[1..], k)
  }

  /** A JSON array of strings, one per element of `ss`. */
  function Strings(ss: seq<string>): (j: Json)
    ensures j.Array? && |j.items| == |ss|
    ensures forall i :: 0 <= i < |ss| ==> j.items[i] == Str(ss[i])
  {
    Array(seq(|ss|, i requires 0 <= i < |ss| => Str(ss[i])))
  }
}
