/**
  Ordered key/value parameter lists, as sent in a query string or a form body,
  and the shape of the form serializer of section 5.2 of the WHATWG URL
  Standard: each pair becomes `name=value` (both percent-encoded by `encode`)
  and the pairs are joined with `&`. The byte-level encoding is a parameter.
 */
module FormEncoding {
  import opened Text

  /** One (key, value) parameter. */
  type Pair = (string, string)

  /** The values given for `key`, in order; duplicates are all kept. */
  function ValuesOf(pairs: seq<Pair>, key: string): (vs: seq<string>)
    ensures |vs| <= |pairs|
  {
    if pairs == [] then []
    else (if pairs[0].0 == key then [pairs[0].1] else []) + ValuesOf(pairs[1..], key)
  }

  lemma ValuesOfCons(p: Pair, rest: seq<Pair>, key: string)
    ensures ValuesOf([p] + rest, key) == (if p.0 == key then [p.1] else []) + ValuesOf(rest, key)
  {
    assert ([p] + rest)[1..] == rest;
  }

  /** The `name=value` segment of every pair, in order. */
  function Segments(encode: string -> string, pairs: seq<Pair>): (r: seq<string>)
    ensures |r| == |pairs|
  {
    if pairs == [] then []
    else [encode(pairs[0].0) + "=" + encode(pairs[0].1)] + Segments(encode, pairs[1..])
  }

  lemma {:induction false} SegmentsAppend(encode: string -> string, a: seq<Pair>, b: seq<Pair>)
    ensures Segments(encode, a + b) == Segments(encode, a) + Segments(encode, b)
  {
    if a != [] {
      assert (a + b)[1..] == a[1..] + b;
      SegmentsAppend(encode, a[1..], b);
    } else {
      assert a + b == b;
    }
  }

  /** The reference serializer: segments joined with `&`. */
  function Serialize(encode: string -> string, pairs: seq<Pair>): string {
    Join('&', Segments(encode, pairs))
  }

  /** Serializing two non-empty lists separately and joining them with `&` serializes their concatenation. */
  lemma SerializeAppend(encode: string -> string, a: seq<Pair>, b: seq<Pair>)
    requires a != [] && b != []
    ensures Serialize(encode, a + b) == Serialize(encode, a) + "&" + Serialize(encode, b)
  {
    SegmentsAppend(encode, a, b);
    JoinAppend('&', Segments(encode, a), Segments(encode, b));
  }
}
