/** Values shared by every component: optional fields, JavaScript truthiness of
    optional strings, and plain JavaScript objects used as insertion-ordered maps. */
module Common {

  datatype Option<+T> = None | Some(value: T)

  /** A JSON string field used as a condition in `if (x)` or `x || y`: present and non-empty. */
  predicate Truthy(s: Option<string>)
  {
    s.Some? && s.value != ""
  }

  /** `a || b` where `a` is an optional string field. */
  function OrElse(a: Option<string>, b: string): string
  {
    if Truthy(a) then a.value else b
  }

  /** A JavaScript object with string keys, as the list of its own properties in
      insertion order (`Object.keys` order for keys that are not array indices). */
  type Object<V> = seq<(string, V)>

  ghost predicate DistinctKeys<V>(m: Object<V>)
  {
    forall i, j :: 0 <= i < j < |m| ==> m[i].0 != m[j].0
  }

  /** `m[k]`, where an absent property reads as `None`. */
  function Get<V>(m: Object<V>, k: string): (r: Option<V>)
    ensures r.Some? <==> exists i :: 0 <= i < |m| && m[i].0 == k
    ensures r.Some? ==> exists i :: 0 <= i < |m| && m[i] == (k, r.value)
  {
    if m == [] then None
    else if m[0].0 == k then Some(m[0].1)
    else Get(m[1..], k)
  }

  /** `{...m, [k]: v}`: an existing property keeps its position and takes the new
      value; a new property is appended. */
  function Put<V>(m: Object<V>, k: string, v: V): (r: Object<V>)
    ensures Get(r, k) == Some(v)
    ensures forall k' :: k' != k ==> Get(r, k') == Get(m, k')
    ensures Get(m, k).Some? ==> |r| == |m|
    ensures Get(m, k).None? ==> |r| == |m| + 1 && r[|m|] == (k, v)
    ensures forall i :: 0 <= i < |m| ==> r[i].0 == m[i].0
  {
    if m == [] then [(k, v)]
    else if m[0].0 == k then [(k, v)] + m[1..]
    else [m[0]] + Put(m[1..], k, v)
  }

  /** Every property of `{...m, [k]: v}` is the new one or one of `m`. */
  lemma {:induction false} PutEntries<V>(m: Object<V>, k: string, v: V)
    ensures forall e :: e in Put(m, k, v) ==> e == (k, v) || e in m
  {
    if m != [] && m[0].0 != k {
      PutEntries(m[1..], k, v);
    }
  }

  /** Assignment keeps the keys of an object distinct. */
  lemma PutDistinct<V>(m: Object<V>, k: string, v: V)
    requires DistinctKeys(m)
    ensures DistinctKeys(Put(m, k, v))
  {
    if Get(m, k).None? {
      PutAppends(m, k, v);
    }
  }

  /** Assigning a property the object does not have appends it. */
  lemma {:induction false} PutAppends<V>(m: Object<V>, k: string, v: V)
    requires Get(m, k).None?
    ensures Put(m, k, v) == m + [(k, v)]
  {
    if m != [] {
      assert m[0].0 != k;
      PutAppends(m[1..], k, v);
      assert Put(m, k, v) == [m[0]] + (m[1..] + [(k, v)]);
    }
  }

  /** `new Set(xs)` read back in iteration order: first occurrences, in order. */
  function Distinct(xs: seq<string>): (r: seq<string>)
    ensures forall x :: x in r <==> x in xs
    ensures NoDuplicates(r)
  {
    if xs == [] then []
    else
      var d := Distinct(xs[..|xs| - 1]);
      assert forall x :: x in xs <==> x in xs[..|xs| - 1] || x == xs[|xs| - 1];
      if xs[|xs| - 1] in d then d else d + [xs[|xs| - 1]]
  }

  ghost predicate NoDuplicates(xs: seq<string>)
  {
    forall i, j :: 0 <= i < j < |xs| ==> xs[i] != xs[j]
  }

  /** `xs` with every occurrence of `x` removed, the rest in order. */
  function Remove(xs: seq<string>, x: string): (r: seq<string>)
    ensures forall y :: y in r <==> y in xs && y != x
    ensures NoDuplicates(xs) ==> NoDuplicates(r)
  {
    if xs == [] then []
    else if xs[0] == x then Remove(xs[1..], x)
    else
      var t := Remove(xs[1..], x);
      assert NoDuplicates(xs) ==> NoDuplicates(xs[1..]) && xs[0] !in xs[1..];
      [xs[0]] + t
  }
}
