/**
  Values shared by the front end and the back end of the dog-breed classifier:
  an optional value, the JSON values exchanged over HTTP, the uploaded file,
  a (breed, confidence) pair, and two small sequence utilities.
 */
module Shared {

  datatype Option<+T> = None | Some(value: T)

  /** A JSON value as the browser receives it (numbers as reals). */
  datatype Json =
    | JNull
    | JBool(b: bool)
    | JNum(n: real)
    | JStr(s: string)
    | JArr(items: seq<Json>)
    | JObj(fields: map<string, Json>)

  /** `value.key` for an object that has the key; nothing otherwise. */
  function Field(value: Json, key: string): (r: Option<Json>)
    ensures r.Some? <==> value.JObj? && key in value.fields
    ensures r.Some? ==> r.value == value.fields[key]
  {
    if value.JObj? && key in value.fields then Some(value.fields[key]) else None
  }

  /** A file chosen by the user: its name, its declared media type and its size in bytes. */
  datatype FileRef = FileRef(name: string, mediaType: string, size: nat)

  /** One ranked prediction, `{"breed": ..., "confidence": ...}` on the wire. */
  datatype BreedScore = BreedScore(breed: string, confidence: real)

  function ScoreToJson(b: BreedScore): Json
  {
    JObj(map["breed" := JStr(b.breed), "confidence" := JNum(b.confidence)])
  }

  predicate NoDuplicates<T(==)>(s: seq<T>)
  {
    forall i, j :: 0 <= i < j < |s| ==> s[i] != s[j]
  }

  /** `s.filter(b => b !== x)`: every element other than x, in the original order. */
  function Without<T(==)>(s: seq<T>, x: T): (r: seq<T>)
    ensures forall y :: y in r ==> y in s && y != x
    ensures forall y :: y in s && y != x ==> y in r
    ensures x !in s ==> r == s
    ensures |r| <= |s|
  {
    if s == [] then []
    else if s[0] == x then Without(s[1..], x)
    else [s[0]] + Without(s[1..], x)
  }

  /** The head of a list without duplicates is not in its tail, and the tail has no duplicates. */
  lemma {:induction false} HeadNotInTail<T>(s: seq<T>)
    requires NoDuplicates(s) && s != []
    ensures s[0] !in s[1..]
    ensures NoDuplicates(s[1..])
  {
    var t := s[1..];
    forall i | 0 <= i < |t| ensures t[i] != s[0] {
      assert t[i] == s[i + 1];
    }
    forall i, j | 0 <= i < j < |t| ensures t[i] != t[j] {
      assert t[i] == s[i + 1] && t[j] == s[j + 1];
    }
  }

  /** Filtering distributes over concatenation. */
  lemma {:induction false} WithoutConcat<T>(a: seq<T>, b: seq<T>, x: T)
    ensures Without(a + b, x) == Without(a, x) + Without(b, x)
  {
    if a == [] {
      assert a + b == b;
    } else {
      assert (a + b)[0] == a[0];
      assert (a + b)[1..] == a[1..] + b;
      WithoutConcat(a[1..], b, x);
    }
  }

  /** In a list without duplicates, filtering out the element at position k removes exactly that position. */
  lemma {:induction false} WithoutAt<T>(s: seq<T>, k: nat)
    requires NoDuplicates(s) && k < |s|
    ensures Without(s, s[k]) == s[..k] + s[k + 1..]
  {
    var x, before, after := s[k], s[..k], s[k + 1..];
    assert s == before + ([x] + after);
    forall i | 0 <= i < |before| ensures before[i] != x {
      assert before[i] == s[i];
    }
    forall i | 0 <= i < |after| ensures after[i] != x {
      assert after[i] == s[k + 1 + i];
    }
    WithoutConcat(before, [x] + after, x);
    WithoutConcat([x], after, x);
    assert Without([x], x) == [];
  }

  /** Filtering keeps a list free of duplicates. */
  lemma {:induction false} WithoutNoDuplicates<T>(s: seq<T>, x: T)
    requires NoDuplicates(s)
    ensures NoDuplicates(Without(s, x))
  {
    if s != [] {
      var t := s[1..];
      assert NoDuplicates(t);
      WithoutNoDuplicates(t, x);
      if s[0] != x {
        HeadNotInTail(s);
        var w := Without(t, x);
        assert s[0] !in w;
        var r := [s[0]] + w;
        forall i, j | 0 <= i < j < |r| ensures r[i] != r[j] {
          if i == 0 {
            assert r[j] == w[j - 1];
            assert w[j - 1] in w;
          } else {
            assert r[i] == w[i - 1] && r[j] == w[j - 1];
          }
        }
      }
    }
  }
}
