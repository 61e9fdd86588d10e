/**
  The back end's classification endpoint: the post-processing of the model's
  probability vector into at most five ranked, normalised dog breeds, and the
  guards of the endpoint around it. The model itself, the image decoding and
  the label file are inputs.
 */
module Predictions {
  import opened Shared
  import opened Text

  /** ImageNet's dog classes are the indices 151 to 268, inclusive. */
  const FirstDogClass := 151
  const LastDogClass := 268
  /** A class is kept when its probability, as a percentage, is strictly above this. */
  const MinPercent := 1.0
  const TopCount := 5

  /**
    `class_name.split(',')[0].title()`: the text before the first comma,
    title-cased character by character, so a title-cased name with no comma.
   */
  function Label(className: string): (r: string)
    ensures |r| == |BeforeComma(className)| <= |className|
    ensures forall i :: 0 <= i < |r| ==> r[i] == TitleCharAt(BeforeComma(className), i)
    ensures ',' !in r
    ensures IsTitleCased(r)
  {
    var name := BeforeComma(className);
    TitleSpec(name);
    TitleIsTitleCased(name);
    assert forall i :: 0 <= i < |name| && !IsLetter(Title(name)[i]) ==> Title(name)[i] == name[i];
    Title(name)
  }

  function Entry(probs: seq<real>, classNames: seq<string>, i: nat): BreedScore
    requires i < |probs| && i < |classNames|
  {
    BreedScore(Label(classNames[i]), probs[i] * 100.0)
  }

  // ---------------------------------------------------------------------
  // Filtering the dog classes (the loop over range(151, 269))
  // ---------------------------------------------------------------------

  /** The dog classes below n whose percentage is above the threshold, in index order. */
  function KeptIndices(probs: seq<real>, n: int): (r: seq<int>)
    requires FirstDogClass <= n <= |probs|
    ensures forall k :: 0 <= k < |r| ==> FirstDogClass <= r[k] < n && probs[r[k]] * 100.0 > MinPercent
    decreases n
  {
    if n == FirstDogClass then []
    else KeptIndices(probs, n - 1) + (if probs[n - 1] * 100.0 > MinPercent then [n - 1] else [])
  }

  /** No dog class above the threshold is skipped. */
  lemma {:induction false} KeptIndicesComplete(probs: seq<real>, n: int)
    requires FirstDogClass <= n <= |probs|
    ensures forall j :: FirstDogClass <= j < n && probs[j] * 100.0 > MinPercent ==> j in KeptIndices(probs, n)
    decreases n
  {
    if n > FirstDogClass {
      KeptIndicesComplete(probs, n - 1);
      var idx := KeptIndices(probs, n - 1);
      var tail := if probs[n - 1] * 100.0 > MinPercent then [n - 1] else [];
      assert KeptIndices(probs, n) == idx + tail;
      if probs[n - 1] * 100.0 > MinPercent {
        assert (idx + tail)[|idx|] == n - 1;
      }
    }
  }

  /** The kept indices come in increasing order, as the loop visits them. */
  lemma {:induction false} KeptIndicesIncreasing(probs: seq<real>, n: int)
    requires FirstDogClass <= n <= |probs|
    ensures forall k, l :: 0 <= k < l < |KeptIndices(probs, n)| ==> KeptIndices(probs, n)[k] < KeptIndices(probs, n)[l]
    decreases n
  {
    if n > FirstDogClass {
      KeptIndicesIncreasing(probs, n - 1);
      var idx := KeptIndices(probs, n - 1);
      var r := idx + if probs[n - 1] * 100.0 > MinPercent then [n - 1] else [];
      assert KeptIndices(probs, n) == r;
      forall k, l | 0 <= k < l < |r| ensures r[k] < r[l] {
        assert r[k] == idx[k];
        if l < |idx| {
          assert r[l] == idx[l];
        } else {
          assert r[l] == n - 1;
        }
      }
    }
  }

  /** One entry per kept index. */
  lemma {:induction false} KeptLength(probs: seq<real>, classNames: seq<string>, n: int)
    requires FirstDogClass <= n <= |probs| && n <= |classNames|
    ensures |Kept(probs, classNames, n)| == |KeptIndices(probs, n)|
    decreases n
  {
    if n > FirstDogClass {
      KeptLength(probs, classNames, n - 1);
    }
  }

  /** The entries the loop appends for the dog classes below n. */
  function Kept(probs: seq<real>, classNames: seq<string>, n: int): seq<BreedScore>
    requires FirstDogClass <= n <= |probs| && n <= |classNames|
    decreases n
  {
    if n == FirstDogClass then []
    else
      var tail := if probs[n - 1] * 100.0 > MinPercent then [Entry(probs, classNames, n - 1)] else [];
      Kept(probs, classNames, n - 1) + tail
  }

  /** Entry k of the kept list is the entry of the k-th kept index. */
  lemma {:induction false} KeptAt(probs: seq<real>, classNames: seq<string>, n: int)
    requires FirstDogClass <= n <= |probs| && n <= |classNames|
    ensures |Kept(probs, classNames, n)| == |KeptIndices(probs, n)|
    ensures forall k :: 0 <= k < |KeptIndices(probs, n)| ==>
      Kept(probs, classNames, n)[k] == Entry(probs, classNames, KeptIndices(probs, n)[k])
    decreases n
  {
    if n > FirstDogClass {
      KeptAt(probs, classNames, n - 1);
      var kept, idx := Kept(probs, classNames, n - 1), KeptIndices(probs, n - 1);
      if probs[n - 1] * 100.0 > MinPercent {
        assert Kept(probs, classNames, n) == kept + [Entry(probs, classNames, n - 1)];
        assert KeptIndices(probs, n) == idx + [n - 1];
      } else {
        assert Kept(probs, classNames, n) == kept;
        assert KeptIndices(probs, n) == idx;
      }
    }
  }

  function Candidates(probs: seq<real>, classNames: seq<string>): seq<BreedScore>
    requires |probs| > LastDogClass && |classNames| > LastDogClass
  {
    Kept(probs, classNames, LastDogClass + 1)
  }

  predicate AllAbove(s: seq<BreedScore>, bound: real)
  {
    forall k :: 0 <= k < |s| ==> s[k].confidence > bound
  }

  lemma {:induction false} CandidatesAboveThreshold(probs: seq<real>, classNames: seq<string>)
    requires |probs| > LastDogClass && |classNames| > LastDogClass
    ensures AllAbove(Candidates(probs, classNames), MinPercent)
  {
    KeptAt(probs, classNames, LastDogClass + 1);
  }

  /** An index is a candidate exactly when it is a dog class above the threshold. */
  lemma {:induction false} CandidateIndices(probs: seq<real>, j: int)
    requires |probs| > LastDogClass
    ensures j in KeptIndices(probs, LastDogClass + 1) <==>
      FirstDogClass <= j <= LastDogClass && probs[j] * 100.0 > MinPercent
  {
    KeptIndicesComplete(probs, LastDogClass + 1);
  }

  method CollectBreedProbs(probs: seq<real>, classNames: seq<string>) returns (breedProbs: seq<BreedScore>)
    requires |probs| > LastDogClass && |classNames| > LastDogClass
    ensures breedProbs == Candidates(probs, classNames)
  {
    breedProbs := [];
    var i := FirstDogClass;
    while i < LastDogClass + 1
      invariant FirstDogClass <= i <= LastDogClass + 1
      invariant breedProbs == Kept(probs, classNames, i)
    {
      var prob := probs[i] * 100.0;
      if prob > MinPercent {
        breedProbs := breedProbs + [BreedScore(Label(classNames[i]), prob)];
      }
      KeptStep(probs, classNames, i);
      i := i + 1;
    }
  }

  /** The entries for the classes below i + 1 are those below i, then class i's if it is kept. */
  lemma {:induction false} KeptStep(probs: seq<real>, classNames: seq<string>, i: int)
    requires FirstDogClass <= i < |probs| && i < |classNames|
    ensures Kept(probs, classNames, i + 1) ==
      Kept(probs, classNames, i) + if probs[i] * 100.0 > MinPercent then [BreedScore(Label(classNames[i]), probs[i] * 100.0)] else []
  {
  }

  // ---------------------------------------------------------------------
  // Sorting by confidence, highest first (list.sort(reverse=True))
  // ---------------------------------------------------------------------

  predicate SortedDesc(s: seq<BreedScore>)
  {
    forall i, j :: 0 <= i < j < |s| ==> s[i].confidence >= s[j].confidence
  }

  /** x placed after every element whose confidence is at least x's. */
  function Insert(s: seq<BreedScore>, x: BreedScore): seq<BreedScore>
  {
    if s == [] then [x]
    else if s[0].confidence >= x.confidence then [s[0]] + Insert(s[1..], x)
    else [x] + s
  }

  /** Insertion adds exactly x: the result is a rearrangement of s with x. */
  lemma {:induction false} InsertPermutes(s: seq<BreedScore>, x: BreedScore)
    ensures multiset(Insert(s, x)) == multiset(s) + multiset{x}
  {
    if s != [] {
      assert s == [s[0]] + s[1..];
      if s[0].confidence >= x.confidence {
        InsertPermutes(s[1..], x);
      }
    }
  }

  /** Inserting into a list sorted from highest to lowest keeps it sorted. */
  lemma {:induction false} InsertSorted(s: seq<BreedScore>, x: BreedScore)
    requires SortedDesc(s)
    ensures SortedDesc(Insert(s, x))
  {
    if s != [] && s[0].confidence >= x.confidence {
      var t := s[1..];
      InsertSorted(t, x);
      var r := Insert(t, x);
      assert r[0] == x || r[0] == t[0];
      var q := [s[0]] + r;
      forall i, j | 0 <= i < j < |q| ensures q[i].confidence >= q[j].confidence {
        if i == 0 {
          assert r[0].confidence <= s[0].confidence;
          assert q[j] == r[j - 1];
        } else {
          assert q[i] == r[i - 1] && q[j] == r[j - 1];
        }
      }
    }
  }

  /** Insertion sort in input order, so that equal confidences keep their input order. */
  function SortDesc(s: seq<BreedScore>): (r: seq<BreedScore>)
    ensures SortedDesc(r)
    ensures multiset(r) == multiset(s)
  {
    if s == [] then []
    else
      assert s == s[..|s| - 1] + [s[|s| - 1]];
      var rest := SortDesc(s[..|s| - 1]);
      InsertSorted(rest, s[|s| - 1]);
      InsertPermutes(rest, s[|s| - 1]);
      Insert(rest, s[|s| - 1])
  }

  method InsertByConfidence(s: seq<BreedScore>, x: BreedScore) returns (r: seq<BreedScore>)
    ensures r == Insert(s, x)
  {
    var j := 0;
    while j < |s| && s[j].confidence >= x.confidence
      invariant 0 <= j <= |s|
      invariant Insert(s, x) == s[..j] + Insert(s[j..], x)
    {
      InsertPast(s, x, j);
      j := j + 1;
    }
    InsertStop(s, x, j);
    r := s[..j] + [x] + s[j..];
  }

  /** One step of the scan: an element at least as confident as x stays in front of it. */
  lemma {:induction false} InsertPast(s: seq<BreedScore>, x: BreedScore, j: nat)
    requires j < |s| && s[j].confidence >= x.confidence
    requires Insert(s, x) == s[..j] + Insert(s[j..], x)
    ensures Insert(s, x) == s[..j + 1] + Insert(s[j + 1..], x)
  {
    assert s[j..][0] == s[j];
    assert s[j..][1..] == s[j + 1..];
    assert Insert(s[j..], x) == [s[j]] + Insert(s[j + 1..], x);
    assert s[..j + 1] == s[..j] + [s[j]];
  }

  /** Where the scan stops, x goes in. */
  lemma {:induction false} InsertStop(s: seq<BreedScore>, x: BreedScore, j: nat)
    requires j <= |s| && (j == |s| || s[j].confidence < x.confidence)
    requires Insert(s, x) == s[..j] + Insert(s[j..], x)
    ensures Insert(s, x) == s[..j] + [x] + s[j..]
  {
    if j == |s| {
      assert s[j..] == [];
    }
  }

  method SortByConfidence(s: seq<BreedScore>) returns (r: seq<BreedScore>)
    ensures r == SortDesc(s)
  {
    r := [];
    var i := 0;
    while i < |s|
      invariant 0 <= i <= |s|
      invariant r == SortDesc(s[..i])
    {
      assert s[..i + 1][..i] == s[..i];
      r := InsertByConfidence(r, s[i]);
      i := i + 1;
    }
    assert s[..|s|] == s;
  }

  /** `breed_probs[:5]`: the first min(5, n) entries. */
  function TakeTop(s: seq<BreedScore>): (r: seq<BreedScore>)
    ensures |r| == if |s| < TopCount then |s| else TopCount
    ensures r == s[..|r|]
  {
    if |s| <= TopCount then s else s[..TopCount]
  }

  // ---------------------------------------------------------------------
  // Normalising to a total of 100
  // ---------------------------------------------------------------------

  function Total(s: seq<BreedScore>): real
  {
    if s == [] then 0.0 else s[0].confidence + Total(s[1..])
  }

  lemma {:induction false} TotalPositive(s: seq<BreedScore>)
    requires AllAbove(s, 0.0) && s != []
    ensures Total(s) > 0.0
  {
    if |s| > 1 {
      TotalPositive(s[1..]);
    }
  }

  function Scale(s: seq<BreedScore>, total: real): (r: seq<BreedScore>)
    requires total != 0.0
    ensures |r| == |s|
    ensures forall k :: 0 <= k < |s| ==> r[k] == BreedScore(s[k].breed, s[k].confidence / total * 100.0)
  {
    seq(|s|, k requires 0 <= k < |s| => BreedScore(s[k].breed, s[k].confidence / total * 100.0))
  }

  /** `if breed_probs:` divide every confidence by the total and multiply by 100. */
  function Normalized(s: seq<BreedScore>): (r: seq<BreedScore>)
    requires AllAbove(s, 0.0)
    ensures |r| == |s|
  {
    if s == [] then [] else TotalPositive(s); Scale(s, Total(s))
  }

  lemma {:induction false} TotalScaled(s: seq<BreedScore>, total: real)
    requires total != 0.0
    ensures Total(Scale(s, total)) == Total(s) / total * 100.0
  {
    if s != [] {
      TotalScaled(s[1..], total);
      assert Scale(s, total)[1..] == Scale(s[1..], total);
      ScaleAdd(s[0].confidence, Total(s[1..]), total);
    }
  }

  lemma ScaleAdd(a: real, b: real, t: real)
    requires t != 0.0
    ensures a / t * 100.0 + b / t * 100.0 == (a + b) / t * 100.0
  {
  }

  /** Normalised confidences add up to exactly 100 (over the reals). */
  lemma {:induction false} NormalizedSumsTo100(s: seq<BreedScore>)
    requires AllAbove(s, 0.0) && s != []
    ensures Total(Normalized(s)) == 100.0
  {
    TotalPositive(s);
    var t := Total(s);
    assert Normalized(s) == Scale(s, t);
    TotalScaled(s, t);
    assert t / t * 100.0 == 100.0;
  }

  /** Dividing by one positive total keeps every value positive and keeps breeds and order. */
  lemma {:induction false} NormalizedKeepsOrder(s: seq<BreedScore>)
    requires AllAbove(s, 0.0)
    ensures |Normalized(s)| == |s|
    ensures AllAbove(Normalized(s), 0.0)
    ensures forall k :: 0 <= k < |s| ==> Normalized(s)[k].breed == s[k].breed
    ensures forall i, j :: 0 <= i < |s| && 0 <= j < |s| ==>
      (s[i].confidence >= s[j].confidence <==> Normalized(s)[i].confidence >= Normalized(s)[j].confidence)
  {
    if s != [] {
      TotalPositive(s);
      var t := Total(s);
      forall i, j | 0 <= i < |s| && 0 <= j < |s|
        ensures s[i].confidence >= s[j].confidence <==> s[i].confidence / t * 100.0 >= s[j].confidence / t * 100.0
      {
        DivideMonotone(s[i].confidence, s[j].confidence, t);
      }
    }
  }

  lemma DivideMonotone(a: real, b: real, t: real)
    requires t > 0.0
    ensures a >= b <==> a / t * 100.0 >= b / t * 100.0
    ensures a > 0.0 ==> a / t * 100.0 > 0.0
  {
    assert a / t * 100.0 - b / t * 100.0 == (a - b) * (100.0 / t);
  }

  method NormalizeConfidences(s: seq<BreedScore>) returns (r: seq<BreedScore>)
    requires AllAbove(s, 0.0)
    ensures r == Normalized(s)
  {
    r := s;
    if |r| > 0 {
      var total := Total(s);
      TotalPositive(s);
      for i := 0 to |r|
        invariant |r| == |s|
        invariant forall k :: 0 <= k < i ==> r[k] == BreedScore(s[k].breed, s[k].confidence / total * 100.0)
        invariant forall k :: i <= k < |r| ==> r[k] == s[k]
      {
        r := r[i := r[i].(confidence := r[i].confidence / total * 100.0)];
      }
    }
  }

  // ---------------------------------------------------------------------
  // get_predictions
  // ---------------------------------------------------------------------

  lemma {:induction false} SortedAbove(s: seq<BreedScore>, bound: real)
    requires AllAbove(s, bound)
    ensures AllAbove(SortDesc(s), bound)
    ensures AllAbove(TakeTop(SortDesc(s)), bound)
  {
    var r := SortDesc(s);
    forall k | 0 <= k < |r| ensures r[k].confidence > bound {
      assert r[k] in multiset(r);
      assert r[k] in multiset(s);
      var i :| 0 <= i < |s| && s[i] == r[k];
    }
  }

  /** What `get_predictions` returns for a probability vector and the class names. */
  function Predictions(probs: seq<real>, classNames: seq<string>): (r: seq<BreedScore>)
    requires |probs| > LastDogClass && |classNames| > LastDogClass
    ensures |r| <= TopCount
  {
    CandidatesAboveThreshold(probs, classNames);
    SortedAbove(Candidates(probs, classNames), MinPercent);
    Normalized(TakeTop(SortDesc(Candidates(probs, classNames))))
  }

  method GetPredictions(probs: seq<real>, classNames: seq<string>) returns (breedProbs: seq<BreedScore>)
    requires |probs| > LastDogClass && |classNames| > LastDogClass
    ensures breedProbs == Predictions(probs, classNames)
  {
    breedProbs := CollectBreedProbs(probs, classNames);
    CandidatesAboveThreshold(probs, classNames);
    SortedAbove(breedProbs, MinPercent);
    breedProbs := SortByConfidence(breedProbs);
    if |breedProbs| > TopCount {
      breedProbs := breedProbs[..TopCount];
    }
    breedProbs := NormalizeConfidences(breedProbs);
  }

  /**
    The result holds min(5, number of candidates) entries, best first, with
    positive confidences that add up to 100.
   */
  lemma {:induction false} PredictionsShape(probs: seq<real>, classNames: seq<string>)
    requires |probs| > LastDogClass && |classNames| > LastDogClass
    ensures var c := Candidates(probs, classNames); var p := Predictions(probs, classNames);
      |p| == (if |c| < TopCount then |c| else TopCount)
      && SortedDesc(p)
      && AllAbove(p, 0.0)
      && (p != [] ==> Total(p) == 100.0)
  {
    var c := Candidates(probs, classNames);
    CandidatesAboveThreshold(probs, classNames);
    SortedAbove(c, MinPercent);
    PredictionsLength(probs, classNames);
    var sorted := SortDesc(c);
    var top := TakeTop(sorted);
    assert SortedDesc(top);
    NormalizedKeepsOrder(top);
    var p := Normalized(top);
    forall i, j | 0 <= i < j < |p| ensures p[i].confidence >= p[j].confidence {
      assert top[i].confidence >= top[j].confidence;
    }
    if p != [] {
      NormalizedSumsTo100(top);
    }
  }

  /**
    The entries are the first ones of a rearrangement of all candidates sorted
    from highest to lowest: no candidate left out ranks above one kept, and the
    kept ones are rescaled by one positive factor, so breed and order survive.
   */
  lemma {:induction false} PredictionsAreTopFive(probs: seq<real>, classNames: seq<string>)
    requires |probs| > LastDogClass && |classNames| > LastDogClass
    ensures var c := Candidates(probs, classNames); var sorted := SortDesc(c); var p := Predictions(probs, classNames);
      multiset(sorted) == multiset(c)
      && |p| <= |sorted|
      && (forall i, j :: 0 <= i < |p| <= j < |sorted| ==> sorted[j].confidence <= sorted[i].confidence)
      && (forall k :: 0 <= k < |p| ==> p[k].breed == sorted[k].breed)
      && (forall i, j :: 0 <= i < |p| && 0 <= j < |p| ==>
            (sorted[i].confidence >= sorted[j].confidence <==> p[i].confidence >= p[j].confidence))
  {
    var c := Candidates(probs, classNames);
    CandidatesAboveThreshold(probs, classNames);
    SortedAbove(c, MinPercent);
    var sorted := SortDesc(c);
    var top := TakeTop(sorted);
    NormalizedKeepsOrder(top);
    assert forall k :: 0 <= k < |top| ==> top[k] == sorted[k];
  }

  /** The result is empty exactly when no dog class is above the threshold. */
  lemma {:induction false} PredictionsEmpty(probs: seq<real>, classNames: seq<string>)
    requires |probs| > LastDogClass && |classNames| > LastDogClass
    ensures Predictions(probs, classNames) == [] <==>
      forall j :: FirstDogClass <= j <= LastDogClass ==> probs[j] * 100.0 <= MinPercent
  {
    PredictionsLength(probs, classNames);
    KeptLength(probs, classNames, LastDogClass + 1);
    KeptIndicesEmpty(probs, LastDogClass + 1);
  }

  /** No index is kept exactly when no dog class below n is above the threshold. */
  lemma {:induction false} KeptIndicesEmpty(probs: seq<real>, n: int)
    requires FirstDogClass <= n <= |probs|
    ensures KeptIndices(probs, n) == [] <==> forall j :: FirstDogClass <= j < n ==> probs[j] * 100.0 <= MinPercent
    decreases n
  {
    if n > FirstDogClass {
      KeptIndicesEmpty(probs, n - 1);
    }
  }

  /** The result holds min(5, number of candidates) entries. */
  lemma {:induction false} PredictionsLength(probs: seq<real>, classNames: seq<string>)
    requires |probs| > LastDogClass && |classNames| > LastDogClass
    ensures var c := Candidates(probs, classNames);
      |Predictions(probs, classNames)| == if |c| < TopCount then |c| else TopCount
  {
    var c := Candidates(probs, classNames);
    CandidatesAboveThreshold(probs, classNames);
    SortedAbove(c, MinPercent);
    var sorted := SortDesc(c);
    assert |sorted| == |multiset(sorted)| == |c|;
    NormalizedKeepsOrder(TakeTop(sorted));
  }

  // ---------------------------------------------------------------------
  // classify_image
  // ---------------------------------------------------------------------

  const ImagePrefix := "image/"
  const NotAnImageDetail := "File must be an image"
  /** `str()` of the HTTPException raised for an empty result, as Starlette's `__str__` writes it: its status, a colon, its detail. */
  const NoDogText := "400: No dog detected in the image"

  /** Reading, decoding and running the model: the probability vector, or the text of what was raised. */
  datatype Inference = Inferred(probs: seq<real>) | Raised(text: string)

  datatype HttpReply = HttpReply(status: int, body: Json)

  function DetailBody(detail: string): Json
  {
    JObj(map["detail" := JStr(detail)])
  }

  function ScoresToJson(s: seq<BreedScore>): (r: seq<Json>)
    ensures |r| == |s|
    ensures forall k :: 0 <= k < |s| ==> r[k] == ScoreToJson(s[k])
  {
    if s == [] then [] else [ScoreToJson(s[0])] + ScoresToJson(s[1..])
  }

  /** `{"results": results}`. */
  function ResultsBody(results: seq<BreedScore>): Json
  {
    JObj(map["results" := JArr(ScoresToJson(results))])
  }

  method ClassifyImage(contentType: string, inference: Inference, classNames: seq<string>) returns (reply: HttpReply)
    requires |classNames| > LastDogClass
    requires inference.Inferred? ==> |inference.probs| > LastDogClass
    ensures !StartsWith(contentType, ImagePrefix) ==> reply == HttpReply(400, DetailBody(NotAnImageDetail))
    ensures StartsWith(contentType, ImagePrefix) && inference.Raised? ==>
      reply == HttpReply(500, DetailBody(inference.text))
    ensures StartsWith(contentType, ImagePrefix) && inference.Inferred? ==>
      var results := Predictions(inference.probs, classNames);
      reply == if results == [] then HttpReply(500, DetailBody(NoDogText)) else HttpReply(200, ResultsBody(results))
    ensures reply.status in {200, 400, 500}
    ensures reply.status == 400 <==> !StartsWith(contentType, ImagePrefix)
  {
    if !StartsWith(contentType, ImagePrefix) {
      return HttpReply(400, DetailBody(NotAnImageDetail));
    }
    match inference
    case Raised(text) =>
      reply := HttpReply(500, DetailBody(text));
    case Inferred(probs) =>
      var results := GetPredictions(probs, classNames);
      if results == [] {
        // The 400 raised here is caught by the handler below it and re-raised as a 500.
        reply := HttpReply(500, DetailBody(NoDogText));
      } else {
        reply := HttpReply(200, ResultsBody(results));
      }
  }
}
