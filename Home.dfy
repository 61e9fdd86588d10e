/**
  The image-classification page of the front end: the state it keeps, the
  check it applies to the server's reply, the message it shows on failure,
  and the two small helpers its result panels use.
 */
module Home {
  import opened Shared
  import opened Text

  const Paw := "\U{1F43E}"
  const ImagePrefix := "image/"
  const ClassifyPath := "/api/classify"
  const UploadField := "file"
  const NotAnImage := "Oops! That doesn't look like an image. Try again! " + Paw

  // ---------------------------------------------------------------------
  // Response acceptance
  // ---------------------------------------------------------------------

  const InvalidFormat := "Invalid response format from server"
  const NoBreeds := "No dog breeds detected"
  const InvalidPrediction := "Invalid breed prediction format"
  /** What a V8-based browser throws when the per-element check reads `.breed` of a null element. */
  const NullBreedRead := "Cannot read properties of null (reading 'breed')"

  /** How the per-element check of the results array treats one element. */
  datatype Verdict = Pass | Mismatch | NullAccess

  /**
    `typeof r === 'object' && typeof r.breed === 'string' && typeof r.confidence === 'number'`:
    `typeof null` is 'object', so a null element reaches `null.breed`, which throws.
   */
  function CheckElement(r: Json): (v: Verdict)
    ensures v == NullAccess <==> r == JNull
  {
    match r
    case JNull => NullAccess
    case JObj(m) =>
      if "breed" in m && m["breed"].JStr? && "confidence" in m && m["confidence"].JNum? then Pass
      else Mismatch
    case _ => Mismatch
  }

  /** An element with a string `breed` and a numeric `confidence`. */
  predicate IsBreedResult(r: Json)
  {
    r.JObj? && "breed" in r.fields && r.fields["breed"].JStr?
    && "confidence" in r.fields && r.fields["confidence"].JNum?
  }

  /** `Array.prototype.every`: stops at the first element that does not pass. */
  function Every(items: seq<Json>): (v: Verdict)
    ensures v == Pass <==> forall i :: 0 <= i < |items| ==> IsBreedResult(items[i])
    ensures v != Pass ==>
      exists k :: 0 <= k < |items| && v == CheckElement(items[k]) && (forall i :: 0 <= i < k ==> IsBreedResult(items[i]))
  {
    if items == [] then Pass
    else if CheckElement(items[0]) != Pass then CheckElement(items[0])
    else
      var v := Every(items[1..]);
      assert forall i :: 1 <= i < |items| ==> items[i] == items[1..][i - 1];
      if v != Pass then
        var k :| 0 <= k < |items[1..]| && v == CheckElement(items[1..][k])
          && (forall i :: 0 <= i < k ==> IsBreedResult(items[1..][i]));
        assert v == CheckElement(items[k + 1]);
        v
      else v
  }

  /** `response.data.results` when it is an array. */
  function ResultsArray(data: Json): (r: Option<seq<Json>>)
    ensures r.Some? <==> data.JObj? && "results" in data.fields && data.fields["results"].JArr?
  {
    match Field(data, "results")
    case Some(JArr(items)) => Some(items)
    case _ => None
  }

  datatype Acceptance = Accepted(items: seq<Json>) | Rejected(reason: string)

  /** The three checks of a successful reply, in the order the page makes them. */
  function Accept(data: Json): (a: Acceptance)
    ensures a.Accepted? <==>
      ResultsArray(data).Some? && |ResultsArray(data).value| > 0
      && forall i :: 0 <= i < |ResultsArray(data).value| ==> IsBreedResult(ResultsArray(data).value[i])
    ensures a.Accepted? ==> a.items == data.fields["results"].items
    ensures ResultsArray(data).None? ==> a == Rejected(InvalidFormat)
    ensures ResultsArray(data) == Some([]) ==> a == Rejected(NoBreeds)
    ensures a.Rejected? ==> a.reason in {InvalidFormat, NoBreeds, InvalidPrediction, NullBreedRead}
    ensures ResultsArray(data).Some? && |ResultsArray(data).value| > 0 ==>
      (Every(ResultsArray(data).value) == Mismatch <==> a == Rejected(InvalidPrediction))
      && (Every(ResultsArray(data).value) == NullAccess <==> a == Rejected(NullBreedRead))
  {
    match ResultsArray(data)
    case None => Rejected(InvalidFormat)
    case Some(items) =>
      if |items| == 0 then Rejected(NoBreeds)
      else match Every(items)
        case Pass => Accepted(items)
        case Mismatch => Rejected(InvalidPrediction)
        case NullAccess => Rejected(NullBreedRead)
  }

  /** When the element check throws, the first element that is not a breed result is a null. */
  lemma {:induction false} NullIsFirstFailure(data: Json)
    requires Accept(data) == Rejected(NullBreedRead)
    ensures exists k ::
      0 <= k < |ResultsArray(data).value| && ResultsArray(data).value[k] == JNull
      && forall i :: 0 <= i < k ==> IsBreedResult(ResultsArray(data).value[i])
  {
    var items := ResultsArray(data).value;
    assert Every(items) == NullAccess;
    var k :| 0 <= k < |items| && NullAccess == CheckElement(items[k]) && (forall i :: 0 <= i < k ==> IsBreedResult(items[i]));
    assert items[k] == JNull;
  }

  /** A malformed element before a null one stops the check first: the format text, not the TypeError. */
  lemma MismatchBeforeNull()
    ensures Accept(JObj(map["results" := JArr([JObj(map["x" := JNum(1.0)]), JNull])])) == Rejected(InvalidPrediction)
  {
    var items := [JObj(map["x" := JNum(1.0)]), JNull];
    assert CheckElement(items[0]) == Mismatch;
    assert Every(items) == Mismatch;
  }

  // ---------------------------------------------------------------------
  // Failure message
  // ---------------------------------------------------------------------

  const FailurePrefix := "Ruff! Something went wrong. "
  const TimeoutCode := "ECONNABORTED"
  const TooLong := "The request took too long. "
  const TooLarge := "The image is too large. "
  const Unsupported := "The file type is not supported. "
  const TryAgain := "Try again! "

  /**
    What the catch block reads of the error it caught: `err.code`,
    `err.response?.status`, `err.response?.data?.detail` and `err.message`;
    None stands for `undefined`.
   */
  datatype Caught = Caught(code: Option<string>, status: Option<int>, detail: Option<string>, message: Option<string>)

  /** JavaScript truthiness of an optional string. */
  predicate Truthy(s: Option<string>)
  {
    s.Some? && s.value != ""
  }

  /** The middle part of the message, with its fixed priority. */
  function FailureReason(e: Caught): (r: string)
    ensures e.code == Some(TimeoutCode) ==> r == TooLong
    ensures e.code != Some(TimeoutCode) && e.status == Some(413) ==> r == TooLarge
    ensures e.code != Some(TimeoutCode) && e.status == Some(415) ==> r == Unsupported
    ensures e.code != Some(TimeoutCode) && e.status != Some(413) && e.status != Some(415) ==>
      r == (if Truthy(e.detail) then e.detail.value
            else if Truthy(e.message) then e.message.value
            else TryAgain)
  {
    if e.code == Some(TimeoutCode) then TooLong
    else if e.status == Some(413) then TooLarge
    else if e.status == Some(415) then Unsupported
    else if Truthy(e.detail) then e.detail.value
    else if Truthy(e.message) then e.message.value
    else TryAgain
  }

  /** The text shown: the fixed prefix, the reason, the paw; the reason can be read back out of it. */
  function FailureMessage(e: Caught): (m: string)
    ensures |m| == |FailurePrefix| + |FailureReason(e)| + |Paw|
    ensures m[..|FailurePrefix|] == FailurePrefix
    ensures m[|FailurePrefix|..|m| - |Paw|] == FailureReason(e)
    ensures m[|m| - |Paw|..] == Paw
  {
    FailurePrefix + FailureReason(e) + Paw
  }

  /** The outcome of the POST: a reply body, or the error axios rejects with. */
  datatype Outcome = Received(payload: Json) | Failed(err: Caught)

  /** What the try block throws, if anything: the transport error or the rejection of the reply. */
  function Thrown(o: Outcome): (t: Option<Caught>)
    ensures t.None? <==> o.Received? && Accept(o.payload).Accepted?
    ensures o.Failed? ==> t == Some(o.err)
    ensures o.Received? && Accept(o.payload).Rejected? ==> t == Some(Caught(None, None, None, Some(Accept(o.payload).reason)))
  {
    match o
    case Failed(e) => Some(e)
    case Received(p) =>
      match Accept(p)
      case Accepted(_) => None
      case Rejected(reason) => Some(Caught(None, None, None, Some(reason)))
  }

  /** A timeout wins over whatever status, detail or message the error also carries. */
  lemma TimeoutFirst(e: Caught, status: Option<int>, detail: Option<string>, message: Option<string>)
    requires e.code == Some(TimeoutCode)
    ensures FailureMessage(e.(status := status, detail := detail, message := message)) == FailureMessage(e)
    ensures FailureMessage(e) == FailurePrefix + TooLong + Paw
  {
  }

  /** A reply that fails the checks is reported with the text the check throws. */
  lemma {:induction false} RejectedReplyMessage(p: Json)
    requires Accept(p).Rejected?
    ensures Thrown(Received(p)).Some?
    ensures FailureMessage(Thrown(Received(p)).value) == FailurePrefix + Accept(p).reason + Paw
  {
  }

  /** A server error carrying a detail shows that detail, unless its status is 413 or 415. */
  lemma DetailShown(status: int, detail: string, message: Option<string>)
    requires status != 413 && status != 415 && detail != ""
    ensures FailureMessage(Caught(None, Some(status), Some(detail), message)) == FailurePrefix + detail + Paw
  {
  }

  // ---------------------------------------------------------------------
  // Helpers of the result panels
  // ---------------------------------------------------------------------

  datatype BreedInfo = BreedInfo(personality: seq<string>, tips: seq<string>, characteristics: seq<string>)

  const DefaultInfo := BreedInfo(
    ["Friendly and sociable", "Loyal to their family", "Good with children"],
    ["Regular exercise is important", "Consistent training works best", "Socialize early and often"],
    ["Adaptable to different environments", "Moderate grooming needs", "Good for first-time owners"])

  /** The page's breed table: only the default entry. */
  const BreedInfoTable: map<string, BreedInfo> := map["default" := DefaultInfo]

  /** `table[breed.toLowerCase()] || table.default`. */
  function BreedInfoIn(table: map<string, BreedInfo>, breed: string): (info: BreedInfo)
    requires "default" in table
    ensures Lower(breed) in table ==> info == table[Lower(breed)]
    ensures Lower(breed) !in table ==> info == table["default"]
  {
    if Lower(breed) in table then table[Lower(breed)] else table["default"]
  }

  /** `getBreedInfo`: with the table the page ships, every breed gets the default entry. */
  function GetBreedInfo(breed: string): (info: BreedInfo)
    ensures info == DefaultInfo
  {
    BreedInfoIn(BreedInfoTable, breed)
  }

  /** `r.breed` of a result; the empty string for an element without one, as `join` renders `undefined`. */
  function BreedOf(r: Json): string
  {
    match Field(r, "breed")
    case Some(JStr(s)) => s
    case _ => ""
  }

  function Breeds(results: seq<Json>): (names: seq<string>)
    ensures |names| == |results|
    ensures forall i :: 0 <= i < |results| ==> names[i] == BreedOf(results[i])
  {
    if results == [] then [] else [BreedOf(results[0])] + Breeds(results[1..])
  }

  /** `results.slice(0, 3).map(r => r.breed).join(", ")`. */
  function TopBreedNames(results: seq<Json>): (s: string)
    ensures |results| == 0 ==> s == ""
    ensures |results| == 1 ==> s == BreedOf(results[0])
    ensures |results| == 2 ==> s == BreedOf(results[0]) + ", " + BreedOf(results[1])
    ensures |results| >= 3 ==> s == BreedOf(results[0]) + ", " + BreedOf(results[1]) + ", " + BreedOf(results[2])
  {
    var top := Breeds(results[..if |results| < 3 then |results| else 3]);
    assert |top| == 2 ==> Join(top[1..], ", ") == top[1] by {
      if |top| == 2 { assert top[1..] == [top[1]]; }
    }
    assert |top| == 3 ==> Join(top[1..], ", ") == top[1] + ", " + top[2] by {
      if |top| == 3 {
        assert top[1..][0] == top[1];
        assert top[1..][1..] == [top[2]];
      }
    }
    Join(top, ", ")
  }

  // ---------------------------------------------------------------------
  // The page's state
  // ---------------------------------------------------------------------

  /** The request `handleSubmit` sends: one multipart field holding the file. */
  datatype Request = Request(path: string, field: string, file: FileRef)

  class HomePage {
    var file: Option<FileRef>
    var preview: Option<string>
    var loading: bool
    var results: seq<Json>
    var error: Option<string>
    var showUpload: bool
    var showDeepAnalysis: bool
    var showRetry: bool

    /** Only replies that passed the checks are ever stored. */
    ghost predicate Valid()
      reads this
    {
      forall i :: 0 <= i < |results| ==> IsBreedResult(results[i])
    }

    constructor ()
      ensures Valid()
      ensures file == None && preview == None && !loading && results == [] && error == None
      ensures showUpload && !showDeepAnalysis && !showRetry
    {
      file, preview, loading, results, error := None, None, false, [], None;
      showUpload, showDeepAnalysis, showRetry := true, false, false;
    }

    /** `handleFile`: only the media type is checked; the size is not. */
    method HandleFile(f: FileRef)
      requires Valid()
      modifies this
      ensures Valid()
      ensures preview == old(preview) && loading == old(loading) && showRetry == old(showRetry)
      ensures !StartsWith(f.mediaType, ImagePrefix) ==>
        error == Some(NotAnImage) && file == old(file) && results == old(results)
        && showUpload == old(showUpload) && showDeepAnalysis == old(showDeepAnalysis)
      ensures StartsWith(f.mediaType, ImagePrefix) ==>
        file == Some(f) && error == None && results == [] && !showDeepAnalysis && !showUpload
    {
      if !StartsWith(f.mediaType, ImagePrefix) {
        error := Some(NotAnImage);
        return;
      }
      file := Some(f);
      error := None;
      results := [];
      showDeepAnalysis := false;
      showUpload := false;
    }

    /** The FileReader callback of `handleFile`, which may fire at any later time. */
    method PreviewLoaded(dataUrl: string)
      modifies this
      ensures preview == Some(dataUrl)
      ensures file == old(file) && loading == old(loading) && results == old(results) && error == old(error)
      ensures showUpload == old(showUpload) && showDeepAnalysis == old(showDeepAnalysis) && showRetry == old(showRetry)
    {
      preview := Some(dataUrl);
    }

    /** The synchronous part of `handleSubmit`, up to the POST it issues. */
    method BeginSubmit() returns (sent: Option<Request>)
      modifies this
      ensures old(file).None? ==> sent.None? && loading == old(loading) && error == old(error) && showRetry == old(showRetry)
      ensures old(file).Some? ==>
        sent == Some(Request(ClassifyPath, UploadField, old(file).value)) && loading && error.None? && !showRetry
      ensures file == old(file) && preview == old(preview) && results == old(results)
      ensures showUpload == old(showUpload) && showDeepAnalysis == old(showDeepAnalysis)
    {
      if file.None? {
        return None;
      }
      loading := true;
      error := None;
      showRetry := false;
      sent := Some(Request(ClassifyPath, UploadField, file.value));
    }

    /**
      The rest of `handleSubmit`, once the POST settles. Nothing ties the reply
      to the file now held: a reply always lands.
     */
    method CompleteSubmit(o: Outcome)
      requires Valid()
      modifies this
      ensures Valid()
      ensures !loading
      ensures Thrown(o).None? ==>
        results == o.payload.fields["results"].items && error == old(error) && showRetry == old(showRetry)
      ensures Thrown(o).Some? ==>
        results == old(results) && error == Some(FailureMessage(Thrown(o).value)) && showRetry
      ensures file == old(file) && preview == old(preview)
      ensures showUpload == old(showUpload) && showDeepAnalysis == old(showDeepAnalysis)
    {
      var thrown := Thrown(o);
      if thrown.None? {
        results := Accept(o.payload).items;
      } else {
        error := Some(FailureMessage(thrown.value));
        showRetry := true;
      }
      loading := false;
    }

    /** `handleRetry` is `handleSubmit` with no further condition. */
    method HandleRetry() returns (sent: Option<Request>)
      modifies this
      ensures old(file).None? ==> sent.None? && loading == old(loading) && error == old(error) && showRetry == old(showRetry)
      ensures old(file).Some? ==>
        sent == Some(Request(ClassifyPath, UploadField, old(file).value)) && loading && error.None? && !showRetry
      ensures file == old(file) && preview == old(preview) && results == old(results)
      ensures showUpload == old(showUpload) && showDeepAnalysis == old(showDeepAnalysis)
    {
      sent := BeginSubmit();
    }

    /** `resetUpload`: neither `loading` nor `showRetry` is touched. */
    method ResetUpload()
      modifies this
      ensures Valid()
      ensures file == None && preview == None && results == [] && error == None
      ensures showUpload && !showDeepAnalysis
      ensures loading == old(loading) && showRetry == old(showRetry)
    {
      file := None;
      preview := None;
      results := [];
      error := None;
      showUpload := true;
      showDeepAnalysis := false;
    }
  }

  /** A selection, a submission and an accepted reply, as a caller sees them. */
  method SubmitScenario(page: HomePage, f: FileRef, p: Json)
    requires page.Valid()
    requires f.mediaType == "image/jpeg"
    requires Accept(p).Accepted?
    modifies page
  {
    page.HandleFile(f);
    var sent := page.BeginSubmit();
    assert sent == Some(Request("/api/classify", "file", f));
    page.CompleteSubmit(Received(p));
    assert page.results == p.fields["results"].items;
    assert |page.results| > 0 && page.error == None && !page.loading;
  }
}
