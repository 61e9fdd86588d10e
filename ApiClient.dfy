/**
  The shared API client of the front end: the response interceptor that turns
  every axios error into an Error with one of three kinds of message, and the
  requests the service functions build. The transport itself is a parameter.
 */
module ApiClient {
  import opened Shared
  import opened Text

  // ---------------------------------------------------------------------
  // Error normalisation
  // ---------------------------------------------------------------------

  /** The server's reply to a failed request: its status and `data.detail`. */
  datatype ErrorResponse = ErrorResponse(status: int, detail: Option<string>)

  /** An axios error: `error.response`, whether `error.request` is set, and `error.message`. */
  datatype AxiosError = AxiosError(response: Option<ErrorResponse>, hasRequest: bool, message: string)

  const ServerFallback := "An error occurred"
  const NoResponse := "Network error - no response received"
  const SetupFailed := "Error setting up request"

  /** The message of the Error the interceptor rejects with. */
  function Normalize(e: AxiosError): (msg: string)
    ensures e.response.Some? ==>
      msg == (if e.response.value.detail.Some? && e.response.value.detail.value != ""
              then e.response.value.detail.value else ServerFallback)
    ensures e.response.None? && e.hasRequest ==> msg == NoResponse
    ensures e.response.None? && !e.hasRequest ==> msg == SetupFailed
  {
    if e.response.Some? then
      var d := e.response.value.detail;
      if d.Some? && d.value != "" then d.value else ServerFallback
    else if e.hasRequest then NoResponse
    else SetupFailed
  }

  /**
    The response branch is checked first: once the server replied, whether a
    request object is also present and what the transport's own message says
    do not matter.
   */
  lemma ResponseBranchFirst(e: AxiosError, hasRequest: bool, message: string)
    requires e.response.Some?
    ensures Normalize(e.(hasRequest := hasRequest, message := message)) == Normalize(e)
  {
  }

  /** The three branches can be told apart unless the server's own detail repeats a fixed text. */
  lemma BranchesDistinct(e: AxiosError)
    requires e.response.None? || e.response.value.detail.None?
    ensures (Normalize(e) == ServerFallback) <==> e.response.Some?
    ensures (Normalize(e) == NoResponse) <==> e.response.None? && e.hasRequest
    ensures (Normalize(e) == SetupFailed) <==> e.response.None? && !e.hasRequest
  {
  }

  /** An error without response or request, such as a plain `new Error('API Error')`, loses its own message. */
  lemma PlainErrorMessage()
    ensures Normalize(AxiosError(None, false, "API Error")) == SetupFailed
  {
  }

  // ---------------------------------------------------------------------
  // Requests
  // ---------------------------------------------------------------------

  datatype Verb = Get | Post

  datatype Body =
    | NoBody
    | Multipart(parts: seq<(string, FileRef)>)
    | JsonBody(value: Json)

  datatype ApiRequest = ApiRequest(verb: Verb, path: string, body: Body)

  /** What the transport yields for one request: the reply's `data`, or an axios error. */
  datatype Exchange = Replied(data: Json) | Errored(err: AxiosError)

  /** What a service function resolves with, or the message it rejects with. */
  datatype Reply = Resolved(data: Json) | RejectedWith(message: string)

  const ClassifyPath := "/classify"
  const AnalyzePrefix := "/analyze/"
  const ComparePrefix := "/compare/"
  const MixPath := "/mix"

  /** One request through the interceptor: data passes unchanged, errors are normalised. */
  function Call(req: ApiRequest, send: ApiRequest -> Exchange): (r: Reply)
    ensures send(req).Replied? ==> r == Resolved(send(req).data)
    ensures send(req).Errored? ==> r == RejectedWith(Normalize(send(req).err))
  {
    match send(req)
    case Replied(data) => Resolved(data)
    case Errored(e) => RejectedWith(Normalize(e))
  }

  function ClassifyRequest(file: FileRef): ApiRequest
  {
    ApiRequest(Post, ClassifyPath, Multipart([("file", file)]))
  }

  /** `classifyImage`: one POST with the single field "file"; the reply's data comes back unvalidated. */
  function ClassifyImage(file: FileRef, send: ApiRequest -> Exchange): (r: Reply)
    ensures send(ClassifyRequest(file)).Replied? ==> r == Resolved(send(ClassifyRequest(file)).data)
    ensures send(ClassifyRequest(file)).Errored? ==> r.RejectedWith?
  {
    Call(ClassifyRequest(file), send)
  }

  /** `/analyze/{breed}`, by plain concatenation. */
  function AnalyzePath(breed: string): (p: string)
    ensures StartsWith(p, AnalyzePrefix)
    ensures p[|AnalyzePrefix|..] == breed
  {
    AnalyzePrefix + breed
  }

  /** `/compare/{breed1}/{breed2}`, by plain concatenation. */
  function ComparePath(breed1: string, breed2: string): (p: string)
    ensures StartsWith(p, ComparePrefix)
    ensures p[|ComparePrefix|..] == breed1 + "/" + breed2
  {
    ComparePrefix + breed1 + "/" + breed2
  }

  function AnalyzeRequest(breed: string): ApiRequest
  {
    ApiRequest(Get, AnalyzePath(breed), NoBody)
  }

  function CompareRequest(breed1: string, breed2: string): ApiRequest
  {
    ApiRequest(Get, ComparePath(breed1, breed2), NoBody)
  }

  /** `getBreedAnalysis`. */
  function GetBreedAnalysis(breed: string, send: ApiRequest -> Exchange): (r: Reply)
    ensures send(AnalyzeRequest(breed)).Replied? ==> r == Resolved(send(AnalyzeRequest(breed)).data)
    ensures send(AnalyzeRequest(breed)).Errored? ==> r.RejectedWith?
  {
    Call(AnalyzeRequest(breed), send)
  }

  /** `compareBreeds`. */
  function CompareBreeds(breed1: string, breed2: string, send: ApiRequest -> Exchange): (r: Reply)
    ensures send(CompareRequest(breed1, breed2)).Replied? ==> r == Resolved(send(CompareRequest(breed1, breed2)).data)
    ensures send(CompareRequest(breed1, breed2)).Errored? ==> r.RejectedWith?
  {
    Call(CompareRequest(breed1, breed2), send)
  }

  /** `calculateBreedMix`: a POST whose `breeds` field reads back as the names and percentages, in order. */
  function MixRequest(breeds: seq<(string, real)>): (r: ApiRequest)
    ensures r.verb == Post && r.path == MixPath && r.body.JsonBody?
    ensures Field(r.body.value, "breeds").Some? && Field(r.body.value, "breeds").value.JArr?
    ensures var items := Field(r.body.value, "breeds").value.items;
      |items| == |breeds|
      && forall i :: 0 <= i < |breeds| ==>
           Field(items[i], "name") == Some(JStr(breeds[i].0)) && Field(items[i], "percentage") == Some(JNum(breeds[i].1))
  {
    ApiRequest(Post, MixPath, JsonBody(JObj(map["breeds" := JArr(MixEntries(breeds))])))
  }

  function MixEntries(breeds: seq<(string, real)>): (r: seq<Json>)
    ensures |r| == |breeds|
    ensures forall i :: 0 <= i < |breeds| ==>
      r[i] == JObj(map["name" := JStr(breeds[i].0), "percentage" := JNum(breeds[i].1)])
  {
    if breeds == [] then []
    else [JObj(map["name" := JStr(breeds[0].0), "percentage" := JNum(breeds[0].1)])] + MixEntries(breeds[1..])
  }

  // ---------------------------------------------------------------------
  // Reading the paths back
  // ---------------------------------------------------------------------

  /** The text before the first '/', and what follows that '/', if there is one. */
  function SplitAtSlash(s: string): Option<(string, string)>
  {
    if s == [] then None
    else if s[0] == '/' then Some(([], s[1..]))
    else match SplitAtSlash(s[1..])
      case None => None
      case Some(parts) => Some(([s[0]] + parts.0, parts.1))
  }

  lemma {:induction false} SplitAtSlashOf(a: string, b: string)
    requires '/' !in a
    ensures SplitAtSlash(a + "/" + b) == Some((a, b))
  {
    if a != [] {
      assert (a + "/" + b)[1..] == a[1..] + "/" + b;
      SplitAtSlashOf(a[1..], b);
      assert [a[0]] + a[1..] == a;
    } else {
      assert a + "/" + b == "/" + b;
    }
  }

  /** A hypothetical parser of an analysis path: the breed, if the prefix is there. */
  function ParseAnalyzePath(p: string): Option<string>
  {
    if StartsWith(p, AnalyzePrefix) then Some(p[|AnalyzePrefix|..]) else None
  }

  /** A hypothetical parser of a comparison path: split at the first '/' after the prefix. */
  function ParseComparePath(p: string): Option<(string, string)>
  {
    if StartsWith(p, ComparePrefix) then SplitAtSlash(p[|ComparePrefix|..]) else None
  }

  lemma AnalyzePathRoundTrip(breed: string)
    ensures ParseAnalyzePath(AnalyzePath(breed)) == Some(breed)
  {
  }

  /** Without encoding, the pair is recovered only when the first breed contains no '/'. */
  lemma ComparePathRoundTrip(breed1: string, breed2: string)
    requires '/' !in breed1
    ensures ParseComparePath(ComparePath(breed1, breed2)) == Some((breed1, breed2))
  {
    SplitAtSlashOf(breed1, breed2);
  }

  /** Two different pairs of breeds that produce the same comparison path. */
  lemma ComparePathNotInjective()
    ensures ComparePath("a/b", "c") == ComparePath("a", "b/c")
    ensures ("a/b", "c") != ("a", "b/c")
  {
  }
}
