/**
  The classification round trip: the page posts the file, the back end
  answers, axios resolves on a 2xx status and rejects otherwise, and the page
  either accepts the results or shows its failure message.
 */
module EndToEnd {
  import opened Shared
  import Home
  import Predictions
  import Text

  /** `err.response.data.detail` when the body is an object with a string `detail`. */
  function DetailOf(body: Json): Option<string>
  {
    match Field(body, "detail")
    case Some(JStr(s)) => Some(s)
    case _ => None
  }

  /**
    What the page's `await axios.post(...)` yields for a reply: the body on a
    2xx status, otherwise an error carrying the status, the detail and the
    transport's own message.
   */
  function Delivered(reply: Predictions.HttpReply, transportMessage: string): (o: Home.Outcome)
    ensures 200 <= reply.status < 300 ==> o == Home.Received(reply.body)
    ensures !(200 <= reply.status < 300) ==>
      o == Home.Failed(Home.Caught(None, Some(reply.status), DetailOf(reply.body), Some(transportMessage)))
  {
    if 200 <= reply.status < 300 then Home.Received(reply.body)
    else Home.Failed(Home.Caught(None, Some(reply.status), DetailOf(reply.body), Some(transportMessage)))
  }

  /** Every non-empty list of predictions the back end sends passes all three checks of the page. */
  lemma {:induction false} ResultsAccepted(results: seq<BreedScore>)
    requires results != []
    ensures Home.Accept(Predictions.ResultsBody(results)) == Home.Accepted(Predictions.ScoresToJson(results))
    ensures forall k :: 0 <= k < |results| ==> Home.BreedOf(Predictions.ScoresToJson(results)[k]) == results[k].breed
  {
    var items := Predictions.ScoresToJson(results);
    assert Home.ResultsArray(Predictions.ResultsBody(results)) == Some(items);
    forall i | 0 <= i < |items| ensures Home.IsBreedResult(items[i]) {
      assert items[i] == ScoreToJson(results[i]);
    }
  }

  /** A detail sent with an error status other than 413 or 415 is what the page shows, between its prefix and the paw. */
  lemma ErrorDetailShown(status: int, detail: string, transportMessage: string)
    requires !(200 <= status < 300) && status != 413 && status != 415 && detail != ""
    ensures Home.Thrown(Delivered(Predictions.HttpReply(status, Predictions.DetailBody(detail)), transportMessage))
         == Some(Home.Caught(None, Some(status), Some(detail), Some(transportMessage)))
    ensures Home.FailureMessage(Home.Thrown(Delivered(Predictions.HttpReply(status, Predictions.DetailBody(detail)), transportMessage)).value)
         == Home.FailurePrefix + detail + Home.Paw
  {
    assert DetailOf(Predictions.DetailBody(detail)) == Some(detail);
    Home.DetailShown(status, detail, Some(transportMessage));
  }

  /**
    An empty detail is falsy, so with an error status other than 413 or 415
    the page falls back to the transport's message, then to "Try again! ".
   */
  lemma EmptyDetailFallsBack(status: int, transportMessage: string)
    requires !(200 <= status < 300) && status != 413 && status != 415
    ensures Home.Thrown(Delivered(Predictions.HttpReply(status, Predictions.DetailBody("")), transportMessage))
         == Some(Home.Caught(None, Some(status), Some(""), Some(transportMessage)))
    ensures Home.FailureMessage(Home.Thrown(Delivered(Predictions.HttpReply(status, Predictions.DetailBody("")), transportMessage)).value)
         == Home.FailurePrefix + (if transportMessage != "" then transportMessage else Home.TryAgain) + Home.Paw
  {
    assert DetailOf(Predictions.DetailBody("")) == Some("");
  }

  /**
    One upload through the back end and back to the page. The page shows the
    ranked predictions when there are any; otherwise it shows the back end's
    detail, including the status-prefixed text of the no-dog case.
   */
  method Classify(contentType: string, inference: Predictions.Inference, classNames: seq<string>, transportMessage: string)
    returns (outcome: Home.Outcome)
    requires |classNames| > Predictions.LastDogClass
    requires inference.Inferred? ==> |inference.probs| > Predictions.LastDogClass
    ensures !Text.StartsWith(contentType, Predictions.ImagePrefix) ==>
      Home.Thrown(outcome).Some?
      && Home.FailureMessage(Home.Thrown(outcome).value) == Home.FailurePrefix + Predictions.NotAnImageDetail + Home.Paw
    ensures Text.StartsWith(contentType, Predictions.ImagePrefix) && inference.Raised? && inference.text != "" ==>
      Home.Thrown(outcome).Some?
      && Home.FailureMessage(Home.Thrown(outcome).value) == Home.FailurePrefix + inference.text + Home.Paw
    ensures Text.StartsWith(contentType, Predictions.ImagePrefix) && inference.Raised? && inference.text == "" ==>
      Home.Thrown(outcome).Some?
      && Home.FailureMessage(Home.Thrown(outcome).value)
         == Home.FailurePrefix + (if transportMessage != "" then transportMessage else Home.TryAgain) + Home.Paw
    ensures Text.StartsWith(contentType, Predictions.ImagePrefix) && inference.Inferred? ==>
      var results := Predictions.Predictions(inference.probs, classNames);
      if results == [] then
        Home.Thrown(outcome).Some?
        && Home.FailureMessage(Home.Thrown(outcome).value) == Home.FailurePrefix + Predictions.NoDogText + Home.Paw
      else
        Home.Thrown(outcome).None? && Home.Accept(outcome.payload) == Home.Accepted(Predictions.ScoresToJson(results))
  {
    var reply := Predictions.ClassifyImage(contentType, inference, classNames);
    outcome := Delivered(reply, transportMessage);
    if !Text.StartsWith(contentType, Predictions.ImagePrefix) {
      ErrorDetailShown(400, Predictions.NotAnImageDetail, transportMessage);
    } else if inference.Raised? {
      if inference.text != "" {
        ErrorDetailShown(500, inference.text, transportMessage);
      } else {
        EmptyDetailFallsBack(500, transportMessage);
      }
    } else {
      var results := Predictions.Predictions(inference.probs, classNames);
      if results == [] {
        ErrorDetailShown(500, Predictions.NoDogText, transportMessage);
      } else {
        ResultsAccepted(results);
      }
    }
  }
}
