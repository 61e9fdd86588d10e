/**
  The breed-mix calculator page: an ordered selection of breeds with one
  percentage per selected breed, two checks before the mix is requested, and
  the request it sends.
 */
module BreedMix {
  import opened Shared

  const TooFewBreeds := "Please select at least 2 breeds"
  const BadTotal := "Percentages must add up to 100%"
  const MixFailed := "Failed to calculate breed mix"
  /** How far the percentages may be from 100 in total. */
  const Tolerance := 0.01

  /** One breed of the request, `{name, percentage}`. */
  datatype MixEntry = MixEntry(name: string, percentage: real)

  /** The calculated mix the server returns. */
  datatype MixResult = MixResult(
    breeds: seq<MixEntry>, characteristics: seq<string>, temperament: seq<string>,
    health: seq<string>, care: seq<string>)

  /** The outcome of the request: the mix, or what was thrown (None when it is not an Error). */
  datatype MixOutcome = Computed(result: MixResult) | Thrown(message: Option<string>)

  /**
    The sum of the percentages of the listed breeds. With every slider in its
    range 0..100 the total lies between 0 and 100 times the number of breeds.
   */
  function TotalPercentage(breeds: seq<string>, percentages: map<string, real>): (total: real)
    requires forall b :: b in breeds ==> b in percentages
    ensures (forall b :: b in breeds ==> 0.0 <= percentages[b] <= 100.0) ==>
      0.0 <= total <= 100.0 * |breeds| as real
  {
    if breeds == [] then 0.0 else percentages[breeds[0]] + TotalPercentage(breeds[1..], percentages)
  }

  /** `Math.abs(total - 100) > 0.01`: the total lies outside [99.99, 100.01]. */
  function OffTarget(total: real): (off: bool)
    ensures off <==> total < 100.0 - Tolerance || total > 100.0 + Tolerance
  {
    (if total >= 100.0 then total - 100.0 else 100.0 - total) > Tolerance
  }

  /** The total only reads the percentages of the listed breeds. */
  lemma {:induction false} TotalAgrees(breeds: seq<string>, p: map<string, real>, q: map<string, real>)
    requires forall b :: b in breeds ==> b in p && b in q && p[b] == q[b]
    ensures TotalPercentage(breeds, p) == TotalPercentage(breeds, q)
  {
    if breeds != [] {
      TotalAgrees(breeds[1..], p, q);
    }
  }

  /** Appending a breed with percentage v adds v to the total. */
  lemma {:induction false} TotalAppend(breeds: seq<string>, percentages: map<string, real>, b: string, v: real)
    requires forall x :: x in breeds ==> x in percentages
    requires b !in breeds
    ensures TotalPercentage(breeds + [b], percentages[b := v]) == TotalPercentage(breeds, percentages) + v
  {
    if breeds == [] {
      assert ([] + [b])[1..] == [];
    } else {
      assert (breeds + [b])[1..] == breeds[1..] + [b];
      TotalAppend(breeds[1..], percentages, b, v);
    }
  }

  /** Deselecting a breed subtracts its percentage from the total. */
  lemma {:induction false} TotalWithout(breeds: seq<string>, percentages: map<string, real>, b: string)
    requires forall x :: x in breeds ==> x in percentages
    requires NoDuplicates(breeds) && b in breeds
    ensures TotalPercentage(Without(breeds, b), percentages - {b})
         == TotalPercentage(breeds, percentages) - percentages[b]
  {
    var rest := breeds[1..];
    assert NoDuplicates(rest);
    if breeds[0] == b {
      assert b !in rest;
      TotalAgrees(rest, percentages - {b}, percentages);
    } else {
      assert b in rest;
      TotalWithout(rest, percentages, b);
    }
  }

  /** Moving the slider of a selected breed from its old value to v changes the total by the difference. */
  lemma {:induction false} TotalUpdate(breeds: seq<string>, percentages: map<string, real>, b: string, v: real)
    requires forall x :: x in breeds ==> x in percentages
    requires NoDuplicates(breeds) && b in breeds
    ensures TotalPercentage(breeds, percentages[b := v]) == TotalPercentage(breeds, percentages) - percentages[b] + v
  {
    var rest := breeds[1..];
    assert NoDuplicates(rest);
    if breeds[0] == b {
      assert b !in rest;
      TotalAgrees(rest, percentages[b := v], percentages);
    } else {
      assert b in rest;
      TotalUpdate(rest, percentages, b, v);
    }
  }

  /**
    With fewer than 9999 breeds, selecting one more breed after the percentages
    add up to exactly 100 pushes the total off target: its default share
    100 / (n + 1) is larger than the tolerance.
   */
  lemma {:induction false} DefaultShareBreaksTotal(breeds: seq<string>, percentages: map<string, real>, b: string)
    requires forall x :: x in breeds ==> x in percentages
    requires b !in breeds && |breeds| < 9999
    requires TotalPercentage(breeds, percentages) == 100.0
    ensures OffTarget(TotalPercentage(breeds + [b], percentages[b := 100.0 / (|breeds| + 1) as real]))
  {
    var share := 100.0 / (|breeds| + 1) as real;
    TotalAppend(breeds, percentages, b, share);
    assert share * (|breeds| + 1) as real == 100.0;
    assert share > Tolerance;
  }

  /** The request payload: the breeds in selection order, each with its percentage. */
  function Payload(breeds: seq<string>, percentages: map<string, real>): (p: seq<MixEntry>)
    requires forall b :: b in breeds ==> b in percentages
    ensures |p| == |breeds|
    ensures forall i :: 0 <= i < |breeds| ==> p[i] == MixEntry(breeds[i], percentages[breeds[i]])
  {
    if breeds == [] then [] else [MixEntry(breeds[0], percentages[breeds[0]])] + Payload(breeds[1..], percentages)
  }

  /** A percentage stored for a breed outside the list does not reach the payload. */
  lemma {:induction false} PayloadIgnoresOthers(breeds: seq<string>, percentages: map<string, real>, b: string, v: real)
    requires forall x :: x in breeds ==> x in percentages
    requires b !in breeds
    ensures Payload(breeds, percentages[b := v]) == Payload(breeds, percentages)
  {
    if breeds != [] {
      PayloadIgnoresOthers(breeds[1..], percentages, b, v);
    }
  }

  class BreedMixCalculator {
    var selectedBreeds: seq<string>
    var percentages: map<string, real>
    var mixResult: Option<MixResult>
    var loading: bool
    var error: Option<string>

    /** No breed is selected twice, and exactly the selected breeds have a percentage. */
    ghost predicate Valid()
      reads this
    {
      NoDuplicates(selectedBreeds) && percentages.Keys == set b | b in selectedBreeds
    }

    constructor ()
      ensures Valid()
      ensures selectedBreeds == [] && percentages == map[] && mixResult == None && !loading && error == None
    {
      selectedBreeds, percentages, mixResult, loading, error := [], map[], None, false, None;
    }

    /**
      `handleBreedSelect`: a selected breed is taken out of the list and its
      percentage dropped; an unselected one is appended with 100 / (n + 1),
      n being the number selected before.
     */
    method HandleBreedSelect(breed: string)
      requires Valid()
      modifies this
      ensures Valid()
      ensures mixResult == old(mixResult) && loading == old(loading) && error == old(error)
      ensures breed in old(selectedBreeds) ==>
        (forall k :: 0 <= k < |old(selectedBreeds)| && old(selectedBreeds)[k] == breed ==>
           selectedBreeds == old(selectedBreeds)[..k] + old(selectedBreeds)[k + 1..])
        && percentages == old(percentages) - {breed}
      ensures breed !in old(selectedBreeds) ==>
        selectedBreeds == old(selectedBreeds) + [breed]
        && percentages == old(percentages)[breed := 100.0 / (|old(selectedBreeds)| + 1) as real]
    {
      if breed in selectedBreeds {
        forall k | 0 <= k < |selectedBreeds| && selectedBreeds[k] == breed
          ensures Without(selectedBreeds, breed) == selectedBreeds[..k] + selectedBreeds[k + 1..]
        {
          WithoutAt(selectedBreeds, k);
        }
        WithoutNoDuplicates(selectedBreeds, breed);
        var share := percentages - {breed};
        selectedBreeds := Without(selectedBreeds, breed);
        percentages := share;
      } else {
        var share := percentages[breed := 100.0 / (|selectedBreeds| + 1) as real];
        selectedBreeds := selectedBreeds + [breed];
        percentages := share;
      }
    }

    /** `handlePercentageChange`: one key set; the invariant holds when that key is a selected breed, as the sliders ensure. */
    method HandlePercentageChange(breed: string, value: real)
      requires Valid()
      modifies this
      ensures percentages == old(percentages)[breed := value]
      ensures selectedBreeds == old(selectedBreeds) && mixResult == old(mixResult)
      ensures loading == old(loading) && error == old(error)
      ensures breed in selectedBreeds ==> Valid()
    {
      percentages := percentages[breed := value];
    }

    /**
      The synchronous part of `calculateMix`: fewer than two breeds is checked
      before the total; either failure sets the error and sends nothing.
     */
    method BeginCalculate() returns (sent: Option<seq<MixEntry>>)
      requires Valid()
      modifies this
      ensures Valid()
      ensures selectedBreeds == old(selectedBreeds) && percentages == old(percentages) && mixResult == old(mixResult)
      ensures |selectedBreeds| < 2 ==> sent.None? && error == Some(TooFewBreeds) && loading == old(loading)
      ensures |selectedBreeds| >= 2 && OffTarget(TotalPercentage(selectedBreeds, percentages)) ==>
        sent.None? && error == Some(BadTotal) && loading == old(loading)
      ensures |selectedBreeds| >= 2 && !OffTarget(TotalPercentage(selectedBreeds, percentages)) ==>
        sent == Some(Payload(selectedBreeds, percentages)) && error.None? && loading
    {
      if |selectedBreeds| < 2 {
        error := Some(TooFewBreeds);
        return None;
      }
      var total := TotalPercentage(selectedBreeds, percentages);
      if OffTarget(total) {
        error := Some(BadTotal);
        return None;
      }
      loading := true;
      error := None;
      sent := Some(Payload(selectedBreeds, percentages));
    }

    /** The rest of `calculateMix`, once the request settles. */
    method CompleteCalculate(outcome: MixOutcome)
      requires Valid()
      modifies this
      ensures Valid()
      ensures !loading
      ensures selectedBreeds == old(selectedBreeds) && percentages == old(percentages)
      ensures outcome.Computed? ==> mixResult == Some(outcome.result) && error == old(error)
      ensures outcome.Thrown? ==>
        mixResult == old(mixResult) && error == Some(if outcome.message.Some? then outcome.message.value else MixFailed)
    {
      loading := false;
      match outcome
      case Computed(result) =>
        mixResult := Some(result);
      case Thrown(message) =>
        error := Some(if message.Some? then message.value else MixFailed);
    }

    /** `resetCalculator`. */
    method ResetCalculator()
      modifies this
      ensures Valid()
      ensures selectedBreeds == [] && percentages == map[] && mixResult == None && error == None
      ensures loading == old(loading)
    {
      selectedBreeds := [];
      percentages := map[];
      mixResult := None;
      error := None;
    }
  }

  /** Two breeds picked from an empty calculator get 100 and 50, so the mix is refused until a slider moves. */
  method DefaultSharesScenario(page: BreedMixCalculator)
    requires page.Valid() && page.selectedBreeds == []
    modifies page
  {
    page.HandleBreedSelect("Labrador Retriever");
    page.HandleBreedSelect("German Shepherd");
    assert page.selectedBreeds == ["Labrador Retriever", "German Shepherd"];
    var pct := page.percentages;
    assert pct["Labrador Retriever"] == 100.0 && pct["German Shepherd"] == 50.0;
    assert TotalPercentage(["German Shepherd"], pct) == 50.0 + TotalPercentage([], pct);
    assert TotalPercentage(page.selectedBreeds, pct) == 150.0;
    var sent := page.BeginCalculate();
    assert sent.None? && page.error == Some(BadTotal);
  }
}
