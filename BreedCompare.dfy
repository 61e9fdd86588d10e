/**
  The breed-comparison page: a selection of at most two breeds, a simulated
  comparison produced after a delay from the pair selected when the button
  was pressed, and the message shown for its compatibility score. The random
  number behind the score is a parameter.
 */
module BreedCompare {
  import opened Shared

  /** The comparison shown on the page. */
  datatype Comparison = Comparison(
    breed1: string, breed2: string, similarities: seq<string>, differences: seq<string>, compatibility: int)

  const MaxSelected := 2

  const Similarities := [
    "Both breeds are known for their intelligence",
    "Both require regular exercise",
    "Both are good with families"
  ]

  const Excellent := "Excellent compatibility! These breeds would make great companions."
  const Good := "Good compatibility! These breeds can work well together."
  const Moderate := "Moderate compatibility. Consider their individual needs carefully."

  /** The three templated differences, naming the first breed before the second. */
  function Differences(breed1: string, breed2: string): seq<string>
  {
    [breed1 + " is generally larger than " + breed2,
     breed1 + " requires more grooming than " + breed2,
     breed2 + " is more suitable for apartment living"]
  }

  /**
    The template is not symmetric: for two different breeds, the order in
    which they were selected decides the differences shown.
   */
  lemma DifferencesOrderMatters(breed1: string, breed2: string)
    requires breed1 != breed2
    ensures Differences(breed1, breed2) != Differences(breed2, breed1)
  {
    var tail := " is more suitable for apartment living";
    assert Differences(breed1, breed2)[2] == breed2 + tail;
    assert Differences(breed2, breed1)[2] == breed1 + tail;
    if |breed1| == |breed2| {
      var k :| 0 <= k < |breed1| && breed1[k] != breed2[k];
      assert (breed1 + tail)[k] != (breed2 + tail)[k];
    } else {
      assert |breed1 + tail| != |breed2 + tail|;
    }
  }

  /** `Math.floor(Math.random() * 100)` for a draw in [0, 1): a whole percentage from 0 to 99. */
  function Compatibility(draw: real): (c: int)
    requires 0.0 <= draw < 1.0
    ensures 0 <= c < 100
    ensures c as real <= draw * 100.0 < c as real + 1.0
  {
    (draw * 100.0).Floor
  }

  /** Every score from 0 to 99 is reached by some draw. */
  lemma CompatibilityOnto(c: int)
    requires 0 <= c < 100
    ensures Compatibility(c as real / 100.0) == c
  {
    assert c as real / 100.0 * 100.0 == c as real;
  }

  /** The sentence under the score: 80 and above, 60 to 79, and below 60. */
  function CompatibilityMessage(compatibility: int): (m: string)
    ensures m == Excellent <==> compatibility >= 80
    ensures m == Good <==> 60 <= compatibility < 80
    ensures m == Moderate <==> compatibility < 60
  {
    if compatibility >= 80 then Excellent
    else if compatibility >= 60 then Good
    else Moderate
  }

  /** The message never gets worse as the score grows. */
  lemma MessageMonotone(c: int, d: int)
    requires c <= d
    ensures CompatibilityMessage(c) == Excellent ==> CompatibilityMessage(d) == Excellent
    ensures CompatibilityMessage(c) == Good ==> CompatibilityMessage(d) != Moderate
  {
  }

  /** The angle of the score ring, `(compatibility / 100) * 360` degrees: under a full turn for any score. */
  function RingRotation(compatibility: int): (deg: real)
    requires 0 <= compatibility < 100
    ensures 0.0 <= deg < 360.0
    ensures deg * 100.0 == compatibility as real * 360.0
  {
    compatibility as real / 100.0 * 360.0
  }

  /** The comparison the timer builds from a captured pair and a draw. */
  function MockComparison(pair: (string, string), draw: real): (c: Comparison)
    requires 0.0 <= draw < 1.0
    ensures c.breed1 == pair.0 && c.breed2 == pair.1
    ensures c.similarities == Similarities
    ensures c.differences == Differences(pair.0, pair.1)
    ensures 0 <= c.compatibility < 100
  {
    Comparison(pair.0, pair.1, Similarities, Differences(pair.0, pair.1), Compatibility(draw))
  }

  class BreedComparison {
    var selectedBreeds: seq<string>
    var comparison: Option<Comparison>
    var loading: bool

    /** At most two breeds, none twice. */
    ghost predicate Valid()
      reads this
    {
      |selectedBreeds| <= MaxSelected && NoDuplicates(selectedBreeds)
    }

    constructor ()
      ensures Valid()
      ensures selectedBreeds == [] && comparison == None && !loading
    {
      selectedBreeds, comparison, loading := [], None, false;
    }

    /** `handleBreedSelect`: a selected breed is removed; another is added only while fewer than two are selected. */
    method HandleBreedSelect(breed: string)
      requires Valid()
      modifies this
      ensures Valid()
      ensures comparison == old(comparison) && loading == old(loading)
      ensures breed in old(selectedBreeds) ==> selectedBreeds == Without(old(selectedBreeds), breed)
      ensures breed !in old(selectedBreeds) && |old(selectedBreeds)| < MaxSelected ==>
        selectedBreeds == old(selectedBreeds) + [breed]
      ensures breed !in old(selectedBreeds) && |old(selectedBreeds)| >= MaxSelected ==>
        selectedBreeds == old(selectedBreeds)
    {
      if breed in selectedBreeds {
        WithoutNoDuplicates(selectedBreeds, breed);
        selectedBreeds := Without(selectedBreeds, breed);
      } else if |selectedBreeds| < MaxSelected {
        selectedBreeds := selectedBreeds + [breed];
      }
    }

    /**
      `compareBreeds`: nothing happens unless exactly two breeds are selected;
      otherwise loading starts and the timer is armed with the pair selected now,
      which is what the returned value carries.
     */
    method CompareBreeds() returns (armed: Option<(string, string)>)
      requires Valid()
      modifies this
      ensures Valid()
      ensures selectedBreeds == old(selectedBreeds) && comparison == old(comparison)
      ensures |selectedBreeds| != 2 ==> armed.None? && loading == old(loading)
      ensures |selectedBreeds| == 2 ==> armed == Some((selectedBreeds[0], selectedBreeds[1])) && loading
    {
      if |selectedBreeds| != 2 {
        return None;
      }
      loading := true;
      armed := Some((selectedBreeds[0], selectedBreeds[1]));
    }

    /** The timer fires: the comparison of the captured pair is shown, whatever is selected by then. */
    method ComparisonArrives(pair: (string, string), draw: real)
      requires 0.0 <= draw < 1.0
      requires Valid()
      modifies this
      ensures Valid()
      ensures selectedBreeds == old(selectedBreeds)
      ensures comparison == Some(MockComparison(pair, draw))
      ensures !loading
    {
      comparison := Some(MockComparison(pair, draw));
      loading := false;
    }

    /** `resetComparison`: selection and comparison cleared; a pending timer is not cancelled. */
    method ResetComparison()
      modifies this
      ensures Valid()
      ensures selectedBreeds == [] && comparison == None && loading == old(loading)
    {
      selectedBreeds := [];
      comparison := None;
    }
  }

  /** A reset while the timer is pending does not stop the comparison from appearing. */
  method ResetDuringDelayScenario(page: BreedComparison, draw: real)
    requires 0.0 <= draw < 1.0
    requires page.Valid() && page.selectedBreeds == []
    modifies page
  {
    page.HandleBreedSelect("Beagle");
    assert page.selectedBreeds == ["Beagle"];
    page.HandleBreedSelect("Poodle");
    assert page.selectedBreeds == ["Beagle", "Poodle"];
    assert "Bulldog" != "Beagle" && "Bulldog" != "Poodle";
    page.HandleBreedSelect("Bulldog");
    assert page.selectedBreeds == ["Beagle", "Poodle"];
    var armed := page.CompareBreeds();
    assert armed == Some(("Beagle", "Poodle"));
    page.ResetComparison();
    page.ComparisonArrives(armed.value, draw);
    assert page.selectedBreeds == [] && page.comparison.Some?;
    assert page.comparison.value.breed2 == "Poodle";
    assert page.comparison.value.differences[2] == "Poodle" + " is more suitable for apartment living";
  }
}
