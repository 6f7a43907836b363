/**
 * The scale picker: a fixed table of four named scales, written in the
 * 88-key numbering in which 39 is C4, and the selection that puts one of
 * them into the store's suggested keys.
 */
module KeySuggestions {
  import StoreModel

  const CMajor: seq<int> := [39, 41, 43, 44, 46, 48, 50, 51]
  const GMajor: seq<int> := [35, 37, 39, 40, 42, 44, 46, 47]
  const FMajor: seq<int> := [33, 35, 37, 39, 40, 42, 44, 45]
  const AMinor: seq<int> := [36, 38, 39, 41, 43, 44, 46, 48]

  const Scales: map<string, seq<int>> :=
    map["C Major" := CMajor, "G Major" := GMajor, "F Major" := FMajor, "A Minor" := AMinor]

  /** The scale shown as selected before any click. */
  const InitialScale := "C Major"

  /** The semitone steps between consecutive keys of a scale. */
  function Steps(keys: seq<int>): (steps: seq<int>)
    ensures |steps| == if |keys| == 0 then 0 else |keys| - 1
    ensures forall i | 0 <= i < |steps| :: steps[i] == keys[i + 1] - keys[i]
  {
    if |keys| == 0 then [] else seq(|keys| - 1, i requires 0 <= i < |keys| - 1 => keys[i + 1] - keys[i])
  }

  /** The step patterns of the major and the natural minor scale. */
  const MajorSteps: seq<int> := [2, 2, 1, 2, 2, 2, 1]
  const MinorSteps: seq<int> := [2, 1, 2, 2, 1, 2, 2]

  /** Strictly increasing. */
  predicate Increasing(keys: seq<int>)
  {
    forall i, j | 0 <= i < j < |keys| :: keys[i] < keys[j]
  }

  /** With every step positive, a key is below every later key. */
  lemma {:induction false} PositiveStepsChain(keys: seq<int>, i: int, j: int)
    requires forall k | 0 <= k < |Steps(keys)| :: Steps(keys)[k] > 0
    requires 0 <= i < j < |keys|
    ensures keys[i] < keys[j]
    decreases j - i
  {
    assert Steps(keys)[j - 1] == keys[j] - keys[j - 1];
    if i < j - 1 {
      PositiveStepsChain(keys, i, j - 1);
    }
  }

  /** When every step is positive the keys strictly increase. */
  lemma PositiveStepsIncrease(keys: seq<int>)
    requires forall i | 0 <= i < |Steps(keys)| :: Steps(keys)[i] > 0
    ensures Increasing(keys)
  {
    forall i, j | 0 <= i < j < |keys|
      ensures keys[i] < keys[j]
    {
      PositiveStepsChain(keys, i, j);
    }
  }

  /** The four names are the table's keys. */
  lemma ScaleNames(name: string)
    requires name in Scales
    ensures name == "C Major" ==> Scales[name] == CMajor
    ensures name == "G Major" ==> Scales[name] == GMajor
    ensures name == "F Major" ==> Scales[name] == FMajor
    ensures name == "A Minor" ==> Scales[name] == AMinor
    ensures name in {"C Major", "G Major", "F Major", "A Minor"}
  {
  }

  /** A scale's steps are `pattern` when each difference of neighbours matches it. */
  lemma StepsAre(keys: seq<int>, pattern: seq<int>)
    requires |keys| == |pattern| + 1
    requires forall i | 0 <= i < |pattern| :: keys[i + 1] - keys[i] == pattern[i]
    ensures Steps(keys) == pattern
  {
    assert forall i | 0 <= i < |pattern| :: Steps(keys)[i] == pattern[i];
  }

  /**
   * "C Major" and "G Major" follow the major pattern and "A Minor" the
   * minor one; "F Major" follows neither (its third step is a whole tone,
   * so its label does not match its keys).
   */
  lemma CMajorSteps()
    ensures Steps(CMajor) == MajorSteps
  {
    StepsAre(CMajor, MajorSteps);
  }

  lemma GMajorSteps()
    ensures Steps(GMajor) == MajorSteps
  {
    StepsAre(GMajor, MajorSteps);
  }

  lemma AMinorSteps()
    ensures Steps(AMinor) == MinorSteps
  {
    StepsAre(AMinor, MinorSteps);
  }

  lemma FMajorSteps()
    ensures Steps(FMajor) == [2, 2, 2, 1, 2, 2, 1]
    ensures Steps(FMajor) != MajorSteps && Steps(FMajor) != MinorSteps
  {
    StepsAre(FMajor, [2, 2, 2, 1, 2, 2, 1]);
    assert MajorSteps[2] == 1 && MinorSteps[1] == 1;
  }

  /** Every entry is eight strictly increasing keys spanning one octave. */
  lemma ScalesShape(name: string)
    requires name in Scales
    ensures var keys := Scales[name];
      |keys| == 8 && Increasing(keys) && keys[7] - keys[0] == 12
  {
    ScaleNames(name);
    var keys := Scales[name];
    if name == "C Major" {
      CMajorSteps();
    } else if name == "G Major" {
      GMajorSteps();
    } else if name == "F Major" {
      FMajorSteps();
    } else {
      AMinorSteps();
    }
    assert forall i | 0 <= i < |Steps(keys)| :: Steps(keys)[i] > 0;
    PositiveStepsIncrease(keys);
  }

  /** The store's own suggestion after the samples load is "C Major" moved to the store's numbering (C4 = 60). */
  lemma LoadedSuggestionIsCMajor()
    ensures |StoreModel.LoadedSuggestion| == |CMajor|
    ensures forall i | 0 <= i < |StoreModel.LoadedSuggestion| ::
      StoreModel.LoadedSuggestion[i] == CMajor[i] + 21
  {
  }

  /** `changeScale`: the selected name and the store with that scale's keys as its suggestion. */
  function ChangeScale(st: StoreModel.StoreState, scale: string): (r: (string, StoreModel.StoreState))
    requires scale in Scales
    ensures r.0 == scale
    ensures r.1.suggestedKeys == Scales[scale]
    ensures r.1 == st.(suggestedKeys := Scales[scale])
  {
    (scale, StoreModel.SetSuggestedKeys(st, Scales[scale]))
  }

  /** Only the last choice counts, and choosing the shown scale again changes nothing. */
  lemma ChangeScaleLastWins(st: StoreModel.StoreState, a: string, b: string)
    requires a in Scales && b in Scales
    ensures ChangeScale(ChangeScale(st, a).1, b) == ChangeScale(st, b)
    ensures ChangeScale(ChangeScale(st, a).1, a) == ChangeScale(st, a)
  {
  }
}
