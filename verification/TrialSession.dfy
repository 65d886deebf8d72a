/** The per-trial controller of the test page (app/test/page.tsx): which
    stimulus is shown, whether an angle has been selected for it, when it was
    shown, and the results recorded so far. */
module TrialSession {
  import opened Wrappers
  import opened StimulusGenerator

  /** One entry of `results`. */
  datatype TrialResult = TrialResult(correct: bool, time: int, targetAngle: real, selectedAngle: real)

  /** The result `handleSelection` records for `angle` on `stimulus`. */
  function Score(angle: real, stimulus: Stimulus, elapsed: int): (r: TrialResult)
    ensures r.correct <==> r.selectedAngle == r.targetAngle
    ensures r.selectedAngle == angle && r.targetAngle == stimulus.targetAngle && r.time == elapsed
  {
    TrialResult(angle == stimulus.targetAngle, elapsed, stimulus.targetAngle, angle)
  }

  class Session {
    /** Generated once when the page mounts and never replaced. */
    const stimuli: seq<Stimulus>
    var currentStimulusIndex: int
    var selectedAngle: Option<real>
    var startTime: int
    var results: seq<TrialResult>

    /** Results are recorded one per stimulus, in order: the stimuli before
        the current one each have a result, and the current one has one
        exactly when an angle is selected. */
    ghost predicate Valid()
      reads this
    {
      && -1 <= currentStimulusIndex
      && (|stimuli| > 0 ==> currentStimulusIndex < |stimuli|)
      && (|stimuli| == 0 || currentStimulusIndex == -1 ==> results == [] && selectedAngle.None?)
      && (|stimuli| > 0 && currentStimulusIndex >= 0 ==>
            |results| == currentStimulusIndex + (if selectedAngle.Some? then 1 else 0))
      && (forall i :: 0 <= i < |results| ==>
            i < |stimuli| && results[i].targetAngle == stimuli[i].targetAngle &&
            (results[i].correct <==> results[i].selectedAngle == results[i].targetAngle))
      && (selectedAngle.Some? ==> |results| > 0 && results[|results| - 1].selectedAngle == selectedAngle.value)
    }

    /** The page's initial state: no stimulus shown yet. */
    constructor (stimuli: seq<Stimulus>)
      ensures Valid()
      ensures this.stimuli == stimuli && currentStimulusIndex == -1
      ensures selectedAngle == None && results == [] && startTime == 0
    {
      this.stimuli := stimuli;
      currentStimulusIndex := -1;
      selectedAngle := None;
      startTime := 0;
      results := [];
    }

    /** `handleStartTest` (run once, on mount) sets the index to 0; the effect
        on the index then starts the clock at `now` and clears the selection. */
    method Start(now: int)
      requires Valid() && currentStimulusIndex == -1
      modifies this
      ensures Valid()
      ensures currentStimulusIndex == 0 && startTime == now
      ensures selectedAngle == None && results == old(results)
    {
      currentStimulusIndex := 0;
      startTime := now;
      selectedAngle := None;
    }

    /** `handleSelection`: the first selection for a stimulus is recorded with
        the time since it was shown; later ones are ignored. The options are
        only on screen while a stimulus is shown. */
    method HandleSelection(angle: real, now: int)
      requires Valid() && 0 <= currentStimulusIndex < |stimuli|
      modifies this
      ensures Valid()
      ensures old(selectedAngle).Some? ==>
        selectedAngle == old(selectedAngle) && results == old(results) &&
        currentStimulusIndex == old(currentStimulusIndex) && startTime == old(startTime)
      ensures old(selectedAngle).None? ==>
        && selectedAngle == Some(angle)
        && results == old(results) + [Score(angle, stimuli[currentStimulusIndex], now - startTime)]
        && currentStimulusIndex == old(currentStimulusIndex) && startTime == old(startTime)
    {
      if selectedAngle == None {
        selectedAngle := Some(angle);
        var timeTaken := now - startTime;
        results := results + [Score(angle, stimuli[currentStimulusIndex], timeTaken)];
      }
    }

    /** `handleNextStimulus`, reachable only through the button shown once an
        angle is selected: advance to the next stimulus (restarting the clock
        and clearing the selection), or, on the last one, hand the results
        over (they are then stored and the results page opens). */
    method HandleNextStimulus(now: int) returns (finished: Option<seq<TrialResult>>)
      requires Valid() && selectedAngle.Some?
      modifies this
      ensures Valid()
      ensures old(currentStimulusIndex) < |stimuli| - 1 ==>
        && currentStimulusIndex == old(currentStimulusIndex) + 1
        && selectedAngle == None && startTime == now && results == old(results)
        && finished == None
      ensures old(currentStimulusIndex) >= |stimuli| - 1 ==>
        && currentStimulusIndex == old(currentStimulusIndex) && selectedAngle == old(selectedAngle)
        && startTime == old(startTime) && results == old(results)
        && finished == Some(results)
      ensures finished.Some? ==>
        |finished.value| == |stimuli| &&
        forall i :: 0 <= i < |stimuli| ==>
          && finished.value[i].targetAngle == stimuli[i].targetAngle
          && (finished.value[i].correct <==> finished.value[i].selectedAngle == finished.value[i].targetAngle)
    {
      if currentStimulusIndex < |stimuli| - 1 {
        currentStimulusIndex := currentStimulusIndex + 1;
        startTime := now;
        selectedAngle := None;
        finished := None;
      } else {
        finished := Some(results);
      }
    }
  }
}
