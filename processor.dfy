/**
 The per-stream video processor. The streaming framework creates one per
 session and calls Transform once per frame. The object keeps the frame
 counter and the last label in fields that Transform updates in place; it
 returns the pair looked up for the label and the draw calls made onto the
 frame.
 */
module Processor {
  import opened EmotionTable
  import opened Overlay
  import opened Throttle

  class EmotionProcessor {
    var frameCount: nat
    var lastEmotionKey: string

    /** The classifier outcome of every frame handled so far, oldest first. */
    ghost var history: seq<ClassifierOutcome>
    /** How many times the classifier has been consulted. */
    ghost var classifierCalls: nat

    /** The fields as a state of the throttling state machine. */
    function State(): ProcessorState
      reads this
    {
      ProcessorState(frameCount, lastEmotionKey)
    }

    /** The fields are what the state machine reaches on the history, and the calls are counted. */
    ghost predicate Valid()
      reads this
    {
      && State() == Run(history)
      && classifierCalls == ClassifierCalls(frameCount)
    }

    constructor ()
      ensures Valid()
      ensures frameCount == 0 && lastEmotionKey == "neutral"
      ensures history == [] && classifierCalls == 0
    {
      frameCount := 0;
      lastEmotionKey := "neutral";
      history := [];
      classifierCalls := 0;
    }

    /**
     Handles one frame. `outcome` is what the classifier does with this frame;
     it is read only when the new count is a multiple of the sampling period,
     which `consulted` reports.
     */
    method Transform(outcome: ClassifierOutcome) returns (consulted: bool, shown: DisplayPair, plan: seq<PutText>)
      requires Valid()
      modifies this
      ensures Valid()
      ensures history == old(history) + [outcome]
      ensures State() == Step(old(State()), outcome)
      ensures frameCount == old(frameCount) + 1 == |history|
      ensures consulted <==> Consults(frameCount)
      ensures classifierCalls == old(classifierCalls) + (if consulted then 1 else 0) == frameCount / SamplePeriod
      ensures consulted && Succeeded(outcome) ==> lastEmotionKey == outcome.dominants[0]
      ensures !(consulted && Succeeded(outcome)) ==> lastEmotionKey == old(lastEmotionKey)
      ensures shown == Lookup(lastEmotionKey)
      ensures plan == DrawPlan(shown)
    {
      ghost var before := State();
      frameCount := frameCount + 1;
      consulted := frameCount % 10 == 0;
      if consulted {
        classifierCalls := classifierCalls + 1;
        match outcome
        case Raised =>
        case Returned(dominants) =>
          if |dominants| > 0 {
            lastEmotionKey := dominants[0];
          }
      }
      assert State() == Step(before, outcome);
      UpdateHistory(outcome);

      shown := Lookup(lastEmotionKey);
      var kaomoji := shown.kaomoji;
      var romaji := shown.romaji;
      plan := [];
      plan := plan + [PutText(kaomoji, Point(30, 80), HersheySimplex, 2.0, Bgr(0, 0, 0), 8)];
      plan := plan + [PutText(kaomoji, Point(30, 80), HersheySimplex, 2.0, Bgr(255, 255, 255), 3)];
      plan := plan + [PutText(romaji, Point(30, 140), HersheySimplex, 1.2, Bgr(0, 0, 0), 6)];
      plan := plan + [PutText(romaji, Point(30, 140), HersheySimplex, 1.2, Bgr(0, 255, 255), 2)];
    }

    /** Records the frame just handled in the ghost history and re-establishes Valid. */
    ghost method UpdateHistory(outcome: ClassifierOutcome)
      requires State() == Step(Run(history), outcome)
      requires classifierCalls == ClassifierCalls(frameCount)
      modifies this`history
      ensures history == old(history) + [outcome]
      ensures Valid()
      ensures frameCount == |history| && classifierCalls == frameCount / SamplePeriod
    {
      history := history + [outcome];
      assert history[..|history| - 1] == old(history);
      RunFrameCount(history);
      ClassifierCallsIsQuotient(frameCount);
    }
  }

  /** Until the first consulted frame with a successful classification, the neutral pair is shown. */
  lemma {:induction false} NeutralUntilFirstSuccess(os: seq<ClassifierOutcome>)
    requires forall k :: !SetsLabel(os, k)
    ensures Lookup(Run(os).lastEmotionKey) == DisplayPair(" . _ . ", "MAGAO")
  {
    RunLastEmotionKey(os);
  }

  /**
   What is shown after any run is the neutral pair, or the lookup of the
   label the last successful consulted frame returned.
   */
  lemma {:induction false} ShownAfterRun(os: seq<ClassifierOutcome>, k: nat)
    requires SetsLabel(os, k)
    requires forall j :: k < j ==> !SetsLabel(os, j)
    ensures Lookup(Run(os).lastEmotionKey) == Lookup(os[k].dominants[0])
    ensures !IsKnownLabel(os[k].dominants[0]) ==> Lookup(Run(os).lastEmotionKey) == Placeholder
  {
    RunLastEmotionKey(os);
  }
}
