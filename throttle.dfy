/**
 The frame-throttling state machine of the emotion processor, as values.
 The state is a frame counter and the label last reported by the classifier.
 Every frame increments the counter; on a frame whose new count is a multiple
 of the sampling period the classifier is consulted, and a successful,
 non-empty answer replaces the label; any failure keeps the old one.
 */
module Throttle {

  /** The classifier is consulted on one frame in this many. */
  const SamplePeriod: nat := 10

  /** The label shown before the first successful classification. */
  const InitialLabel: string := "neutral"

  /**
   What the classifier does with a frame: it raises (no face, model error,
   anything), or it returns one result per detected face, here reduced to
   each result's dominant emotion label.
   */
  datatype ClassifierOutcome = Raised | Returned(dominants: seq<string>)

  /** The per-stream state. */
  datatype ProcessorState = ProcessorState(frameCount: nat, lastEmotionKey: string)

  /** The state of a freshly created processor. */
  function Initial(): ProcessorState
  {
    ProcessorState(0, InitialLabel)
  }

  /** The frame that brings the counter to `count` consults the classifier. */
  predicate Consults(count: nat)
  {
    count % SamplePeriod == 0
  }

  /** The classifier gave a label: it did not raise and returned at least one result. */
  predicate Succeeded(o: ClassifierOutcome)
  {
    o.Returned? && |o.dominants| > 0
  }

  /**
   The label after a consulted frame. Taking the first result of an empty
   list raises, and every exception is swallowed, so an empty answer is
   handled like a raised one.
   */
  function NextKey(current: string, o: ClassifierOutcome): (r: string)
    ensures Succeeded(o) ==> r == o.dominants[0]
    ensures !Succeeded(o) ==> r == current
  {
    match o
    case Raised => current
    case Returned(ds) => if |ds| == 0 then current else ds[0]
  }

  /** One frame: `o` is what the classifier would do with it, read only if it is consulted. */
  function Step(s: ProcessorState, o: ClassifierOutcome): (r: ProcessorState)
    ensures r.frameCount == s.frameCount + 1
    ensures !Consults(r.frameCount) ==> r.lastEmotionKey == s.lastEmotionKey
    ensures r.lastEmotionKey != s.lastEmotionKey ==>
              Consults(r.frameCount) && Succeeded(o) && r.lastEmotionKey == o.dominants[0]
    ensures Consults(r.frameCount) && Succeeded(o) ==> r.lastEmotionKey == o.dominants[0]
  {
    var count := s.frameCount + 1;
    ProcessorState(count, if Consults(count) then NextKey(s.lastEmotionKey, o) else s.lastEmotionKey)
  }

  /** The state after a fresh processor has handled one frame per outcome, in order. */
  function Run(os: seq<ClassifierOutcome>): ProcessorState
  {
    if |os| == 0 then Initial() else Step(Run(os[..|os| - 1]), os[|os| - 1])
  }

  /** How many of the first `n` frames consult the classifier. */
  function ClassifierCalls(n: nat): nat
  {
    if n == 0 then 0 else ClassifierCalls(n - 1) + (if Consults(n) then 1 else 0)
  }

  /** How many times the label changed while a fresh processor handled `os`. */
  function LabelChanges(os: seq<ClassifierOutcome>): nat
  {
    if |os| == 0 then 0
    else
      var before := Run(os[..|os| - 1]);
      LabelChanges(os[..|os| - 1]) + (if Run(os).lastEmotionKey != before.lastEmotionKey then 1 else 0)
  }

  /** The counter after n frames is n: it is never reset and never skips. */
  lemma {:induction false} RunFrameCount(os: seq<ClassifierOutcome>)
    ensures Run(os).frameCount == |os|
  {
    if |os| > 0 {
      RunFrameCount(os[..|os| - 1]);
    }
  }

  /** Going from n to n + 1 frames adds one to n / SamplePeriod exactly when n + 1 is a multiple of it. */
  lemma QuotientStep(n: nat)
    ensures (n + 1) / SamplePeriod == n / SamplePeriod + (if Consults(n + 1) then 1 else 0)
  {
  }

  /** After n frames the classifier has been consulted n / 10 times. */
  lemma {:induction false} ClassifierCallsIsQuotient(n: nat)
    ensures ClassifierCalls(n) == n / SamplePeriod
  {
    if n > 0 {
      ClassifierCallsIsQuotient(n - 1);
      QuotientStep(n - 1);
    }
  }

  /** Frame k (counting from 0) of a run consults the classifier and gets a label. */
  predicate SetsLabel(os: seq<ClassifierOutcome>, k: int)
  {
    0 <= k < |os| && Consults(k + 1) && Succeeded(os[k])
  }

  /**
   The label after a run is the first result of the last consulted frame
   whose classification succeeded, and the initial label if there is none.
   */
  lemma {:induction false} RunLastEmotionKey(os: seq<ClassifierOutcome>)
    ensures (forall k :: !SetsLabel(os, k)) ==> Run(os).lastEmotionKey == InitialLabel
    ensures forall k :: SetsLabel(os, k) && (forall j :: k < j ==> !SetsLabel(os, j)) ==>
              Run(os).lastEmotionKey == os[k].dominants[0]
  {
    if |os| > 0 {
      var n := |os|;
      var init := os[..n - 1];
      RunLastEmotionKey(init);
      RunFrameCount(init);
      assert forall k :: 0 <= k < n - 1 ==> (SetsLabel(os, k) <==> SetsLabel(init, k));
      if !SetsLabel(os, n - 1) {
        assert Run(os).lastEmotionKey == Run(init).lastEmotionKey;
        forall k | SetsLabel(os, k) && (forall j :: k < j ==> !SetsLabel(os, j))
          ensures Run(os).lastEmotionKey == os[k].dominants[0]
        {
          assert SetsLabel(init, k);
        }
      }
    }
  }

  /** The label changes at most once per consultation, so at most n / 10 times in n frames. */
  lemma {:induction false} LabelChangesBound(os: seq<ClassifierOutcome>)
    ensures LabelChanges(os) <= ClassifierCalls(|os|)
    ensures LabelChanges(os) <= |os| / SamplePeriod
  {
    if |os| > 0 {
      var init := os[..|os| - 1];
      LabelChangesBound(init);
      RunFrameCount(init);
    }
    ClassifierCallsIsQuotient(|os|);
  }
}
