# Emotion overlay processor: a verified model

The application shows a webcam stream in the browser and writes the viewer's
current facial emotion on each frame, as a kaomoji (a face made of ASCII
characters) and a romaji word (the Japanese word in Latin letters). The logic
the application owns is small, and this project models all of it:

- **The emotion display table** (`EmotionTable`). Seven labels (neutral,
  happy, surprise, sad, angry, fear, disgust) each map to a fixed
  (kaomoji, romaji) pair. Any other label looks up to the placeholder
  `("?", "?")`.
- **The frame-throttling state machine** (`Throttle`, as values;
  `Processor.EmotionProcessor`, as the object the framework calls). A
  processor keeps a frame counter and the last emotion label. Each frame
  increments the counter. When the new count is a multiple of 10, the
  processor asks the emotion classifier. A successful, non-empty answer
  replaces the label with the first result's dominant emotion. An exception,
  or an empty answer, keeps the old label, because taking the first element
  of an empty list also raises and every exception is swallowed.
- **The overlay** (`Overlay`). Every frame gets four text-drawing calls:
  the kaomoji line, then the romaji line. Each line is drawn first as a thick
  black outline and then as a thinner coloured fill at the same origin.

The classifier is not modelled. Each call to `Transform` receives a
`ClassifierOutcome` for its frame: `Raised`, or `Returned(dominants)` with
one dominant label per detected face. The outcome is read only on frames
where the classifier is consulted. Proofs about several frames work on
`Throttle.Run`, the state a fresh processor reaches on a sequence of
outcomes. The class's ghost fields `history` and `classifierCalls` keep the
real fields tied to `Run(history)`, and they keep the count of classifier
calls equal to `frameCount / 10`.

The stored label is not restricted to the seven known emotions: the code
stores whatever string the classifier returns. So `lastEmotionKey` is any
string, and a label outside the table is shown as the placeholder.

## Model

| member | source | states |
|---|---|---|
| `EmotionTable.FromLabel` | app.py:14-22 | recognises exactly the seven table keys. It returns the emotion whose label is the key, and it returns nothing for any other string |
| `EmotionTable.Lookup` | app.py:49 | the placeholder `("?", "?")` is returned exactly when the key is not one of the seven labels. A key is in the table exactly when it is one of those labels. No known label displays as the placeholder |
| `EmotionTable.SevenPairs` | app.py:14-22 | neutral, happy, surprise, sad, angry, fear and disgust each look up to their fixed (kaomoji, romaji) pair |
| `EmotionTable.UnknownShowsPlaceholder` | app.py:49 | any string that is none of the seven labels, including any string the classifier can return, looks up to `("?", "?")` |
| `EmotionTable.LookupDistinguishes` | app.py:14-22 | two labels show the same pair exactly when they are the same label, provided one of them is known. So every emotion is displayed distinctly |
| `Overlay.DrawPlan` | app.py:57-69 | there are four draw calls. Each line is an outline followed by its fill: same text, origin, font and scale; the outline is black, the fill is not black, and the outline is strictly thicker. The kaomoji line comes first and the romaji line second. The romaji line sits below the kaomoji line at the same x, in a smaller scale |
| `Overlay.DrawPlanConstants` | app.py:57-69 | gives the exact calls: kaomoji at (30,80), scale 2.0, black 8 then white 3; romaji at (30,140), scale 1.2, black 6 then BGR (0,255,255) 2 |
| `Overlay.ShownPairOfPlan` | app.py:50-69 | the first and third calls' texts are the pair's kaomoji and romaji, so the plan recovers exactly the pair it was made from |
| `Throttle.NextKey` | app.py:36-45 | on a consulted frame, a successful non-empty answer gives its first result's dominant emotion. An exception or an empty answer keeps the current label |
| `Throttle.Step` | app.py:34-45 | one frame adds exactly one to the counter. The label is unchanged unless the new count is a multiple of 10. When the label does change, that frame was consulted and succeeded, and the new label is its first result. A consulted frame that succeeds always sets that label |
| `Throttle.RunFrameCount` | app.py:34 | after n frames from a fresh state the counter is exactly n |
| `Throttle.QuotientStep` | app.py:35 | going from n to n + 1 frames raises n / 10 by one exactly when n + 1 is a consulted count |
| `Throttle.ClassifierCallsIsQuotient` | app.py:35 | after n frames the classifier has been consulted exactly n / 10 times |
| `Throttle.RunLastEmotionKey` | app.py:26-45 | after any run, the label is "neutral" if no consulted frame succeeded. Otherwise it is the first result of the last consulted frame that succeeded |
| `Throttle.LabelChangesBound` | app.py:34-45 | the label changes at most once per consultation, so at most n / 10 times in n frames |
| `Processor.EmotionProcessor.constructor` | app.py:26-28 | a fresh processor has counter 0, label "neutral", an empty history and no classifier calls, and it satisfies the invariant |
| `Processor.EmotionProcessor.Transform` | app.py:30-69 | keeps the invariant that the fields equal `Run(history)` and that the call count is `frameCount / 10`. It appends the frame's outcome to the history and takes the fields one `Step`. It reports whether the classifier was consulted. It sets the label only on a consulted, successful frame. It returns the table lookup of the new label and the draw plan for that pair |
| `Processor.NeutralUntilFirstSuccess` | app.py:26-49 | until a consulted frame succeeds, the displayed pair is (" . _ . ", "MAGAO") |
| `Processor.ShownAfterRun` | app.py:43-49 | after a run, the displayed pair is the lookup of the label returned by the last consulted frame that succeeded. If that label is not one of the seven, the pair is the placeholder |

## Left out

- Page setup, title and caption (app.py:7-11): user interface only.
- The streaming widget, its media constraints and STUN server (app.py:74-79): network and framework plumbing.
- The classifier's internals (app.py:37-42): face detection, the emotion
  model, and the detection and backend options belong to a foreign library.
  Their result is the `ClassifierOutcome` parameter of `Transform`.
- Decoding the video frame into an image (app.py:31), and the image itself
  that `transform` returns: foreign video code.
- The pixels that text drawing changes, and the font's rendering and metrics (app.py:57-69): a
  foreign rendering library. Only the list of draw calls is modelled, in
  call order.
- Calls the classifier does not receive: `Transform` gets an outcome on
  every frame, but reads it only on consulted frames. On other frames the classifier is
  never called, so the outcome stands for no call at all.
- Any threading the streaming framework uses to call `transform`: the
  application adds no concurrency of its own.
