/**
 The emotion display table: each of the seven labels the classifier can
 report is shown as a pair of strings, a kaomoji (a face drawn with ASCII
 characters) and a romaji word (the Japanese name of the emotion in Latin
 letters). Looking up any other label gives the placeholder pair ("?", "?").
 */
module EmotionTable {

  /** What is drawn for one emotion: the face on the first line, the word on the second. */
  datatype DisplayPair = DisplayPair(kaomoji: string, romaji: string)

  /** Shown for a label that is not in the table. */
  const Placeholder: DisplayPair := DisplayPair("?", "?")

  datatype Option<T> = None | Some(value: T)

  /** The closed set of labels the table knows. */
  datatype Emotion = Neutral | Happy | Surprise | Sad | Angry | Fear | Disgust

  /** The classifier's spelling of each emotion, which is the table's key. */
  function Label(e: Emotion): string
  {
    match e
    case Neutral => "neutral"
    case Happy => "happy"
    case Surprise => "surprise"
    case Sad => "sad"
    case Angry => "angry"
    case Fear => "fear"
    case Disgust => "disgust"
  }

  /** The emotion a label spells, if any: the inverse of Label. */
  function FromLabel(key: string): (r: Option<Emotion>)
    ensures r.Some? ==> Label(r.value) == key
    ensures forall e :: Label(e) == key ==> r == Some(e)
  {
    if key == "neutral" then Some(Neutral)
    else if key == "happy" then Some(Happy)
    else if key == "surprise" then Some(Surprise)
    else if key == "sad" then Some(Sad)
    else if key == "angry" then Some(Angry)
    else if key == "fear" then Some(Fear)
    else if key == "disgust" then Some(Disgust)
    else None
  }

  /** A label the table has an entry for. */
  predicate IsKnownLabel(key: string)
  {
    exists e :: Label(e) == key
  }

  /** The table itself, keyed by label. */
  const EmotionData: map<string, DisplayPair> := map[
    "neutral" := DisplayPair(" . _ . ", "MAGAO"),
    "happy" := DisplayPair("^ v ^", "URESHII"),
    "surprise" := DisplayPair("O . O !", "BIKKURI"),
    "sad" := DisplayPair("T . T", "KANASHII"),
    "angry" := DisplayPair("> _ < #", "OKOTTERU"),
    "fear" := DisplayPair("; O O ;", "KOWAI"),
    "disgust" := DisplayPair("...", "IYA")
  ]

  /** Looks a label up in the table, falling back to the placeholder. */
  function Lookup(key: string): (r: DisplayPair)
    ensures r == Placeholder <==> !IsKnownLabel(key)
    ensures IsKnownLabel(key) <==> key in EmotionData
  {
    var known := FromLabel(key);
    if key in EmotionData then
      assert known.Some?;
      EmotionData[key]
    else
      assert known == None;
      Placeholder
  }

  /** Each of the seven labels is shown as its fixed pair. */
  lemma SevenPairs()
    ensures Lookup(Label(Neutral)) == DisplayPair(" . _ . ", "MAGAO")
    ensures Lookup(Label(Happy)) == DisplayPair("^ v ^", "URESHII")
    ensures Lookup(Label(Surprise)) == DisplayPair("O . O !", "BIKKURI")
    ensures Lookup(Label(Sad)) == DisplayPair("T . T", "KANASHII")
    ensures Lookup(Label(Angry)) == DisplayPair("> _ < #", "OKOTTERU")
    ensures Lookup(Label(Fear)) == DisplayPair("; O O ;", "KOWAI")
    ensures Lookup(Label(Disgust)) == DisplayPair("...", "IYA")
  {
  }

  /** Any string that is not one of the seven labels, whatever the classifier returned, shows the placeholder. */
  lemma UnknownShowsPlaceholder(key: string)
    requires forall e :: Label(e) != key
    ensures Lookup(key) == Placeholder
  {
  }

  /** Two known labels that show the same pair are the same label: every emotion is displayed distinctly. */
  lemma LookupDistinguishes(a: string, b: string)
    requires IsKnownLabel(a)
    ensures Lookup(a) == Lookup(b) <==> a == b
  {
  }
}
