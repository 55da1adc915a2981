/**
 * The classifier adapter (`SentimentAnalyzer.analyze` in ai_model.py).
 *
 * The pretrained sentiment pipeline is an opaque, possibly failing function
 * from the (truncated) text to a raw label and a score. The adapter truncates
 * the text, calls the pipeline, maps the raw label to one of the two Korean
 * sentiment strings and echoes the full text back.
 */
module Classifier {

  datatype Option<+T> = None | Some(value: T)

  /** Only this many leading characters of a review reach the pipeline. */
  const MaxChars: nat := 512

  /** The one raw label the pipeline uses for a positive review. */
  const PositiveRawLabel: string := "LABEL_1"

  /** The stored sentiment strings, also the filter keys of the analytics queries. */
  const PositiveLabel: string := "긍정"
  const NegativeLabel: string := "부정"

  datatype Sentiment = Positive | Negative {
    /** The string stored in the `sentiment` column for this sentiment. */
    function Label(): (s: string)
      ensures s == PositiveLabel || s == NegativeLabel
      ensures s == PositiveLabel <==> Positive?
    {
      if Positive? then PositiveLabel else NegativeLabel
    }
  }

  /** One answer of the pretrained pipeline: `{'label': ..., 'score': ...}`. */
  datatype Prediction = Prediction(rawLabel: string, score: real)

  /** The pretrained pipeline; `None` stands for a call that raised. */
  type Pipeline = string -> Option<Prediction>

  /**
   * The confidence as stored: `f"{score:.2f}"` read back with `float()`, a
   * whole number of hundredths, rounding half up.
   */
  function Hundredths(score: real): (r: real)
    ensures (r * 100.0).Floor as real == r * 100.0
    ensures score - 0.005 < r <= score + 0.005
  {
    ((score * 100.0 + 0.5).Floor as real) / 100.0
  }

  /** A score in [0, 1] stays in [0, 1] once rounded to hundredths. */
  lemma HundredthsInUnitRange(score: real)
    requires 0.0 <= score <= 1.0
    ensures 0.0 <= Hundredths(score) <= 1.0
  {
    var n := (score * 100.0 + 0.5).Floor;
    assert 0 <= n <= 100;
  }

  /** The dictionary `analyze` returns; `confidence` is already rounded. */
  datatype Analysis = Analysis(text: string, sentiment: Sentiment, confidence: real, rawLabel: string)

  /** `text[:512]`: a hard cut, not a window. */
  function Truncate(text: string): (t: string)
    ensures t <= text
    ensures |t| == if |text| < MaxChars then |text| else MaxChars
  {
    if |text| <= MaxChars then text else text[..MaxChars]
  }

  /** `LABEL_1` is positive; every other raw label is negative. */
  function SentimentOf(rawLabel: string): (s: Sentiment)
    ensures s.Positive? <==> rawLabel == PositiveRawLabel
    ensures s.Negative? <==> rawLabel != PositiveRawLabel
  {
    if rawLabel == PositiveRawLabel then Positive else Negative
  }

  /** `SentimentAnalyzer.analyze(text)`; `None` when the pipeline raised. */
  function Analyze(classifier: Pipeline, text: string): (r: Option<Analysis>)
    ensures r.None? <==> classifier(Truncate(text)).None?
    ensures r.Some? ==>
      && r.value.text == text
      && r.value.rawLabel == classifier(Truncate(text)).value.rawLabel
      && r.value.confidence == Hundredths(classifier(Truncate(text)).value.score)
      && (r.value.sentiment.Label() == PositiveLabel <==> r.value.rawLabel == PositiveRawLabel)
      && (r.value.sentiment.Label() == NegativeLabel <==> r.value.rawLabel != PositiveRawLabel)
  {
    match classifier(Truncate(text))
    case None => None
    case Some(prediction) =>
      Some(Analysis(text, SentimentOf(prediction.rawLabel), Hundredths(prediction.score), prediction.rawLabel))
  }

  /** Two sentiments with the same stored string are the same sentiment. */
  lemma LabelInjective(a: Sentiment, b: Sentiment)
    ensures a.Label() == b.Label() ==> a == b
  {
    assert PositiveLabel != NegativeLabel by {
      assert PositiveLabel[0] != NegativeLabel[0];
    }
  }

  /**
   * Texts that reach the pipeline as the same truncated text (equal texts,
   * or texts that agree on their first 512 characters) are classified alike:
   * both fail, or both succeed with the same sentiment, confidence and raw label.
   */
  lemma TruncationDeterminism(classifier: Pipeline, s: string, t: string)
    requires Truncate(s) == Truncate(t)
    ensures Analyze(classifier, s).None? <==> Analyze(classifier, t).None?
    ensures Analyze(classifier, s).Some? ==>
      && Analyze(classifier, s).value.sentiment == Analyze(classifier, t).value.sentiment
      && Analyze(classifier, s).value.confidence == Analyze(classifier, t).value.confidence
      && Analyze(classifier, s).value.rawLabel == Analyze(classifier, t).value.rawLabel
  {
  }

  /** Two texts of at least 512 characters with the same first 512 reach the pipeline alike. */
  lemma SharedPrefixTruncates(s: string, t: string)
    requires |s| >= MaxChars && |t| >= MaxChars
    requires s[..MaxChars] == t[..MaxChars]
    ensures Truncate(s) == Truncate(t)
  {
  }

  /**
   * Appending anything to the first 512 characters of a long text changes
   * nothing but the echoed text.
   */
  lemma SuffixIgnored(classifier: Pipeline, s: string, suffix: string)
    requires |s| >= MaxChars
    ensures Analyze(classifier, s[..MaxChars] + suffix).None? <==> Analyze(classifier, s).None?
    ensures Analyze(classifier, s).Some? ==>
      Analyze(classifier, s[..MaxChars] + suffix).value
        == Analyze(classifier, s).value.(text := s[..MaxChars] + suffix)
  {
    var t := s[..MaxChars] + suffix;
    assert t[..MaxChars] == s[..MaxChars];
    SharedPrefixTruncates(s, t);
    TruncationDeterminism(classifier, s, t);
  }
}
