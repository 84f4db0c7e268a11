/**
 * The decision taken when the "Analyze Email" button is pressed: a warning for
 * blank input, an error when the pickled model or vectorizer failed to load,
 * otherwise the verdict of the classifier on the normalised text.
 *
 * The vectorizer and the classifier are opaque artifacts; together they are
 * the parameter `classify`, which maps normalised text to a predicted label.
 * Whether each artifact loaded is a boolean parameter.
 */
module Analysis {
  import opened Chars
  import opened Preprocessing

  /** What the page shows after the button is pressed. */
  datatype Outcome = EmptyWarning | ModelError | Spam | Safe

  /** The label the classifier uses for spam; every other label reads as safe. */
  const SpamLabel: int := 1

  predicate IsBlank(s: string) {
    forall i :: 0 <= i < |s| ==> IsSpace(s[i])
  }

  /** Length of the run of whitespace that `s` starts with. */
  function LeadingSpaces(s: string): (n: nat)
    ensures n <= |s|
    ensures forall i :: 0 <= i < n ==> IsSpace(s[i])
    ensures n < |s| ==> !IsSpace(s[n])
  {
    if s != [] && IsSpace(s[0]) then 1 + LeadingSpaces(s[1..]) else 0
  }

  /** Length of the run of whitespace that `s` ends with. */
  function TrailingSpaces(s: string): (n: nat)
    ensures n <= |s|
    ensures forall i :: |s| - n <= i < |s| ==> IsSpace(s[i])
    ensures n < |s| ==> !IsSpace(s[|s| - 1 - n])
  {
    if s != [] && IsSpace(s[|s| - 1]) then 1 + TrailingSpaces(s[..|s| - 1]) else 0
  }

  /** Where the text kept by `s.strip()` ends: before the trailing
      whitespace of what follows the leading whitespace. */
  function StripEnd(s: string): (e: nat)
    ensures LeadingSpaces(s) <= e <= |s|
  {
    |s| - TrailingSpaces(s[LeadingSpaces(s)..])
  }

  /** `s.strip()`: the leading whitespace is cut, then the trailing whitespace
      of what is left. The result is empty exactly when `s` is blank. */
  function Strip(s: string): (r: string)
    ensures r == [] <==> IsBlank(s)
  {
    s[LeadingSpaces(s)..StripEnd(s)]
  }

  /** What `Strip` returns neither starts nor ends with whitespace. */
  lemma StripTrimsBothEnds(s: string)
    ensures Strip(s) == [] || (!IsSpace(Strip(s)[0]) && !IsSpace(Strip(s)[|Strip(s)| - 1]))
  {}

  /** Only whitespace comes before the stripped text ... */
  lemma LeadIsBlank(s: string)
    ensures IsBlank(s[..LeadingSpaces(s)])
  {}

  /** ... and only whitespace comes after it. */
  lemma TrailIsBlank(s: string)
    ensures IsBlank(s[StripEnd(s)..])
  {}

  /** `Strip` removes only whitespace, and only at the two ends: the input is
      the result with blank text before and after it. */
  lemma StripRemovesOnlyOuterWhitespace(s: string)
    ensures exists head, tail :: s == head + Strip(s) + tail && IsBlank(head) && IsBlank(tail)
  {
    var lead, end := LeadingSpaces(s), StripEnd(s);
    LeadIsBlank(s);
    TrailIsBlank(s);
    assert s == s[..lead] + Strip(s) + s[end..];
  }

  /** The branch run on a button press. The blank check is on the raw input;
      the classifier receives the normalised, unstripped input. */
  function Analyze(input: string, modelLoaded: bool, vectorizerLoaded: bool, classify: string -> int): (r: Outcome)
    ensures r == EmptyWarning <==> IsBlank(input)
    ensures r == ModelError <==> !IsBlank(input) && !(modelLoaded && vectorizerLoaded)
    ensures r == Spam <==>
      !IsBlank(input) && modelLoaded && vectorizerLoaded && classify(Preprocess(input)) == SpamLabel
    ensures r == Safe <==>
      !IsBlank(input) && modelLoaded && vectorizerLoaded && classify(Preprocess(input)) != SpamLabel
  {
    if Strip(input) == [] then EmptyWarning
    else if !modelLoaded || !vectorizerLoaded then ModelError
    else if classify(Preprocess(input)) == SpamLabel then Spam
    else Safe
  }

  /** The headline the page shows for each outcome. The two verdict
      headlines are shown for their own verdict and for nothing else. */
  function Message(o: Outcome): (m: string)
    ensures m != []
    ensures m == "Spam Detected!" <==> o == Spam
    ensures m == "Safe Email" <==> o == Safe
  {
    match o
    case EmptyWarning => "Please enter an email to analyze"
    case ModelError => "Model not loaded properly - please check your model files"
    case Spam => "Spam Detected!"
    case Safe => "Safe Email"
  }

  /** Different outcomes are shown with different messages. */
  lemma MessagesDistinct(o1: Outcome, o2: Outcome)
    ensures Message(o1) == Message(o2) <==> o1 == o2
  {}

  /** Blank input is answered with the warning whatever the artifacts and the
      classifier: neither the load status nor the classifier is consulted, so
      the blank check takes precedence over the load check. */
  lemma BlankInputWarns(input: string, m1: bool, v1: bool, c1: string -> int, m2: bool, v2: bool, c2: string -> int)
    requires IsBlank(input)
    ensures Analyze(input, m1, v1, c1) == EmptyWarning
    ensures Analyze(input, m1, v1, c1) == Analyze(input, m2, v2, c2)
  {}

  /** With an artifact missing, non-blank input is answered with the error
      whatever the classifier would have said. */
  lemma MissingArtifactErrs(input: string, m: bool, v: bool, c1: string -> int, c2: string -> int)
    requires !IsBlank(input) && !(m && v)
    ensures Analyze(input, m, v, c1) == ModelError
    ensures Analyze(input, m, v, c1) == Analyze(input, m, v, c2)
  {}

  /** Once both checks pass, the verdict depends on the input only through its
      normalised form: two inputs that normalise alike get the same verdict. */
  lemma VerdictDependsOnNormalisedText(a: string, b: string, c: string -> int)
    requires !IsBlank(a) && !IsBlank(b)
    requires Preprocess(a) == Preprocess(b)
    ensures Analyze(a, true, true, c) == Analyze(b, true, true, c)
    ensures Analyze(a, true, true, c) in {Spam, Safe}
  {}

  /** Only the label 1 is spam: any other label, including values outside
      {0, 1}, falls through to the safe verdict. */
  lemma LabelMapping(input: string, c: string -> int)
    requires !IsBlank(input)
    ensures Analyze(input, true, true, c) == Spam <==> c(Preprocess(input)) == SpamLabel
    ensures Analyze(input, true, true, c) == Safe <==> c(Preprocess(input)) != SpamLabel
  {}

  /** Input made only of punctuation is not blank, so it reaches the
      classifier, which then sees the empty string. */
  lemma PunctuationOnlyReachesClassifier(input: string, c: string -> int)
    requires input != []
    requires forall i :: 0 <= i < |input| ==> IsPunct(input[i])
    ensures Analyze(input, true, true, c) == if c([]) == SpamLabel then Spam else Safe
  {
    assert !IsSpace(input[0]);
    PreprocessEmptyIff(input);
  }
}
