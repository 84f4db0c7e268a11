/**
 * Concrete cases of the normaliser and of the analyze decision, evaluated on
 * short literal inputs.
 */
module Examples {
  import opened Chars
  import opened Preprocessing
  import opened Analysis

  /** An apostrophe inside a word is deleted and the two halves fuse. */
  lemma PreprocessDeletesApostrophe()
    ensures Preprocess("Don't") == "dont"
  {}

  /** A comma before an existing space is deleted; no space is added or lost. */
  lemma PreprocessKeepsExistingSpace()
    ensures Preprocess("A, B") == "a b"
  {}

  /** Punctuation between two words fuses them into one. */
  lemma PreprocessFusesWords()
    ensures Preprocess("hi!yo") == "hiyo"
  {}

  /** Empty and whitespace-only input is refused with the warning, loaded
      artifacts or not. */
  lemma AnalyzeBlankExamples(c: string -> int)
    ensures Analyze("", true, true, c) == EmptyWarning
    ensures Analyze("   ", true, true, c) == EmptyWarning
    ensures Analyze(" \t\n", false, false, c) == EmptyWarning
  {}

  /** Non-blank input with the vectorizer missing gets the error. */
  lemma AnalyzeMissingVectorizer(c: string -> int)
    ensures Analyze("Win", true, false, c) == ModelError
  {}

  /** The classifier sees the input lower-cased and without punctuation, but
      with its surrounding spaces still in place. */
  lemma AnalyzeSeesUnstrippedText(c: string -> int)
    ensures Analyze(" Hi! ", true, true, c) == if c(" hi ") == SpamLabel then Spam else Safe
  {
    assert !IsBlank(" Hi! ") by { assert !IsSpace(" Hi! "[1]); }
    assert Preprocess(" Hi! ") == " hi ";
  }
}
