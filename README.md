# Email SpamGuard: the normaliser and the analyze decision

The page takes the text of an email and shows one of four things when "Analyze
Email" is pressed:
- a warning if the text is blank;
- an error if the pickled classifier or vectorizer failed to load;
- otherwise "Spam Detected!" or "Safe Email", from the classifier's label on
  the normalised text.

Normalisation (`preprocess`) lower-cases the text and then deletes every
character of Python's `string.punctuation`. The deleted characters are not
replaced, so "don't" becomes "dont".

This project models those two pieces of logic in Dafny:

- `chars.dfy` (module `Chars`): the 32-character punctuation set, ASCII
  lower-casing of one character, ASCII whitespace as `str.strip()` sees it.
- `preprocess.dfy` (module `Preprocessing`): `Lower` (`str.lower`),
  `RemovePunctuation` (`str.translate` with a deletion table) and
  `Preprocess`, their composition. The lemmas cover the output being clean,
  idempotence, deletion in order, the exact output length, and when the
  output is empty.
- `analyze.dfy` (module `Analysis`): `Strip` (`str.strip`), the `Outcome`
  datatype and `Analyze`, the button handler as a pure function. The
  vectorizer and classifier together are the parameter
  `classify: string -> int`. Whether each artifact loaded is a boolean.
  The loading itself is not modelled.
- `examples.dfy` (module `Examples`): the behaviour on a few literal inputs.

## Model

| member | source | states |
|---|---|---|
| Chars.PunctuationIsAsciiSymbols | main.py:29 | `string.punctuation` has 32 characters, and `IsPunct` holds exactly for its members |
| Chars.IsSpace | main.py:141 | exactly the ten ASCII characters that `str.isspace()` accepts: 0x09-0x0D, 0x1C-0x1F and 0x20 |
| Chars.ToLower | main.py:28 | the result is never an upper-case letter; 'A'..'Z' map to 'a'..'z' at the same alphabet position; every other character is unchanged |
| Chars.ToLowerKeepsClass | main.py:28-29 | lower-casing never creates or removes a punctuation or whitespace character |
| Preprocessing.Lower | main.py:28 | lower-casing keeps the length of the text |
| Preprocessing.LowerAt | main.py:28 | lower-casing works position by position, and its output has no upper-case letter |
| Preprocessing.RemovePunctuation | main.py:29 | removing punctuation never lengthens the text |
| Preprocessing.RemovePunctuationClean | main.py:29 | what is left has no punctuation; if the input had no upper-case letter, neither does the output |
| Preprocessing.Preprocess | main.py:27-30 | total on every string, and the output is never longer than the input |
| Preprocessing.PreprocessClean | main.py:27-30 | the output has no character of `string.punctuation` and no upper-case letter |
| Preprocessing.LowerAppend | main.py:28 | lower-casing a concatenation lower-cases each part |
| Preprocessing.RemovePunctuationAppend | main.py:29 | removing punctuation from a concatenation treats each part separately, in order |
| Preprocessing.PreprocessAppend | main.py:27-30 | normalising `a + b` gives the normalised `a` followed by the normalised `b`: nothing is moved, merged or inserted |
| Preprocessing.PreprocessChar | main.py:27-30 | a single punctuation character becomes empty; any other character becomes its lower-case form |
| Preprocessing.PreprocessSelectsKept | main.py:29 | the output is exactly the lower-cased non-punctuation characters of the input, taken at increasing positions (deletion, not replacement) |
| Preprocessing.PreprocessLength | main.py:29 | output length = input length minus the number of punctuation characters in the input |
| Preprocessing.PreprocessEmptyIff | main.py:27-30 | the output is empty exactly when every input character is punctuation; the empty string maps to itself |
| Preprocessing.LowerOfLowerCase | main.py:28 | lower-casing text that has no upper-case letter changes nothing |
| Preprocessing.RemovePunctuationOfClean | main.py:29 | removing punctuation from text that has none changes nothing |
| Preprocessing.PreprocessIdempotent | main.py:27-30 | `preprocess(preprocess(s)) == preprocess(s)` for every `s` |
| Analysis.LeadingSpaces | main.py:141 | counts the whitespace run at the start of the text; the next character, if any, is not whitespace |
| Analysis.TrailingSpaces | main.py:141 | counts the whitespace run at the end of the text; the character before it, if any, is not whitespace |
| Analysis.Strip | main.py:141 | `strip()` returns the empty string exactly when the input is blank (empty or only whitespace) |
| Analysis.StripTrimsBothEnds | main.py:141 | a non-empty stripped text neither starts nor ends with whitespace |
| Analysis.StripRemovesOnlyOuterWhitespace | main.py:141 | the input is the stripped text with blank text before it and blank text after it |
| Analysis.Analyze | main.py:140-164 | warning iff the input is blank; error iff non-blank and the model or vectorizer is missing; Spam iff non-blank, both loaded, and the classifier gives the spam label 1 on the normalised input; Safe iff the same holds with any other label |
| Analysis.Message | main.py:142-161 | the headline of each outcome, without emoji or markup; "Spam Detected!" is shown for the Spam verdict only and "Safe Email" for the Safe verdict only |
| Analysis.MessagesDistinct | main.py:140-164 | the four outcomes are shown with four different messages |
| Analysis.BlankInputWarns | main.py:141-142 | blank input gives the warning for every load status and classifier, so the classifier is not consulted and the blank check comes before the load check |
| Analysis.MissingArtifactErrs | main.py:143-144 | non-blank input with either artifact missing gives the error, whatever the classifier |
| Analysis.VerdictDependsOnNormalisedText | main.py:147-149 | with both artifacts loaded, two non-blank inputs with the same normalised form get the same verdict, which is Spam or Safe |
| Analysis.LabelMapping | main.py:151-164 | the spam label 1 (`SpamLabel`) gives Spam; every other label, including values outside {0, 1}, gives Safe |
| Analysis.PunctuationOnlyReachesClassifier | main.py:141-149 | non-empty, punctuation-only input passes the blank check and reaches the classifier as the empty string |
| Examples.PreprocessDeletesApostrophe | main.py:27-30 | "Don't" normalises to "dont" |
| Examples.PreprocessKeepsExistingSpace | main.py:27-30 | "A, B" normalises to "a b": the comma goes and the existing space stays |
| Examples.PreprocessFusesWords | main.py:27-30 | "hi!yo" normalises to "hiyo" |
| Examples.AnalyzeBlankExamples | main.py:141-142 | "", "   " and " \t\n" give the warning, loaded artifacts or not |
| Examples.AnalyzeMissingVectorizer | main.py:143-144 | "Win" with the vectorizer missing gives the error |
| Examples.AnalyzeSeesUnstrippedText | main.py:147-164 | for " Hi! " the classifier receives " hi ": lower-cased and without punctuation, but not stripped |

## Left out

- Page configuration, CSS and HTML markup, the text area, the button, the spinner and the footer (main.py:6-11, 33-138, 146, 166-171). These are presentation only. `Message` keeps just the headline text of each outcome, without emoji or markup.
- `load_model` and `joblib.load` (main.py:14-24). These are file I/O and unpickling. The model gets only their result: two booleans, "model loaded" and "vectorizer loaded". The load-once behaviour comes from the `st.cache_resource` decorator, which is framework code and not part of this model.
- `vectorizer.transform` and `model.predict` (main.py:148-149). These are library calls over floating-point feature vectors. Together they are one opaque parameter `classify: string -> int`. An exception raised by them is not modelled, because the source does not handle one.
- Chars.ToLower: covers ASCII only. Python's `str.lower()` also maps non-ASCII letters, and for some of them, such as 'İ', it returns two characters. The model leaves every non-ASCII character unchanged.
- Chars.IsSpace: covers only the ASCII characters that `str.isspace()` accepts, namely tab, line feed, vertical tab, form feed, carriage return, 0x1C..0x1F and the space. Unicode spaces such as U+00A0 and U+2028 are treated as non-blank, although Python's `strip()` removes them.
- Text is a sequence of Unicode scalar values (`string`). No encoding or normalisation form is modelled.
- Lone surrogates (U+D800..U+DFFF) are not modelled. A Python `str` can hold them, but a Dafny `char` cannot. None of them is punctuation, whitespace or an upper-case letter, so `preprocess` and `strip()` would keep them unchanged.
