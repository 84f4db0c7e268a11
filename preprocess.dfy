/**
 * The text normaliser `preprocess`: lower-case the message, then delete every
 * character of `string.punctuation` (deleted, not replaced by a space, so
 * "don't" becomes "dont").
 */
module Preprocessing {
  import opened Chars

  /** `text.lower()`, one character at a time. */
  function Lower(s: string): (r: string)
    ensures |r| == |s|
  {
    if s == [] then [] else [ToLower(s[0])] + Lower(s[1..])
  }

  /** Lower-casing works position by position and leaves no upper-case letter. */
  lemma {:induction false} LowerAt(s: string)
    ensures forall i :: 0 <= i < |s| ==> Lower(s)[i] == ToLower(s[i]) && !IsUpper(Lower(s)[i])
  {
    if s != [] {
      LowerAt(s[1..]);
    }
  }

  /** `text.translate(str.maketrans('', '', string.punctuation))`: every
      punctuation character is dropped, everything else is kept. */
  function RemovePunctuation(s: string): (r: string)
    ensures |r| <= |s|
  {
    if s == [] then []
    else if IsPunct(s[0]) then RemovePunctuation(s[1..])
    else [s[0]] + RemovePunctuation(s[1..])
  }

  /** What is left holds no punctuation, and no upper-case letter when the
      input held none: removal introduces nothing. */
  lemma {:induction false} RemovePunctuationClean(s: string)
    ensures forall i :: 0 <= i < |RemovePunctuation(s)| ==> !IsPunct(RemovePunctuation(s)[i])
    ensures (forall i :: 0 <= i < |s| ==> !IsUpper(s[i])) ==>
      forall i :: 0 <= i < |RemovePunctuation(s)| ==> !IsUpper(RemovePunctuation(s)[i])
  {
    if s != [] {
      RemovePunctuationClean(s[1..]);
    }
  }

  /** `preprocess(text)`: lower-casing first, punctuation removal second. */
  function Preprocess(s: string): (r: string)
    ensures |r| <= |s|
  {
    RemovePunctuation(Lower(s))
  }

  /** The normalised text holds no punctuation and no upper-case letter. */
  lemma {:induction false} PreprocessClean(s: string)
    ensures forall i :: 0 <= i < |Preprocess(s)| ==>
      !IsPunct(Preprocess(s)[i]) && !IsUpper(Preprocess(s)[i])
  {
    LowerAt(s);
    RemovePunctuationClean(Lower(s));
  }

  /** Number of punctuation characters in `s`. */
  function PunctCount(s: string): (n: nat)
    ensures n <= |s|
    ensures n == |s| <==> forall i :: 0 <= i < |s| ==> IsPunct(s[i])
  {
    if s == [] then 0
    else (if IsPunct(s[0]) then 1 else 0) + PunctCount(s[1..])
  }

  /** The indices of `s` that hold a non-punctuation character, in increasing order. */
  function KeptIndices(s: string): (ks: seq<nat>)
    ensures forall k :: 0 <= k < |ks| ==> ks[k] < |s| && !IsPunct(s[ks[k]])
    ensures forall k, l :: 0 <= k < l < |ks| ==> ks[k] < ks[l]
    ensures forall i :: 0 <= i < |s| && !IsPunct(s[i]) ==> i in ks
  {
    if s == [] then []
    else
      var n := |s| - 1;
      KeptIndices(s[..n]) + (if IsPunct(s[n]) then [] else [n])
  }

  lemma {:induction false} LowerAppend(a: string, b: string)
    ensures Lower(a + b) == Lower(a) + Lower(b)
  {
    if a != [] {
      assert (a + b)[1..] == a[1..] + b;
      LowerAppend(a[1..], b);
    } else {
      assert a + b == b;
    }
  }

  lemma {:induction false} RemovePunctuationAppend(a: string, b: string)
    ensures RemovePunctuation(a + b) == RemovePunctuation(a) + RemovePunctuation(b)
  {
    if a != [] {
      assert (a + b)[0] == a[0];
      assert (a + b)[1..] == a[1..] + b;
      RemovePunctuationAppend(a[1..], b);
      if !IsPunct(a[0]) {
        assert RemovePunctuation(a + b) == [a[0]] + RemovePunctuation(a[1..] + b);
        assert RemovePunctuation(a) == [a[0]] + RemovePunctuation(a[1..]);
      }
    } else {
      assert a + b == b;
    }
  }

  /** Normalising a concatenation normalises the parts independently and keeps
      their order: no character is moved, merged or inserted. */
  lemma {:induction false} PreprocessAppend(a: string, b: string)
    ensures Preprocess(a + b) == Preprocess(a) + Preprocess(b)
  {
    LowerAppend(a, b);
    RemovePunctuationAppend(Lower(a), Lower(b));
  }

  /** On one character: punctuation disappears, anything else is lower-cased. */
  lemma PreprocessChar(c: char)
    ensures Preprocess([c]) == if IsPunct(c) then [] else [ToLower(c)]
  {}

  /** Deletion, not replacement: the output is exactly the lower-cased
      non-punctuation characters of the input, in their original order. */
  lemma {:induction false} PreprocessSelectsKept(s: string)
    ensures |Preprocess(s)| == |KeptIndices(s)|
    ensures forall k :: 0 <= k < |KeptIndices(s)| ==>
      Preprocess(s)[k] == ToLower(s[KeptIndices(s)[k]])
  {
    if s != [] {
      var n := |s| - 1;
      var front := s[..n];
      assert s == front + [s[n]];
      PreprocessSelectsKept(front);
      PreprocessAppend(front, [s[n]]);
      PreprocessChar(s[n]);
      var ks := KeptIndices(front);
      assert KeptIndices(s) == ks + (if IsPunct(s[n]) then [] else [n]);
      forall k | 0 <= k < |KeptIndices(s)|
        ensures Preprocess(s)[k] == ToLower(s[KeptIndices(s)[k]])
      {
        if k < |ks| {
          assert s[ks[k]] == front[ks[k]];
        }
      }
    }
  }

  lemma {:induction false} RemovePunctuationLength(s: string)
    ensures |RemovePunctuation(s)| == |s| - PunctCount(s)
  {
    if s != [] {
      RemovePunctuationLength(s[1..]);
    }
  }

  lemma {:induction false} LowerPunctCount(s: string)
    ensures PunctCount(Lower(s)) == PunctCount(s)
  {
    if s != [] {
      LowerPunctCount(s[1..]);
      ToLowerKeepsClass(s[0]);
      assert Lower(s)[1..] == Lower(s[1..]);
    }
  }

  /** The output is shorter than the input by exactly the number of
      punctuation characters in the input. */
  lemma {:induction false} PreprocessLength(s: string)
    ensures |Preprocess(s)| == |s| - PunctCount(s)
  {
    RemovePunctuationLength(Lower(s));
    LowerPunctCount(s);
  }

  /** The output is empty exactly when every input character is punctuation;
      in particular the empty string maps to the empty string. */
  lemma {:induction false} PreprocessEmptyIff(s: string)
    ensures Preprocess(s) == [] <==> forall i :: 0 <= i < |s| ==> IsPunct(s[i])
  {
    PreprocessLength(s);
  }

  lemma {:induction false} LowerOfLowerCase(s: string)
    requires forall i :: 0 <= i < |s| ==> !IsUpper(s[i])
    ensures Lower(s) == s
  {
    if s != [] {
      LowerOfLowerCase(s[1..]);
    }
  }

  lemma {:induction false} RemovePunctuationOfClean(s: string)
    requires forall i :: 0 <= i < |s| ==> !IsPunct(s[i])
    ensures RemovePunctuation(s) == s
  {
    if s != [] {
      RemovePunctuationOfClean(s[1..]);
    }
  }

  /** Normalising twice is the same as normalising once. */
  lemma {:induction false} PreprocessIdempotent(s: string)
    ensures Preprocess(Preprocess(s)) == Preprocess(s)
  {
    var p := Preprocess(s);
    PreprocessClean(s);
    LowerOfLowerCase(p);
    RemovePunctuationOfClean(p);
  }
}
