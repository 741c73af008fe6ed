/**
 * The filter that drops text the speech model produces on silence or noise
 * (`isHallucination` in GroqDictate/Main.swift).
 */
module HallucinationFilter {
  import opened Text

  /** The fixed phrase list, already trimmed and lowercased. */
  const KnownHallucinations: seq<string> := [
    "thank you.", "thank you",
    "thanks.", "thanks",
    "thanks for watching.", "thanks for watching!", "thanks for watching",
    "subtitles by amara.org", "subtitles by amara.org.",
    "amara.org",
    "you"
  ]

  /** The text the list is compared against: trimmed, then lowercased. */
  function Normalize(text: string): string {
    Lowercased(Trim(text))
  }

  /** The normalized text has no whitespace at either end and no capital letter. */
  lemma NormalizedForm(text: string)
    ensures var cleaned := Normalize(text);
      |cleaned| <= |text| &&
      (cleaned == [] || (!IsWhitespace(cleaned[0]) && !IsWhitespace(cleaned[|cleaned| - 1]))) &&
      forall i :: 0 <= i < |cleaned| ==> !('A' <= cleaned[i] <= 'Z')
  {
    TrimmedEnds(text);
    LowercasedHasNoCapitals(Trim(text));
    LowercasedKeepsWhitespace(Trim(text));
  }

  /** `isHallucination`: the normalized text is one of the known phrases, or empty. */
  function IsHallucination(text: string): bool {
    var cleaned := Normalize(text);
    cleaned in KnownHallucinations || cleaned == []
  }

  /**
   * A transcription is a hallucination exactly when it is whitespace only, or when
   * its trimmed, lowercased form is one of the known phrases.
   */
  lemma IsHallucinationIff(text: string)
    ensures IsHallucination(text) <==> AllWhitespace(text) || Normalize(text) in KnownHallucinations
  {
    BlankIffAllWhitespace(text);
    LowercasedHasNoCapitals(Trim(text));
  }

  /** Normalizing normalized text changes nothing. */
  lemma {:induction false} NormalizeIdempotent(text: string)
    ensures Normalize(Normalize(text)) == Normalize(text)
  {
    var t := Trim(text);
    calc {
      Normalize(Normalize(text));
      Lowercased(Trim(Lowercased(t)));
      { TrimLowercasedCommute(t); }
      Lowercased(Lowercased(Trim(t)));
      { LowercasedIdempotent(Trim(t)); }
      Lowercased(Trim(t));
      { TrimIdempotent(text); }
      Lowercased(t);
    }
  }

  /** The verdict depends on the normalized text only. */
  lemma {:induction false} HallucinationOfNormalized(text: string)
    ensures IsHallucination(Normalize(text)) == IsHallucination(text)
  {
    NormalizeIdempotent(text);
  }

  /** Every known phrase starts and ends with a non-whitespace character. */
  lemma KnownPhrasesAreTrimmed(p: string)
    requires p in KnownHallucinations
    ensures p != [] && !IsWhitespace(p[0]) && !IsWhitespace(p[|p| - 1])
  {
  }

  /**
   * Any capitalisation of a known phrase, padded on either side with whitespace,
   * is a hallucination.
   */
  lemma {:induction false} PaddedPhraseIsHallucination(w1: string, phrase: string, w2: string)
    requires AllWhitespace(w1) && AllWhitespace(w2)
    requires Lowercased(phrase) in KnownHallucinations
    ensures IsHallucination(w1 + phrase + w2)
  {
    var p := Lowercased(phrase);
    KnownPhrasesAreTrimmed(p);
    assert !IsWhitespace(phrase[0]) && !IsWhitespace(phrase[|phrase| - 1]) by {
      assert p[0] == LowerChar(phrase[0]);
      assert p[|p| - 1] == LowerChar(phrase[|phrase| - 1]);
    }
    TrimPadded(w1, phrase, w2);
  }

  /** Whitespace-only text, including the empty text, is a hallucination. */
  lemma BlankIsHallucination(text: string)
    requires AllWhitespace(text)
    ensures IsHallucination(text)
  {
    IsHallucinationIff(text);
  }

  /** "  Thanks for watching!  " is filtered out. */
  lemma ThanksForWatchingIsFiltered()
    ensures IsHallucination("  Thanks for watching!  ")
  {
    var pad, phrase := "  ", "Thanks for watching!";
    assert pad + phrase + pad == "  Thanks for watching!  ";
    CapitalisedThanks();
    PaddedPhraseIsHallucination(pad, phrase, pad);
  }

  lemma CapitalisedThanks()
    ensures Lowercased("Thanks for watching!") == KnownHallucinations[5]
  {
  }

  /** A listed phrase with extra punctuation is kept. */
  lemma YouWithPeriodIsKept()
    ensures !IsHallucination("you.")
  {
  }

  /** Ordinary speech is kept. */
  lemma HelloWorldIsKept()
    ensures !IsHallucination("hello world")
  {
    assert |Normalize("hello world")| == 11 by {
      TrimPadded([], "hello world", []);
      assert [] + "hello world" + [] == "hello world";
    }
  }
}
