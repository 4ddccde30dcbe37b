/**
 * The scan of content.js on concrete words. Each proof instantiates one of
 * the short-word lemmas of `EngineProperties` and evaluates the table
 * lookups it leaves.
 *
 * Each word is given character by character (`|t| == 2 && t[0] == ... &&
 * t[1] == ...`) rather than as a string literal: a literal argument makes
 * the verifier unfold the whole scan and every table lookup at once, which
 * is far more costly than instantiating the general lemmas.
 */
module Examples {
  import opened Wrappers
  import opened ScriptTables
  import opened Engine
  import opened EngineProperties

  const Both: Settings := Settings(true, true)

  /** A vowel sign replaces the inherent vowel: कि gives "ki" (content.js:42, 112-116). */
  lemma MatraAfterConsonant(t: string)
    requires |t| == 2 && t[0] == '\U{0915}' && t[1] == '\U{093F}'
    ensures Transliterate(t, Both) == Returned("ki")
  {
    assert Stripped(LetterOf(Both, '\U{0915}')) + Render(ModifierFragment(Devanagari, '\U{093F}')) == "ki" by {
      assert LetterOf(Both, '\U{0915}') == "k\U{2090}";
      assert Stripped("k\U{2090}") == "k";
      assert ModifierFragment(Devanagari, '\U{093F}') == Text("i");
      assert "k" + "i" == "ki";
    }
    LetterThenSign(t, Both, Devanagari);
  }

  /** A virama removes the inherent vowel and adds nothing: क् gives "k" (content.js:47, 112-116). */
  lemma ViramaAfterConsonant(t: string)
    requires |t| == 2 && t[0] == '\U{0915}' && t[1] == '\U{094D}'
    ensures Transliterate(t, Both) == Returned("k")
  {
    assert Stripped(LetterOf(Both, '\U{0915}')) + Render(ModifierFragment(Devanagari, '\U{094D}')) == "k" by {
      assert LetterOf(Both, '\U{0915}') == "k\U{2090}";
      assert Stripped("k\U{2090}") == "k";
      assert ModifierFragment(Devanagari, '\U{094D}') == Text("");
      assert "k" + "" == "k";
    }
    LetterThenSign(t, Both, Devanagari);
  }

  /**
   * The anusvara lies outside the modifier range and keeps the marker:
   * कं gives "kₐⁿ" (content.js:5-6, 47, 119-120).
   */
  lemma AnusvaraKeepsMarker(t: string)
    requires |t| == 2 && t[0] == '\U{0915}' && t[1] == '\U{0902}'
    ensures Transliterate(t, Both) == Returned("k\U{2090}\U{207F}")
  {
    assert LetterOf(Both, '\U{0915}') + LetterOf(Both, '\U{0902}') == "k\U{2090}\U{207F}" by {
      assert LetterOf(Both, '\U{0915}') == "k\U{2090}";
      assert LetterOf(Both, '\U{0902}') == "\U{207F}";
      assert "k\U{2090}" + "\U{207F}" == "k\U{2090}\U{207F}";
    }
    TwoLetters(t, Both);
  }

  /** The nukta turns "kₐ" into "qₐ" and adds no fragment: क़ gives "qₐ" (content.js:99-108, 117-118). */
  lemma NuktaSubstitutes(t: string)
    requires |t| == 2 && t[0] == '\U{0915}' && t[1] == '\U{093C}'
    ensures Transliterate(t, Both) == Returned("q\U{2090}")
  {
    assert AfterNukta(LetterOf(Both, '\U{0915}')) == "q\U{2090}" by {
      assert LetterOf(Both, '\U{0915}') == "k\U{2090}";
      assert NuktaReplacement("k\U{2090}") == Some("q\U{2090}");
    }
    LetterThenNukta(t, Both, Devanagari);
  }

  /** A nukta after a consonant without a substitute changes nothing: ड़ gives "Dₐ" (content.js:103-107). */
  lemma NuktaWithoutSubstitute(t: string)
    requires |t| == 2 && t[0] == '\U{0921}' && t[1] == '\U{093C}'
    ensures Transliterate(t, Both) == Returned("D\U{2090}")
  {
    assert AfterNukta(LetterOf(Both, '\U{0921}')) == "D\U{2090}" by {
      assert LetterOf(Both, '\U{0921}') == "D\U{2090}";
      assert NuktaReplacement("D\U{2090}") == None;
    }
    LetterThenNukta(t, Both, Devanagari);
  }

  /**
   * The Kannada nukta after a Devanagari consonant uses the shared table:
   * क followed by U+0CBC gives "qₐ" when both scripts are enabled
   * (content.js:100-102, 136-138).
   */
  lemma NuktaAcrossScripts(t: string)
    requires |t| == 2 && t[0] == '\U{0915}' && t[1] == '\U{0CBC}'
    ensures Transliterate(t, Both) == Returned("q\U{2090}")
  {
    assert AfterNukta(LetterOf(Both, '\U{0915}')) == "q\U{2090}" by {
      assert LetterOf(Both, '\U{0915}') == "k\U{2090}";
      assert NuktaReplacement("k\U{2090}") == Some("q\U{2090}");
    }
    LetterThenNukta(t, Both, Kannada);
  }

  /** The strip test is literal: after the vowel अ ("a") the sign ा strips it, giving "aa" (content.js:113-114). */
  lemma MatraStripsVowel(t: string)
    requires |t| == 2 && t[0] == '\U{0905}' && t[1] == '\U{093E}'
    ensures Transliterate(t, Both) == Returned("aa")
  {
    assert Stripped(LetterOf(Both, '\U{0905}')) + Render(ModifierFragment(Devanagari, '\U{093E}')) == "aa" by {
      assert LetterOf(Both, '\U{0905}') == "a";
      assert Stripped("a") == "";
      assert ModifierFragment(Devanagari, '\U{093E}') == Text("aa");
      assert "" + "aa" == "aa";
    }
    LetterThenSign(t, Both, Devanagari);
  }

  /** A Latin "a" passed through verbatim is stripped the same way: "a" + ा gives "aa" (content.js:113-114, 140). */
  lemma MatraStripsLatinA(t: string)
    requires |t| == 2 && t[0] == 'a' && t[1] == '\U{093E}'
    ensures Transliterate(t, Both) == Returned("aa")
  {
    assert Stripped(LetterOf(Both, 'a')) + Render(ModifierFragment(Devanagari, '\U{093E}')) == "aa" by {
      assert LetterOf(Both, 'a') == "a";
      assert Stripped("a") == "";
      assert ModifierFragment(Devanagari, '\U{093E}') == Text("aa");
      assert "" + "aa" == "aa";
    }
    LetterThenSign(t, Both, Devanagari);
  }

  /**
   * The conjunct key क्ष is never matched: क, virama, ष give "kShₐ", not
   * the table's "kshₐ" (content.js:38, 112-121).
   */
  lemma ConjunctComposedMechanically(t: string)
    requires |t| == 3 && t[0] == '\U{0915}' && t[1] == '\U{094D}' && t[2] == '\U{0937}'
    ensures Transliterate(t, Both) == Returned("kSh\U{2090}")
  {
    assert Stripped(LetterOf(Both, '\U{0915}')) + Render(ModifierFragment(Devanagari, '\U{094D}')) + LetterOf(Both, '\U{0937}') == "kSh\U{2090}" by {
      assert LetterOf(Both, '\U{0915}') == "k\U{2090}";
      assert LetterOf(Both, '\U{0937}') == "Sh\U{2090}";
      assert Stripped("k\U{2090}") == "k";
      assert ModifierFragment(Devanagari, '\U{094D}') == Text("");
      assert "k" + "" + "Sh\U{2090}" == "kSh\U{2090}";
    }
    LetterSignLetter(t, Both, Devanagari);
  }

  /** Kannada: ಕಿ gives "ki", the marker being the plain "a" (content.js:69, 78, 112-116). */
  lemma KannadaMatraAfterConsonant(t: string)
    requires |t| == 2 && t[0] == '\U{0C95}' && t[1] == '\U{0CBF}'
    ensures Transliterate(t, Both) == Returned("ki")
  {
    assert Stripped(LetterOf(Both, '\U{0C95}')) + Render(ModifierFragment(Kannada, '\U{0CBF}')) == "ki" by {
      assert LetterOf(Both, '\U{0C95}') == "ka";
      assert Stripped("ka") == "k";
      assert ModifierFragment(Kannada, '\U{0CBF}') == Text("i");
      assert "k" + "i" == "ki";
    }
    LetterThenSign(t, Both, Kannada);
  }

  /** Kannada nukta: ಕ಼ gives "qa" (content.js:102, 117-118). */
  lemma KannadaNuktaSubstitutes(t: string)
    requires |t| == 2 && t[0] == '\U{0C95}' && t[1] == '\U{0CBC}'
    ensures Transliterate(t, Both) == Returned("qa")
  {
    assert AfterNukta(LetterOf(Both, '\U{0C95}')) == "qa" by {
      assert LetterOf(Both, '\U{0C95}') == "ka";
      assert NuktaReplacement("ka") == Some("qa");
    }
    LetterThenNukta(t, Both, Kannada);
  }

  /**
   * An unmapped modifier-range character pushes `undefined`, which joins as
   * "" (content.js:116, 143).
   */
  lemma UnmappedModifierJoinsEmpty(t: string)
    requires |t| == 1 && t[0] == '\U{094E}'
    ensures Transliterate(t, Both) == Returned("")
  {
    assert Render(ModifierFragment(Devanagari, '\U{094E}')) == "" by {
      assert ModifierFragment(Devanagari, '\U{094E}') == Undefined;
    }
    LoneSign(t, Both, Devanagari);
  }

  /** A modifier right after `undefined` makes `undefined.endsWith` throw (content.js:113). */
  lemma UnmappedModifierThenModifierThrows(t: string)
    requires |t| == 2 && t[0] == '\U{094E}' && t[1] == '\U{093E}'
    ensures Transliterate(t, Both) == Threw
  {
    UnmappedSignThenSign(t, Both, Devanagari, Devanagari);
  }

  /** OM has no table entry and is kept as it is (content.js:59, 120). */
  lemma OmKept(t: string)
    requires |t| == 1 && t[0] == '\U{0950}'
    ensures Transliterate(t, Both) == Returned(t)
  {
    assert Inert(Both, '\U{0950}');
    InertTextUnchanged(t, Both);
  }

  /**
   * The Kannada table's dandas are never used: with Devanagari disabled and
   * Kannada enabled a danda passes through (content.js:90, 135-140).
   */
  lemma DandaIgnoredByKannada(t: string)
    requires |t| == 1 && t[0] == '\U{0964}'
    ensures Transliterate(t, Settings(false, true)) == Returned(t)
  {
    PassThrough(t, Settings(false, true));
  }

  /** With Devanagari enabled a danda becomes a full stop and EN QUAD (content.js:56, 135-137). */
  lemma DandaThroughDevanagari(t: string)
    requires |t| == 1 && t[0] == '\U{0964}'
    ensures Transliterate(t, Both) == Returned(['.', EnQuad])
  {
    assert LetterOf(Both, '\U{0964}') == ['.', EnQuad];
    OneLetter(t, Both);
  }
}
