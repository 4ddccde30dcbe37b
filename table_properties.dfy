/**
 * Conventions the character tables of `ScriptTables` follow.
 */
module TableProperties {
  import opened Wrappers
  import opened ScriptTables

  /** The consonant letters of the Devanagari block: U+0915..U+0939 and U+0958..U+095F. */
  predicate DevanagariConsonantLetter(c: char) {
    '\U{0915}' <= c <= '\U{0939}' || '\U{0958}' <= c <= '\U{095F}'
  }

  /** The consonant letters of the Kannada block: U+0C95..U+0CB9 and U+0CDE. */
  predicate KannadaConsonantLetter(c: char) {
    '\U{0C95}' <= c <= '\U{0CB9}' || c == '\U{0CDE}'
  }

  /**
   * In the Devanagari table the marker SUBSCRIPT SMALL A ends the value of
   * every consonant and of nothing else (content.js:25-35, 42-56).
   */
  lemma DevanagariMarkerExactlyOnConsonants(c: char)
    requires DevanagariToItrans(c).Some?
    ensures EndsWith(DevanagariToItrans(c).value, SubscriptA) <==> DevanagariConsonantLetter(c)
  {
  }

  /**
   * Every Kannada consonant in the table ends in the inherent vowel "a"
   * (content.js:69-75). The converse does not hold: the vowels and vowel
   * signs "a" and "aa" end in "a" too.
   */
  lemma KannadaConsonantsEndInA(c: char)
    requires KannadaToItrans(c).Some?
    ensures KannadaConsonantLetter(c) ==> EndsWith(KannadaToItrans(c).value, 'a')
    ensures EndsWith(KannadaToItrans(c).value, 'a') && !KannadaConsonantLetter(c) ==>
      c == '\U{0C85}' || c == '\U{0C86}' || c == '\U{0CBE}'
  {
  }

  /**
   * The bounds of content.js:3-13: each modifier range lies inside its
   * block, each nukta lies in its block but outside its modifier range,
   * and the Devanagari block ends before the Kannada block starts.
   */
  lemma ScriptRanges(sc: Script, c: char)
    ensures IsModifier(sc, c) ==> InBlock(sc, c)
    ensures InBlock(sc, sc.Nukta()) && !IsModifier(sc, sc.Nukta())
    ensures !(InBlock(Devanagari, c) && InBlock(Kannada, c))
  {
  }

  /** Native digits map one-to-one onto the ASCII digits (content.js:52-53, 86-87). */
  lemma DigitsMapToAscii(d: int)
    requires 0 <= d < 10
    ensures DevanagariToItrans((0x966 + d) as char) == Some([('0' as int + d) as char])
    ensures KannadaToItrans((0xCE6 + d) as char) == Some([('0' as int + d) as char])
  {
  }

  /**
   * Danda and double danda become a full stop followed by EN QUAD and EM
   * QUAD respectively, in both tables (content.js:56, 90).
   */
  lemma DandasMapToFullStop()
    ensures DevanagariToItrans('\U{0964}') == Some(['.', EnQuad]) == KannadaToItrans('\U{0964}')
    ensures DevanagariToItrans('\U{0965}') == Some(['.', EmQuad]) == KannadaToItrans('\U{0965}')
  {
  }

  /** No value of the Devanagari table contains a character of either block. */
  lemma DevanagariValuesOutsideBlocks(c: char)
    ensures DevanagariToItrans(c).Some? ==> OutsideBlocks(DevanagariToItrans(c).value)
  {
    match DevanagariToItrans(c)
    case None =>
    case Some(v) =>
      forall j | 0 <= j < |v| ensures !InBlock(Devanagari, v[j]) && !InBlock(Kannada, v[j]) {
      }
  }

  /** No value of the Kannada table contains a character of either block. */
  lemma KannadaValuesOutsideBlocks(c: char)
    ensures KannadaToItrans(c).Some? ==> OutsideBlocks(KannadaToItrans(c).value)
  {
    match KannadaToItrans(c)
    case None =>
    case Some(v) =>
      forall j | 0 <= j < |v| ensures !InBlock(Devanagari, v[j]) && !InBlock(Kannada, v[j]) {
      }
  }

  /** No nukta substitute contains a character of either block. */
  lemma NuktaValuesOutsideBlocks(prev: string)
    ensures NuktaReplacement(prev).Some? ==> OutsideBlocks(NuktaReplacement(prev).value)
  {
    match NuktaReplacement(prev)
    case None =>
    case Some(v) =>
      forall j | 0 <= j < |v| ensures !InBlock(Devanagari, v[j]) && !InBlock(Kannada, v[j]) {
      }
  }

  /** No value of either script's table contains a character of either block. */
  lemma ValuesOutsideBlocks(sc: Script, c: char)
    ensures sc.Lookup(c).Some? ==> OutsideBlocks(sc.Lookup(c).value)
  {
    match sc
    case Devanagari => DevanagariValuesOutsideBlocks(c);
    case Kannada => KannadaValuesOutsideBlocks(c);
  }

  /**
   * The nukta, the candrabindu, anusvara and visarga (U+0901..U+0903) and
   * the vocalic-L signs (U+0962, U+0963) lie in the Devanagari block but
   * outside its modifier range; so do the Kannada nukta, anusvara and
   * visarga in theirs (content.js:5-7, 11-13, 44, 47, 82).
   */
  lemma SignsOutsideModifierRange(c: char)
    ensures '\U{0901}' <= c <= '\U{0903}' || c == DevanagariNukta || c == '\U{0962}' || c == '\U{0963}' ==>
      InBlock(Devanagari, c) && !IsModifier(Devanagari, c) && DevanagariToItrans(c).Some?
    ensures c == '\U{0C82}' || c == '\U{0C83}' || c == KannadaNukta ==>
      InBlock(Kannada, c) && !IsModifier(Kannada, c)
  {
  }

  /**
   * The modifier-range characters without a table entry: U+0946, U+094A,
   * U+094E and U+094F for Devanagari, U+0CC5 and U+0CC9 for Kannada.
   */
  lemma UnmappedModifiers(c: char)
    ensures IsModifier(Devanagari, c) ==>
      (DevanagariToItrans(c).None? <==> c == '\U{0946}' || c == '\U{094A}' || c == '\U{094E}' || c == '\U{094F}')
    ensures IsModifier(Kannada, c) ==>
      (KannadaToItrans(c).None? <==> c == '\U{0CC5}' || c == '\U{0CC9}')
  {
  }

  /**
   * The empty-string values are those of the viramas, which lie in the
   * modifier range, and of the Devanagari nukta, which the nukta branch
   * handles; so the `mapping[c] || c` fallback of an ordinary letter never
   * meets an empty value (content.js:47-48, 82, 116-120).
   */
  lemma EmptyValuesOnlyForViramaAndNukta(c: char)
    ensures DevanagariToItrans(c) == Some("") <==> c == '\U{094D}' || c == DevanagariNukta
    ensures KannadaToItrans(c) == Some("") <==> c == '\U{0CCD}'
    ensures IsModifier(Devanagari, '\U{094D}') && IsModifier(Kannada, '\U{0CCD}')
  {
  }

  /**
   * The dandas of the Kannada table lie in the Devanagari block, which is
   * tested first, and outside the Kannada block (content.js:90, 135-138).
   */
  lemma KannadaDandasOutsideKannadaBlock()
    ensures KannadaToItrans('\U{0964}').Some? && KannadaToItrans('\U{0965}').Some?
    ensures InBlock(Devanagari, '\U{0964}') && !InBlock(Kannada, '\U{0964}')
    ensures InBlock(Devanagari, '\U{0965}') && !InBlock(Kannada, '\U{0965}')
  {
  }

  /**
   * The keys of more than one character (content.js:32, 38-39) equal no
   * one-character string, so a lookup by `text[i]` never finds them.
   */
  lemma MultiUnitKeysUnreachable(c: char)
    ensures [c] !in DevanagariMultiUnitEntries
    ensures forall k :: k in DevanagariMultiUnitEntries ==> |k| >= 2
  {
  }
}
