/**
 * The constant data of the transliterator (content.js:3-13, 18-92, 100-104):
 * the block and modifier-range bounds of each script, the nukta code points,
 * the two character tables, and the substitution table used by the nukta.
 *
 * Each JavaScript object literal is modelled as a lookup function whose
 * `None` is the `undefined` that a missing key yields. Every lookup in the
 * engine is made with a single character `text[i]`, so the tables are
 * functions of one `char`, matched on its code point; the keys made of
 * several characters are kept apart, in `DevanagariMultiUnitEntries`, where
 * no lookup can reach them.
 */
module ScriptTables {
  import opened Wrappers

  // ---------------------------------------------------------------------
  // Block bounds, modifier ranges and nukta (content.js:3-13)
  // ---------------------------------------------------------------------

  const DevanagariStart: char := '\U{0900}'
  const DevanagariEnd: char := '\U{097F}'
  const DevanagariModifierStart: char := '\U{093E}'
  const DevanagariModifierEnd: char := '\U{094F}'
  const DevanagariNukta: char := '\U{093C}'

  const KannadaStart: char := '\U{0C80}'
  const KannadaEnd: char := '\U{0CFF}'
  const KannadaModifierStart: char := '\U{0CBE}'
  const KannadaModifierEnd: char := '\U{0CCD}'
  const KannadaNukta: char := '\U{0CBC}'

  /** The inherent-vowel marker of the Devanagari table, SUBSCRIPT SMALL A. */
  const SubscriptA: char := '\U{2090}'

  /** EN QUAD and EM QUAD, which follow the full stop in the danda values. */
  const EnQuad: char := '\U{2000}'
  const EmQuad: char := '\U{2001}'

  // ---------------------------------------------------------------------
  // Devanagari to ITRANS (content.js:18-60)
  // ---------------------------------------------------------------------

  /** `devanagariToITRANS[c]` for a single character `c`. */
  function DevanagariToItrans(c: char): Option<string> {
    match c as int
    // Vowels
    case 0x0905 => Some("a")   case 0x0906 => Some("aa")  case 0x0907 => Some("i")
    case 0x0908 => Some("ii")  case 0x0909 => Some("u")   case 0x090A => Some("uu")
    case 0x090B => Some("RRi") case 0x0960 => Some("RRI") case 0x090C => Some("LLi")
    case 0x0961 => Some("LLI")
    case 0x090F => Some("e")   case 0x0910 => Some("ai")  case 0x0911 => Some("o")
    case 0x0913 => Some("o")   case 0x0914 => Some("au")
    // Consonants
    case 0x0915 => Some("k\U{2090}")  case 0x0916 => Some("kh\U{2090}") case 0x0917 => Some("g\U{2090}")
    case 0x0918 => Some("gh\U{2090}") case 0x0919 => Some("gn\U{2090}")
    case 0x091A => Some("ch\U{2090}") case 0x091B => Some("Ch\U{2090}") case 0x091C => Some("j\U{2090}")
    case 0x091D => Some("jh\U{2090}") case 0x091E => Some("jn\U{2090}")
    case 0x091F => Some("T\U{2090}")  case 0x0920 => Some("Th\U{2090}") case 0x0921 => Some("D\U{2090}")
    case 0x0922 => Some("Dh\U{2090}") case 0x0923 => Some("N\U{2090}")
    case 0x0924 => Some("t\U{2090}")  case 0x0925 => Some("th\U{2090}") case 0x0926 => Some("d\U{2090}")
    case 0x0927 => Some("dh\U{2090}") case 0x0928 => Some("n\U{2090}")
    case 0x092A => Some("p\U{2090}")  case 0x092B => Some("ph\U{2090}") case 0x092C => Some("b\U{2090}")
    case 0x092D => Some("bh\U{2090}") case 0x092E => Some("m\U{2090}")
    case 0x092F => Some("y\U{2090}")  case 0x0930 => Some("r\U{2090}")  case 0x0932 => Some("l\U{2090}")
    case 0x0935 => Some("v\U{2090}")  case 0x0936 => Some("sh\U{2090}")
    case 0x0937 => Some("Sh\U{2090}") case 0x0938 => Some("s\U{2090}")  case 0x0939 => Some("h\U{2090}")
    case 0x0933 => Some("L\U{2090}")
    // Precomposed nukta consonants U+0958..U+095F: ordinary single letters
    case 0x0958 => Some("q\U{2090}")  case 0x0959 => Some("qh\U{2090}") case 0x095A => Some("g\U{2090}")
    case 0x095B => Some("z\U{2090}")  case 0x095C => Some("r\U{2090}")  case 0x095D => Some("rh\U{2090}")
    case 0x095E => Some("f\U{2090}")  case 0x095F => Some("yy\U{2090}")
    // Vowel signs; U+0962 and U+0963 lie outside the modifier range
    case 0x093E => Some("aa")  case 0x093F => Some("i")   case 0x0940 => Some("ii")
    case 0x0941 => Some("u")   case 0x0942 => Some("uu")
    case 0x0947 => Some("e")   case 0x0948 => Some("ai")  case 0x094B => Some("o")
    case 0x094C => Some("au")  case 0x0943 => Some("ri")
    case 0x0944 => Some("RRI") case 0x0962 => Some("LLi") case 0x0963 => Some("LLI")
    // Virama, anusvara, visarga, candrabindu, nukta, candra vowel signs
    case 0x094D => Some("")    case 0x0902 => Some("\U{207F}") case 0x0903 => Some("H")
    case 0x0901 => Some("\U{207F}")
    case 0x093C => Some("")
    case 0x0945 => Some("e")   case 0x0949 => Some("o")
    // Digits
    case 0x0966 => Some("0") case 0x0967 => Some("1") case 0x0968 => Some("2")
    case 0x0969 => Some("3") case 0x096A => Some("4") case 0x096B => Some("5")
    case 0x096C => Some("6") case 0x096D => Some("7") case 0x096E => Some("8")
    case 0x096F => Some("9")
    // Danda, double danda, and the space key
    case 0x0964 => Some(".\U{2000}") case 0x0965 => Some(".\U{2001}")
    case 0x0020 => Some(" ")
    // U+0950 OM and every other character: no entry
    case _ => None
  }

  /**
   * The keys of the Devanagari object literal that are longer than one
   * character (content.js:32, 38-39): a consonant followed by the combining
   * nukta, and the two conjuncts. They exist in the source table but are
   * never looked up.
   */
  const DevanagariMultiUnitEntries: map<string, string> := map[
    "\U{091C}\U{093C}" := "z\U{2090}", "\U{092B}\U{093C}" := "f\U{2090}",
    "\U{0915}\U{094D}\U{0937}" := "ksh\U{2090}", "\U{091C}\U{094D}\U{091E}" := "gy\U{2090}"
  ]

  // ---------------------------------------------------------------------
  // Kannada to ITRANS (content.js:63-92)
  // ---------------------------------------------------------------------

  /**
   * `kannadaToITRANS[c]` for a single character `c`. The source lists
   * U+0CC6 and U+0CCA twice (content.js:79, 83) with the same values; each
   * appears once here.
   */
  function KannadaToItrans(c: char): Option<string> {
    match c as int
    // Vowels
    case 0x0C85 => Some("a")   case 0x0C86 => Some("aa")  case 0x0C87 => Some("i")
    case 0x0C88 => Some("ii")  case 0x0C89 => Some("u")   case 0x0C8A => Some("uu")
    case 0x0C8B => Some("RRi") case 0x0CE0 => Some("RRI") case 0x0C8E => Some("e")
    case 0x0C8F => Some("ee")  case 0x0C90 => Some("ai")  case 0x0C92 => Some("o")
    case 0x0C93 => Some("oo")  case 0x0C94 => Some("au")
    // Consonants
    case 0x0C95 => Some("ka")  case 0x0C96 => Some("kha") case 0x0C97 => Some("ga")
    case 0x0C98 => Some("gha") case 0x0C99 => Some("gna")
    case 0x0C9A => Some("cha") case 0x0C9B => Some("Cha") case 0x0C9C => Some("ja")
    case 0x0C9D => Some("jha") case 0x0C9E => Some("jna")
    case 0x0C9F => Some("Ta")  case 0x0CA0 => Some("Tha") case 0x0CA1 => Some("Da")
    case 0x0CA2 => Some("Dha") case 0x0CA3 => Some("Na")
    case 0x0CA4 => Some("ta")  case 0x0CA5 => Some("tha") case 0x0CA6 => Some("da")
    case 0x0CA7 => Some("dha") case 0x0CA8 => Some("na")
    case 0x0CAA => Some("pa")  case 0x0CAB => Some("pha") case 0x0CAC => Some("ba")
    case 0x0CAD => Some("bha") case 0x0CAE => Some("ma")
    case 0x0CAF => Some("ya")  case 0x0CB0 => Some("ra")  case 0x0CB2 => Some("la")
    case 0x0CB5 => Some("va")  case 0x0CB6 => Some("sha")
    case 0x0CB7 => Some("Sha") case 0x0CB8 => Some("sa")  case 0x0CB9 => Some("ha")
    case 0x0CB3 => Some("La")  case 0x0CDE => Some("LLa")
    // Vowel signs
    case 0x0CBE => Some("aa")  case 0x0CBF => Some("i")   case 0x0CC0 => Some("ii")
    case 0x0CC1 => Some("u")   case 0x0CC2 => Some("uu")
    case 0x0CC6 => Some("e")   case 0x0CC7 => Some("ee")  case 0x0CC8 => Some("ai")
    case 0x0CCA => Some("o")   case 0x0CCB => Some("oo")  case 0x0CCC => Some("au")
    case 0x0CC3 => Some("ru")  case 0x0CC4 => Some("RRI")
    // Virama, anusvara, visarga
    case 0x0CCD => Some("")    case 0x0C82 => Some("\U{207F}") case 0x0C83 => Some("H")
    // Digits
    case 0x0CE6 => Some("0") case 0x0CE7 => Some("1") case 0x0CE8 => Some("2")
    case 0x0CE9 => Some("3") case 0x0CEA => Some("4") case 0x0CEB => Some("5")
    case 0x0CEC => Some("6") case 0x0CED => Some("7") case 0x0CEE => Some("8")
    case 0x0CEF => Some("9")
    // The Devanagari dandas, and the space key
    case 0x0964 => Some(".\U{2000}") case 0x0965 => Some(".\U{2001}")
    case 0x0020 => Some(" ")
    case _ => None
  }

  // ---------------------------------------------------------------------
  // Nukta substitutions (content.js:100-104)
  // ---------------------------------------------------------------------

  /** `nuktaReplacements[prev]`, the table of `handleNukta`, shared by both scripts. */
  function NuktaReplacement(prev: string): Option<string> {
    match prev
    case "k\U{2090}" => Some("q\U{2090}")   case "kh\U{2090}" => Some("qh\U{2090}")
    case "j\U{2090}" => Some("z\U{2090}")   case "ph\U{2090}" => Some("f\U{2090}")
    case "ka" => Some("qa") case "kha" => Some("qha") case "ja" => Some("za") case "pha" => Some("fa")
    case _ => None
  }

  // ---------------------------------------------------------------------
  // One script, as the engine sees it
  // ---------------------------------------------------------------------

  /**
   * A script the scan knows. Its member functions give the arguments that
   * `appendTransliteratedChar` receives for it (content.js:110, 136, 138)
   * and the block bounds the scan tests.
   */
  datatype Script = Devanagari | Kannada {
    function BlockStart(): char {
      match this case Devanagari => DevanagariStart case Kannada => KannadaStart
    }
    function BlockEnd(): char {
      match this case Devanagari => DevanagariEnd case Kannada => KannadaEnd
    }
    function ModifierStart(): char {
      match this case Devanagari => DevanagariModifierStart case Kannada => KannadaModifierStart
    }
    function ModifierEnd(): char {
      match this case Devanagari => DevanagariModifierEnd case Kannada => KannadaModifierEnd
    }
    function Nukta(): char {
      match this case Devanagari => DevanagariNukta case Kannada => KannadaNukta
    }
    function Lookup(c: char): Option<string> {
      match this case Devanagari => DevanagariToItrans(c) case Kannada => KannadaToItrans(c)
    }
  }

  predicate InBlock(sc: Script, c: char) {
    sc.BlockStart() <= c <= sc.BlockEnd()
  }

  predicate IsModifier(sc: Script, c: char) {
    sc.ModifierStart() <= c <= sc.ModifierEnd()
  }

  /** No character of `t` lies in the Devanagari or the Kannada block. */
  predicate OutsideBlocks(t: string) {
    forall j :: 0 <= j < |t| ==> !InBlock(Devanagari, t[j]) && !InBlock(Kannada, t[j])
  }

  predicate EndsWith(t: string, c: char) {
    |t| > 0 && t[|t| - 1] == c
  }
}
