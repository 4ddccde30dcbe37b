/**
 * What the scan of content.js promises, proved about the functions of
 * `Engine`: pass-through of everything outside the enabled blocks,
 * idempotence, the bookkeeping of fragments, the modifier and nukta rules,
 * and the behaviour on concrete words.
 */
module EngineProperties {
  import opened Wrappers
  import opened ScriptTables
  import opened TableProperties
  import opened Engine

  // ---------------------------------------------------------------------
  // Characters the scan copies whatever precedes them
  // ---------------------------------------------------------------------

  /**
   * `c` is copied verbatim by the scan in every context: no enabled script
   * owns it, or it is an ordinary letter of its script that has no (or an
   * empty) table value.
   */
  predicate Inert(s: Settings, c: char) {
    match OwningScript(s, c)
    case None => true
    case Some(sc) => !IsModifier(sc, c) && c != sc.Nukta() && LetterText(sc, c) == [c]
  }

  predicate InertText(s: Settings, t: string) {
    forall i :: 0 <= i < |t| ==> Inert(s, t[i])
  }

  predicate InertFragments(s: Settings, fragments: seq<Fragment>) {
    forall j :: 0 <= j < |fragments| ==> InertText(s, Render(fragments[j]))
  }

  /** One fragment per character, each holding that character. */
  function Singletons(t: string): (r: seq<Fragment>)
    ensures |r| == |t|
    ensures forall i :: 0 <= i < |t| ==> r[i] == Text([t[i]])
  {
    seq(|t|, i requires 0 <= i < |t| => Text([t[i]]))
  }

  lemma InertStep(fragments: seq<Fragment>, c: char, s: Settings)
    requires Inert(s, c)
    ensures ScanChar(fragments, c, s) == Some(fragments + [Text([c])])
  {
  }

  /** A text of inert characters is scanned into one singleton fragment per character. */
  lemma {:induction false} InertScan(t: string, s: Settings)
    requires InertText(s, t)
    ensures Scan(t, s) == Some(Singletons(t))
  {
    if |t| > 0 {
      var p := t[..|t| - 1];
      InertScan(p, s);
      InertStep(Singletons(p), t[|t| - 1], s);
      assert Singletons(p) + [Text([t[|t| - 1]])] == Singletons(t);
    }
  }

  /** Joining singleton fragments gives the text back. */
  lemma {:induction false} JoinSingletons(t: string)
    ensures Join(Singletons(t)) == t
  {
    if |t| > 0 {
      var p := t[..|t| - 1];
      JoinSingletons(p);
      assert Singletons(t)[..|t| - 1] == Singletons(p);
      assert p + [t[|t| - 1]] == t;
    }
  }

  /** A text of inert characters is returned unchanged. */
  lemma InertTextUnchanged(t: string, s: Settings)
    requires InertText(s, t)
    ensures Transliterate(t, s) == Returned(t)
  {
    if t != "" && (s.devanagari || s.kannada) {
      InertScan(t, s);
      JoinSingletons(t);
    }
  }

  /**
   * Pass-through: a text with no character in an enabled script's block is
   * returned unchanged (content.js:126-131, 139-140).
   */
  lemma PassThrough(t: string, s: Settings)
    requires forall i :: 0 <= i < |t| ==> OwningScript(s, t[i]).None?
    ensures Transliterate(t, s) == Returned(t)
  {
    InertTextUnchanged(t, s);
  }

  /**
   * The early returns for the empty string and for both scripts disabled
   * (content.js:126-131) are only a short cut: the loop alone would build
   * one singleton fragment per character, which join to the input.
   */
  lemma ShortCutAgreesWithLoop(t: string, s: Settings)
    requires !s.devanagari && !s.kannada
    ensures Scan(t, s) == Some(Singletons(t)) && Join(Singletons(t)) == t
    ensures Transliterate(t, s) == Returned(t)
  {
    InertScan(t, s);
    JoinSingletons(t);
  }

  /** Before the settings are loaded, every text is left as it is (content.js:94). */
  lemma InitialSettingsChangeNothing(t: string)
    ensures Transliterate(t, InitialSettings) == Returned(t)
  {
  }

  /**
   * Disabled-script pass-through: a character of a disabled script's block
   * is pushed verbatim whatever precedes it (content.js:135-140).
   */
  lemma DisabledScriptPassesThrough(fragments: seq<Fragment>, c: char, s: Settings, sc: Script)
    requires InBlock(sc, c) && !Enabled(s, sc)
    ensures ScanChar(fragments, c, s) == Some(fragments + [Text([c])])
  {
  }

  // ---------------------------------------------------------------------
  // Idempotence
  // ---------------------------------------------------------------------

  lemma OutsideBlocksInert(s: Settings, t: string)
    requires OutsideBlocks(t)
    ensures InertText(s, t)
  {
    forall i | 0 <= i < |t| ensures Inert(s, t[i]) {
      assert !InBlock(Devanagari, t[i]) && !InBlock(Kannada, t[i]);
    }
  }

  lemma InertConcat(s: Settings, a: string, b: string)
    requires InertText(s, a) && InertText(s, b)
    ensures InertText(s, a + b)
  {
    forall i | 0 <= i < |a + b| ensures Inert(s, (a + b)[i]) {
      if i < |a| {
        assert (a + b)[i] == a[i];
      } else {
        assert (a + b)[i] == b[i - |a|];
      }
    }
  }

  lemma {:induction false} JoinInert(s: Settings, fragments: seq<Fragment>)
    requires InertFragments(s, fragments)
    ensures InertText(s, Join(fragments))
  {
    if |fragments| > 0 {
      var init := fragments[..|fragments| - 1];
      JoinInert(s, init);
      InertConcat(s, Join(init), Render(fragments[|fragments| - 1]));
    }
  }

  /** Every step keeps every fragment made of inert characters. */
  lemma StepKeepsInert(fragments: seq<Fragment>, c: char, s: Settings)
    requires InertFragments(s, fragments)
    requires ScanChar(fragments, c, s).Some?
    ensures InertFragments(s, ScanChar(fragments, c, s).value)
  {
    var r := ScanChar(fragments, c, s).value;
    match OwningScript(s, c)
    case None =>
      assert r == fragments + [Text([c])];
    case Some(sc) =>
      ValuesOutsideBlocks(sc, c);
      if IsModifier(sc, c) {
        OutsideBlocksInert(s, Render(ModifierFragment(sc, c)));
        var prev := PrevLetter(fragments);
        if |fragments| > 0 && EndsWithMarker(prev.s) {
          assert InertText(s, prev.s);
          assert InertText(s, prev.s[..|prev.s| - 1]);
        }
      } else if c == sc.Nukta() {
        var prev := PrevLetter(fragments);
        if prev.Text? {
          NuktaValuesOutsideBlocks(prev.s);
          if NuktaReplacement(prev.s).Some? {
            OutsideBlocksInert(s, NuktaReplacement(prev.s).value);
          }
        }
      } else {
        if sc.Lookup(c).Some? {
          OutsideBlocksInert(s, sc.Lookup(c).value);
        }
        assert InertText(s, LetterText(sc, c));
      }
  }

  /** The scan only ever produces fragments made of inert characters. */
  lemma {:induction false} ScanInert(t: string, s: Settings)
    requires Scan(t, s).Some?
    ensures InertFragments(s, Scan(t, s).value)
  {
    if |t| > 0 {
      ScanInert(t[..|t| - 1], s);
      StepKeepsInert(Scan(t[..|t| - 1], s).value, t[|t| - 1], s);
    }
  }

  /**
   * Idempotence: transliterating the output again, with the same settings,
   * returns it unchanged.
   */
  lemma Idempotent(t: string, s: Settings)
    requires Transliterate(t, s).Returned?
    ensures Transliterate(Transliterate(t, s).text, s) == Transliterate(t, s)
  {
    var out := Transliterate(t, s).text;
    if t != "" && (s.devanagari || s.kannada) {
      ScanInert(t, s);
      JoinInert(s, Scan(t, s).value);
      InertTextUnchanged(out, s);
    } else {
      InertTextUnchanged(out, s);
    }
  }

  // ---------------------------------------------------------------------
  // Bookkeeping of fragments
  // ---------------------------------------------------------------------

  /** The scan of `t + [c]` is the scan of `t` followed by one step. */
  lemma ScanSnoc(t: string, c: char, s: Settings)
    ensures Scan(t + [c], s) == match Scan(t, s) case None => None case Some(f) => ScanChar(f, c, s)
  {
    assert (t + [c])[..|t|] == t;
  }

  /**
   * Scanning further never shortens the fragment list and never touches a
   * fragment before the last one: only `replacementText[length - 1]` is
   * ever overwritten (content.js:106, 114).
   */
  lemma {:induction false} EarlierFragmentsNeverChange(t: string, n: nat, s: Settings)
    requires n <= |t| && Scan(t, s).Some?
    ensures Scan(t[..n], s).Some?
    ensures var before, after := Scan(t[..n], s).value, Scan(t, s).value;
      |before| <= |after| && forall j :: 0 <= j < |before| - 1 ==> after[j] == before[j]
    decreases |t| - n
  {
    if n == |t| {
      assert t[..n] == t;
    } else {
      var p := t[..|t| - 1];
      assert p[..n] == t[..n];
      assert Scan(p, s).Some?;
      EarlierFragmentsNeverChange(p, n, s);
    }
  }

  // ---------------------------------------------------------------------
  // The rules of one step
  // ---------------------------------------------------------------------

  lemma JoinSnoc(f: seq<Fragment>, x: Fragment)
    ensures Join(f + [x]) == Join(f) + Render(x)
  {
    assert (f + [x])[..|f|] == f;
  }

  /**
   * Any other character of an enabled block pushes its table value, or
   * itself when it has none (or an empty one); it is never dropped
   * (content.js:119-121).
   */
  lemma LetterRule(f: seq<Fragment>, c: char, s: Settings, sc: Script)
    requires OwningScript(s, c) == Some(sc) && !IsModifier(sc, c) && c != sc.Nukta()
    ensures ScanChar(f, c, s) == Some(f + [Text(LetterText(sc, c))])
    ensures LetterText(sc, c) != ""
    ensures sc.Lookup(c).None? ==> LetterText(sc, c) == [c]
    ensures sc.Lookup(c).Some? ==> LetterText(sc, c) == sc.Lookup(c).value
  {
    EmptyValuesOnlyForViramaAndNukta(c);
  }

  /**
   * A modifier-range character strips exactly one trailing character, the
   * `'ₐ'` or `'a'`, from a last fragment that ends in one, and then pushes
   * its own value (content.js:112-116).
   */
  lemma ModifierRule(f: seq<Fragment>, t: string, c: char, s: Settings, sc: Script)
    requires OwningScript(s, c) == Some(sc) && IsModifier(sc, c)
    ensures EndsWithMarker(t) ==>
      ScanChar(f + [Text(t)], c, s) == Some(f + [Text(t[..|t| - 1])] + [ModifierFragment(sc, c)])
    ensures !EndsWithMarker(t) ==>
      ScanChar(f + [Text(t)], c, s) == Some(f + [Text(t)] + [ModifierFragment(sc, c)])
    ensures ScanChar([], c, s) == Some([] + [ModifierFragment(sc, c)])
  {
    var g := f + [Text(t)];
    assert g[..|g| - 1] == f;
  }

  /**
   * On the joined output a modifier removes exactly one character, and only
   * when the last fragment ends in the marker; then it appends its value.
   */
  lemma ModifierStripsOneCharacter(f: seq<Fragment>, t: string, c: char, s: Settings, sc: Script)
    requires OwningScript(s, c) == Some(sc) && IsModifier(sc, c)
    ensures var before := Join(f + [Text(t)]);
      ScanChar(f + [Text(t)], c, s).Some? &&
      Join(ScanChar(f + [Text(t)], c, s).value)
        == before[..|before| - (if EndsWithMarker(t) then 1 else 0)] + Render(ModifierFragment(sc, c))
  {
    ModifierRule(f, t, c, s, sc);
    JoinSnoc(f, Text(t));
    var m := ModifierFragment(sc, c);
    var before := Join(f) + t;
    if EndsWithMarker(t) {
      var stripped := t[..|t| - 1];
      JoinSnoc(f + [Text(stripped)], m);
      JoinSnoc(f, Text(stripped));
      assert before[..|before| - 1] == Join(f) + stripped;
    } else {
      JoinSnoc(f + [Text(t)], m);
      assert before[..|before|] == before;
    }
  }

  /**
   * A modifier right after an `undefined` fragment throws; nothing else
   * throws (content.js:113).
   */
  lemma ModifierAfterUndefinedThrows(f: seq<Fragment>, c: char, s: Settings)
    ensures ScanChar(f, c, s).None? <==>
      OwningScript(s, c).Some? && IsModifier(OwningScript(s, c).value, c) && |f| > 0 && f[|f| - 1].Undefined?
  {
  }

  /**
   * The nukta pushes nothing: it replaces a last fragment that has a
   * substitute, and otherwise leaves the fragments as they are
   * (content.js:99-108, 117-118).
   */
  lemma NuktaRule(f: seq<Fragment>, t: string, c: char, s: Settings, sc: Script)
    requires OwningScript(s, c) == Some(sc) && c == sc.Nukta()
    ensures NuktaReplacement(t).Some? ==>
      ScanChar(f + [Text(t)], c, s) == Some(f + [Text(NuktaReplacement(t).value)])
    ensures NuktaReplacement(t).None? ==> ScanChar(f + [Text(t)], c, s) == Some(f + [Text(t)])
    ensures ScanChar(f + [Undefined], c, s) == Some(f + [Undefined])
    ensures ScanChar([], c, s) == Some([])
  {
    var g := f + [Text(t)];
    assert g[..|g| - 1] == f;
  }

  // ---------------------------------------------------------------------
  // Short words
  // ---------------------------------------------------------------------

  /**
   * `c` starts a fragment of its own: no enabled script owns it, or it is
   * neither a modifier nor the nukta of the script that does.
   */
  predicate IsLetter(s: Settings, c: char) {
    match OwningScript(s, c)
    case None => true
    case Some(sc) => !IsModifier(sc, c) && c != sc.Nukta()
  }

  /** The text the letter `c` pushes: its table value or, failing that, itself (content.js:119-120, 140). */
  function LetterOf(s: Settings, c: char): (r: string)
    requires IsLetter(s, c)
    ensures r != ""
    ensures OwningScript(s, c).None? ==> r == [c]
  {
    match OwningScript(s, c)
    case None => [c]
    case Some(sc) => LetterRule([], c, s, sc); LetterText(sc, c)
  }

  /** `t` without its trailing `'ₐ'` or `'a'`, when it ends in one (content.js:113-115). */
  function Stripped(t: string): string {
    if EndsWithMarker(t) then t[..|t| - 1] else t
  }

  /** A fragment's text after a nukta: its substitute, or itself when it has none (content.js:105-107). */
  function AfterNukta(t: string): string {
    match NuktaReplacement(t)
    case Some(r) => r
    case None => t
  }

  lemma LetterStep(f: seq<Fragment>, c: char, s: Settings)
    requires IsLetter(s, c)
    ensures ScanChar(f, c, s) == Some(f + [Text(LetterOf(s, c))])
  {
    match OwningScript(s, c)
    case None =>
    case Some(sc) => LetterRule(f, c, s, sc);
  }

  lemma ScanLetter(t: string, s: Settings)
    requires |t| == 1 && IsLetter(s, t[0])
    ensures Scan(t, s) == Some([Text(LetterOf(s, t[0]))])
  {
    ScanSnoc("", t[0], s);
    assert "" + [t[0]] == t;
    LetterStep([], t[0], s);
    assert [] + [Text(LetterOf(s, t[0]))] == [Text(LetterOf(s, t[0]))];
  }

  lemma ScanLetterSign(t: string, s: Settings, sm: Script)
    requires |t| == 2 && IsLetter(s, t[0]) && OwningScript(s, t[1]) == Some(sm) && IsModifier(sm, t[1])
    ensures Scan(t, s) == Some([Text(Stripped(LetterOf(s, t[0])))] + [ModifierFragment(sm, t[1])])
  {
    var a := LetterOf(s, t[0]);
    var p := t[..1];
    assert p[0] == t[0];
    ScanLetter(p, s);
    ScanSnoc(p, t[1], s);
    assert p + [t[1]] == t;
    ModifierRule([], a, t[1], s, sm);
    assert [] + [Text(a)] == [Text(a)];
    assert [] + [Text(Stripped(a))] == [Text(Stripped(a))];
  }

  /** The scan's fragments, joined, are what `transliterateToITRANS` returns (content.js:129-143). */
  lemma ReturnsJoin(t: string, s: Settings, f: seq<Fragment>)
    requires t != "" && (s.devanagari || s.kannada) && Scan(t, s) == Some(f)
    ensures Transliterate(t, s) == Returned(Join(f))
  {
  }

  lemma JoinPair(x: Fragment, y: Fragment)
    ensures Join([x] + [y]) == Render(x) + Render(y)
  {
    JoinSnoc([x], y);
    JoinSnoc([], x);
    assert [] + [x] == [x];
  }

  /** A letter on its own is replaced by its text (content.js:119-120, 140). */
  lemma OneLetter(t: string, s: Settings)
    requires |t| == 1 && IsLetter(s, t[0]) && (s.devanagari || s.kannada)
    ensures Transliterate(t, s) == Returned(LetterOf(s, t[0]))
  {
    ScanLetter(t, s);
    ReturnsJoin(t, s, [Text(LetterOf(s, t[0]))]);
    JoinSnoc([], Text(LetterOf(s, t[0])));
    assert [] + [Text(LetterOf(s, t[0]))] == [Text(LetterOf(s, t[0]))];
  }

  /** Two letters in a row are each replaced by their own text (content.js:119-120, 140). */
  lemma TwoLetters(t: string, s: Settings)
    requires |t| == 2 && IsLetter(s, t[0]) && IsLetter(s, t[1]) && (s.devanagari || s.kannada)
    ensures Transliterate(t, s) == Returned(LetterOf(s, t[0]) + LetterOf(s, t[1]))
  {
    var a := LetterOf(s, t[0]);
    var b := LetterOf(s, t[1]);
    var p := t[..1];
    assert p[0] == t[0];
    ScanLetter(p, s);
    ScanSnoc(p, t[1], s);
    assert p + [t[1]] == t;
    LetterStep([Text(a)], t[1], s);
    ReturnsJoin(t, s, [Text(a)] + [Text(b)]);
    JoinPair(Text(a), Text(b));
  }

  /**
   * A vowel sign or virama after a letter strips that letter's trailing
   * marker, if it has one, and appends its own value (content.js:112-116).
   */
  lemma LetterThenSign(t: string, s: Settings, sm: Script)
    requires |t| == 2 && IsLetter(s, t[0]) && OwningScript(s, t[1]) == Some(sm) && IsModifier(sm, t[1])
    ensures Transliterate(t, s) == Returned(Stripped(LetterOf(s, t[0])) + Render(ModifierFragment(sm, t[1])))
  {
    var b := Stripped(LetterOf(s, t[0]));
    ScanLetterSign(t, s, sm);
    ReturnsJoin(t, s, [Text(b)] + [ModifierFragment(sm, t[1])]);
    JoinPair(Text(b), ModifierFragment(sm, t[1]));
  }

  /**
   * A letter, a sign, a letter: the third character starts a fresh fragment,
   * so no key of several characters is ever looked up (content.js:112-121).
   */
  lemma LetterSignLetter(t: string, s: Settings, sm: Script)
    requires |t| == 3 && IsLetter(s, t[0]) && OwningScript(s, t[1]) == Some(sm) && IsModifier(sm, t[1])
    requires IsLetter(s, t[2])
    ensures Transliterate(t, s)
      == Returned(Stripped(LetterOf(s, t[0])) + Render(ModifierFragment(sm, t[1])) + LetterOf(s, t[2]))
  {
    var b := Stripped(LetterOf(s, t[0]));
    var m := ModifierFragment(sm, t[1]);
    var c := LetterOf(s, t[2]);
    var p := t[..2];
    assert p[0] == t[0] && p[1] == t[1];
    ScanLetterSign(p, s, sm);
    ScanSnoc(p, t[2], s);
    assert p + [t[2]] == t;
    LetterStep([Text(b)] + [m], t[2], s);
    ReturnsJoin(t, s, [Text(b)] + [m] + [Text(c)]);
    JoinSnoc([Text(b)] + [m], Text(c));
    JoinPair(Text(b), m);
  }

  /**
   * A nukta after a letter replaces the letter's text by its nukta
   * substitute, when it has one, and adds nothing (content.js:99-108, 117-118).
   */
  lemma LetterThenNukta(t: string, s: Settings, sn: Script)
    requires |t| == 2 && IsLetter(s, t[0]) && OwningScript(s, t[1]) == Some(sn) && t[1] == sn.Nukta()
    ensures Transliterate(t, s) == Returned(AfterNukta(LetterOf(s, t[0])))
  {
    var p := t[..1];
    assert p[0] == t[0];
    ScanLetter(p, s);
    NuktaAfterFragment(t, s, sn, LetterOf(s, t[0]));
  }

  /** A nukta after a single fragment `a` leaves `AfterNukta(a)` (content.js:99-108, 117-118). */
  lemma NuktaAfterFragment(t: string, s: Settings, sn: Script, a: string)
    requires |t| == 2 && Scan(t[..1], s) == Some([Text(a)])
    requires OwningScript(s, t[1]) == Some(sn) && t[1] == sn.Nukta()
    ensures Transliterate(t, s) == Returned(AfterNukta(a))
  {
    var p := t[..1];
    var r := AfterNukta(a);
    ScanSnoc(p, t[1], s);
    assert p + [t[1]] == t;
    NuktaOnSingleFragment(a, t[1], s, sn);
    ReturnsJoin(t, s, [Text(r)]);
    JoinSnoc([], Text(r));
    assert [] + [Text(r)] == [Text(r)];
  }

  lemma NuktaOnSingleFragment(a: string, c: char, s: Settings, sn: Script)
    requires OwningScript(s, c) == Some(sn) && c == sn.Nukta()
    ensures ScanChar([Text(a)], c, s) == Some([Text(AfterNukta(a))])
  {
    NuktaRule([], a, c, s, sn);
    assert [] + [Text(a)] == [Text(a)];
    assert [] + [Text(AfterNukta(a))] == [Text(AfterNukta(a))];
  }

  /** A sign with nothing before it is pushed as it is (content.js:112, 116). */
  lemma LoneSign(t: string, s: Settings, sm: Script)
    requires |t| == 1 && OwningScript(s, t[0]) == Some(sm) && IsModifier(sm, t[0])
    ensures Transliterate(t, s) == Returned(Render(ModifierFragment(sm, t[0])))
  {
    var m := ModifierFragment(sm, t[0]);
    ScanSnoc("", t[0], s);
    assert "" + [t[0]] == t;
    ModifierRule([], "", t[0], s, sm);
    assert Scan(t, s) == Some([] + [m]);
    ReturnsJoin(t, s, [] + [m]);
    JoinSnoc([], m);
  }

  /**
   * A sign right after an unmapped sign meets `undefined` and throws
   * (content.js:113, 116).
   */
  lemma UnmappedSignThenSign(t: string, s: Settings, sm: Script, sn: Script)
    requires |t| == 2 && OwningScript(s, t[0]) == Some(sm) && IsModifier(sm, t[0])
    requires sm.Lookup(t[0]).None?
    requires OwningScript(s, t[1]) == Some(sn) && IsModifier(sn, t[1])
    ensures Transliterate(t, s) == Threw
  {
    var p := t[..1];
    assert p[0] == t[0];
    ScanSnoc("", t[0], s);
    assert "" + [t[0]] == p;
    ModifierRule([], "", t[0], s, sm);
    ScanSnoc(p, t[1], s);
    assert p + [t[1]] == t;
    ModifierAfterUndefinedThrows([] + [Undefined], t[1], s);
  }
}
