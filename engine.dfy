/**
 * The transliteration engine of content.js: the scan `transliterateToITRANS`
 * (content.js:125-144), the per-character step `appendTransliteratedChar`
 * (content.js:110-122) and `handleNukta` (content.js:99-108).
 *
 * The scan builds an array of string fragments, pushing at most one per
 * input character and overwriting the last one in place. The functions
 * below specify each step on a sequence of fragments; the class
 * `FragmentList` and the methods after it carry out the same steps by
 * mutation, and are proved to agree with the functions.
 */
module Engine {
  import opened Wrappers
  import opened ScriptTables

  // ---------------------------------------------------------------------
  // Settings (content.js:94, 129, 197-201)
  // ---------------------------------------------------------------------

  /**
   * Which scripts are transliterated. A setting that JavaScript holds as
   * `undefined` is falsy in every test the scan makes, so it is `false` here.
   */
  datatype Settings = Settings(devanagari: bool, kannada: bool)

  /** The settings before storage has answered: both `undefined` (content.js:94). */
  const InitialSettings: Settings := Settings(false, false)

  /**
   * The settings read back from storage: a setting that was never stored is
   * enabled (content.js:198-201). This agrees with the popup, which shows a
   * script as enabled unless it is stored as `false` (popup.js:7-8).
   */
  function SettingsFromStorage(devanagari: Option<bool>, kannada: Option<bool>): (s: Settings)
    ensures s.devanagari <==> devanagari != Some(false)
    ensures s.kannada <==> kannada != Some(false)
  {
    Settings(if devanagari.Some? then devanagari.value else true,
             if kannada.Some? then kannada.value else true)
  }

  predicate Enabled(s: Settings, sc: Script) {
    match sc
    case Devanagari => s.devanagari
    case Kannada => s.kannada
  }

  /**
   * The script whose branch of the scan handles `c`, if any: Devanagari is
   * tested before Kannada, and a script that is disabled handles nothing
   * (content.js:135-141).
   */
  function OwningScript(s: Settings, c: char): (r: Option<Script>)
    ensures r.Some? ==> Enabled(s, r.value) && InBlock(r.value, c)
    ensures r.None? <==> forall sc :: Enabled(s, sc) ==> !InBlock(sc, c)
  {
    if s.devanagari && InBlock(Devanagari, c) then Some(Devanagari)
    else if s.kannada && InBlock(Kannada, c) then Some(Kannada)
    else None
  }

  // ---------------------------------------------------------------------
  // Fragments and outcomes
  // ---------------------------------------------------------------------

  /**
   * One element of the `replacement` array: a string, or the `undefined`
   * that an unmapped modifier-range character pushes (content.js:116).
   */
  datatype Fragment = Text(s: string) | Undefined

  /** How `Array.prototype.join` renders an element: `undefined` as "". */
  function Render(f: Fragment): string {
    match f
    case Text(t) => t
    case Undefined => ""
  }

  /** `fragments.join("")` (content.js:143). */
  function Join(fragments: seq<Fragment>): string {
    if |fragments| == 0 then ""
    else Join(fragments[..|fragments| - 1]) + Render(fragments[|fragments| - 1])
  }

  /**
   * What `transliterateToITRANS` does with a string: return one, or throw
   * the TypeError that `undefined.endsWith` raises (content.js:113).
   */
  datatype Outcome = Returned(text: string) | Threw

  // ---------------------------------------------------------------------
  // The per-character step, on values
  // ---------------------------------------------------------------------

  /** `prevLetter`: the last fragment, or "" when there is none (content.js:111). */
  function PrevLetter(fragments: seq<Fragment>): Fragment {
    if |fragments| > 0 then fragments[|fragments| - 1] else Text("")
  }

  /** The strip test: the fragment ends in SUBSCRIPT SMALL A or in "a" (content.js:113). */
  predicate EndsWithMarker(t: string) {
    EndsWith(t, SubscriptA) || EndsWith(t, 'a')
  }

  /** What a modifier-range character pushes: `mapping[c]`, possibly `undefined` (content.js:116). */
  function ModifierFragment(sc: Script, c: char): Fragment {
    match sc.Lookup(c)
    case Some(v) => Text(v)
    case None => Undefined
  }

  /** What any other character of the block pushes: `mapping[c] || c` (content.js:120). */
  function LetterText(sc: Script, c: char): (r: string)
    ensures r == [c] || sc.Lookup(c) == Some(r)
    ensures r == [c] <== sc.Lookup(c).None? || sc.Lookup(c) == Some("")
    ensures sc.Lookup(c).Some? && sc.Lookup(c).value != "" ==> r == sc.Lookup(c).value
  {
    match sc.Lookup(c)
    case Some(v) => if v != "" then v else [c]
    case None => [c]
  }

  /** `handleNukta(prevLetter, fragments)` with `prevLetter` the last fragment (content.js:99-108, 117-118). */
  function NuktaStep(fragments: seq<Fragment>): (r: seq<Fragment>)
    ensures |r| == |fragments|
    ensures forall j :: 0 <= j < |fragments| - 1 ==> r[j] == fragments[j]
    ensures r != fragments ==> PrevLetter(fragments).Text? && NuktaReplacement(PrevLetter(fragments).s).Some?
  {
    match PrevLetter(fragments)
    case Text(t) =>
      (match NuktaReplacement(t)
       case Some(q) => fragments[..|fragments| - 1] + [Text(q)]
       case None => fragments)
    case Undefined => fragments
  }

  /**
   * `appendTransliteratedChar` for character `c` of script `sc`
   * (content.js:110-122); `None` when it throws.
   */
  function AppendChar(fragments: seq<Fragment>, c: char, sc: Script): (r: Option<seq<Fragment>>)
    ensures r.None? <==> IsModifier(sc, c) && |fragments| > 0 && fragments[|fragments| - 1].Undefined?
    ensures r.Some? ==> |r.value| == |fragments| + (if !IsModifier(sc, c) && c == sc.Nukta() then 0 else 1)
    ensures r.Some? ==> forall j :: 0 <= j < |fragments| - 1 ==> r.value[j] == fragments[j]
  {
    var prev := PrevLetter(fragments);
    if IsModifier(sc, c) then
      if |fragments| > 0 && prev.Undefined? then None
      else if |fragments| > 0 && EndsWithMarker(prev.s) then
        Some(fragments[..|fragments| - 1] + [Text(prev.s[..|prev.s| - 1])] + [ModifierFragment(sc, c)])
      else
        Some(fragments + [ModifierFragment(sc, c)])
    else if c == sc.Nukta() then
      Some(NuktaStep(fragments))
    else
      Some(fragments + [Text(LetterText(sc, c))])
  }

  /** One iteration of the scan loop (content.js:135-141). */
  function ScanChar(fragments: seq<Fragment>, c: char, s: Settings): Option<seq<Fragment>> {
    match OwningScript(s, c)
    case Some(sc) => AppendChar(fragments, c, sc)
    case None => Some(fragments + [Text([c])])
  }

  /**
   * The fragments after the loop has run over all of `text` (content.js:133-142),
   * or `None` when some step threw. Each character adds at most one fragment.
   */
  function Scan(text: string, s: Settings): (r: Option<seq<Fragment>>)
    ensures r.Some? ==> |r.value| <= |text|
  {
    if |text| == 0 then Some([])
    else
      match Scan(text[..|text| - 1], s)
      case None => None
      case Some(fragments) => ScanChar(fragments, text[|text| - 1], s)
  }

  /** `transliterateToITRANS(text)` under settings `s` (content.js:125-144). */
  function Transliterate(text: string, s: Settings): Outcome {
    if text == "" then Returned(text)
    else if !s.devanagari && !s.kannada then Returned(text)
    else
      match Scan(text, s)
      case None => Threw
      case Some(fragments) => Returned(Join(fragments))
  }

  // ---------------------------------------------------------------------
  // The same steps, by mutation
  // ---------------------------------------------------------------------

  /** The `replacement` array of the scan, which the steps push to and overwrite. */
  class FragmentList {
    var parts: seq<Fragment>

    constructor ()
      ensures parts == []
    {
      parts := [];
    }

    /** `parts.push(f)` */
    method Push(f: Fragment)
      modifies this
      ensures parts == old(parts) + [f]
    {
      parts := parts + [f];
    }

    /** `parts[parts.length - 1] = f` */
    method SetLast(f: Fragment)
      requires |parts| > 0
      modifies this
      ensures parts == old(parts)[..|old(parts)| - 1] + [f]
    {
      parts := parts[..|parts| - 1] + [f];
    }
  }

  /**
   * `handleNukta` (content.js:99-108): if the previous fragment has a nukta
   * substitute, overwrite the caller's last fragment with it.
   */
  method HandleNukta(prevLetter: Fragment, replacementText: FragmentList)
    requires prevLetter == PrevLetter(replacementText.parts)
    modifies replacementText
    ensures replacementText.parts == NuktaStep(old(replacementText.parts))
  {
    if prevLetter.Text? {
      var replacement := NuktaReplacement(prevLetter.s);
      if replacement.Some? {
        replacementText.SetLast(Text(replacement.value));
      }
    }
  }

  /**
   * `appendTransliteratedChar` (content.js:110-122) for `sourceText[i]` and
   * script `sc`; `threw` reports the TypeError of `undefined.endsWith`, in
   * which case the fragments are left as they were.
   */
  method AppendTransliteratedChar(sourceText: string, i: nat, replacementText: FragmentList, sc: Script)
    returns (threw: bool)
    requires i < |sourceText|
    modifies replacementText
    ensures threw <==> AppendChar(old(replacementText.parts), sourceText[i], sc).None?
    ensures !threw ==> replacementText.parts == AppendChar(old(replacementText.parts), sourceText[i], sc).value
    ensures threw ==> replacementText.parts == old(replacementText.parts)
  {
    var c := sourceText[i];
    var n := |replacementText.parts|;
    var prevLetter := if n > 0 then replacementText.parts[n - 1] else Text("");
    threw := false;
    if sc.ModifierStart() <= c <= sc.ModifierEnd() {
      if n > 0 {
        if prevLetter.Undefined? {
          threw := true;
          return;
        }
        if EndsWith(prevLetter.s, SubscriptA) || EndsWith(prevLetter.s, 'a') {
          replacementText.SetLast(Text(prevLetter.s[..|prevLetter.s| - 1]));
        }
      }
      replacementText.Push(ModifierFragment(sc, c));
    } else if c == sc.Nukta() {
      HandleNukta(prevLetter, replacementText);
    } else {
      replacementText.Push(Text(LetterText(sc, c)));
    }
  }

  /**
   * The body of the loop of `transliterateToITRANS` (content.js:135-141):
   * the character goes to the first enabled script whose block holds it,
   * or is pushed unchanged. A step that throws leaves the fragments alone.
   */
  method ScanCharacter(text: string, i: nat, replacement: FragmentList, settings: Settings)
    returns (threw: bool)
    requires i < |text|
    modifies replacement
    ensures threw <==> ScanChar(old(replacement.parts), text[i], settings).None?
    ensures !threw ==> replacement.parts == ScanChar(old(replacement.parts), text[i], settings).value
    ensures threw ==> replacement.parts == old(replacement.parts)
  {
    var c := text[i];
    if settings.devanagari && DevanagariStart <= c <= DevanagariEnd {
      threw := AppendTransliteratedChar(text, i, replacement, Devanagari);
    } else if settings.kannada && KannadaStart <= c <= KannadaEnd {
      threw := AppendTransliteratedChar(text, i, replacement, Kannada);
    } else {
      replacement.Push(Text([c]));
      threw := false;
    }
  }

  /** `transliterateToITRANS` (content.js:125-144) with the settings passed in. */
  method TransliterateToItrans(text: string, settings: Settings) returns (r: Outcome)
    ensures r == Transliterate(text, settings)
  {
    if text == "" {
      return Returned(text);
    }
    if !settings.devanagari && !settings.kannada {
      return Returned(text);
    }
    var replacement := new FragmentList();
    var i := 0;
    while i < |text|
      invariant 0 <= i <= |text|
      invariant Scan(text[..i], settings) == Some(replacement.parts)
    {
      ghost var before := replacement.parts;
      var threw := ScanCharacter(text, i, replacement, settings);
      assert text[..i + 1][..i] == text[..i];
      assert Scan(text[..i + 1], settings) == ScanChar(before, text[i], settings);
      if threw {
        ThrowPersists(text, i + 1, settings);
        return Threw;
      }
      i := i + 1;
    }
    assert text[..i] == text;
    return Returned(Join(replacement.parts));
  }

  /** Once a step has thrown, the whole scan throws. */
  lemma {:induction false} ThrowPersists(text: string, i: nat, s: Settings)
    requires i <= |text|
    requires Scan(text[..i], s).None?
    ensures Scan(text, s).None?
    decreases |text| - i
  {
    if i < |text| {
      assert text[..i + 1][..i] == text[..i];
      ThrowPersists(text, i + 1, s);
    } else {
      assert text[..i] == text;
    }
  }
}
