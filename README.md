# Latinify transliteration engine in Dafny

This project models the transliteration core of the browser extension's
content script, `content.js`. The script rewrites Devanagari and Kannada text
into an ITRANS-like Latin form, one character at a time. The model covers:

- the script constants: block bounds, modifier ranges and nukta code points;
- the two character tables, `devanagariToITRANS` and `kannadaToITRANS`;
- the nukta substitution table of `handleNukta`;
- the per-character step `appendTransliteratedChar`;
- the scan `transliterateToITRANS`, with its two settings.

Layout:

- `wrappers.dfy` (`Wrappers`): `Option`, whose `None` stands for JavaScript's
  `undefined`.
- `tables.dfy` (`ScriptTables`): the constants and tables. Each object literal
  is a lookup function of one `char`. The keys made of several characters sit
  in a separate map, `DevanagariMultiUnitEntries`.
- `table_properties.dfy` (`TableProperties`): the conventions the tables keep.
- `engine.dfy` (`Engine`): the scan as functions on a sequence of fragments
  (`AppendChar`, `ScanChar`, `Scan`, `Transliterate`). It also holds the same
  scan as imperative code: the class `FragmentList` is the `replacement`
  array, and the methods `HandleNukta`, `AppendTransliteratedChar`,
  `ScanCharacter` and `TransliterateToItrans` push to it and overwrite its
  last element. Each method is proved equal to its function.
- `properties.dfy` (`EngineProperties`): what the scan promises. This covers
  pass-through, idempotence, earlier fragments never changing, the modifier
  and nukta rules, and general lemmas for words of one to three characters.
- `examples.dfy` (`Examples`): concrete words, such as कि giving "ki" and क़
  giving "qₐ".

An element of the `replacement` array is a `Fragment`: either `Text(s)` or
`Undefined`. An unmapped modifier-range character pushes `undefined`, `join`
renders it as "", and a following modifier throws on `undefined.endsWith`.
The model keeps this error path as the outcome `Threw`.

Two places where the code does something other than it appears to:

- The two dandas map to "." followed by EN QUAD (U+2000) and EM QUAD (U+2001),
  not to ". " with an ordinary space (content.js:56, 90).
- Every lookup is `mapping[sourceText[i]]`. The conjunct keys and the
  two-character nukta keys are therefore never hit (content.js:32, 38-39).

## Model

| member | source | states |
|---|---|---|
| ScriptTables.DevanagariToItrans | content.js:18-60 | the definition of the Devanagari table on single characters; its properties are the `TableProperties` lemmas below (DevanagariMarkerExactlyOnConsonants, DigitsMapToAscii, DandasMapToFullStop, DevanagariValuesOutsideBlocks, UnmappedModifiers, EmptyValuesOnlyForViramaAndNukta) |
| ScriptTables.KannadaToItrans | content.js:63-92 | the definition of the Kannada table on single characters; its properties are KannadaConsonantsEndInA, DigitsMapToAscii, DandasMapToFullStop, KannadaValuesOutsideBlocks, UnmappedModifiers and KannadaDandasOutsideKannadaBlock |
| ScriptTables.NuktaReplacement | content.js:100-104 | the definition of the nukta substitution table; its properties are NuktaValuesOutsideBlocks, NuktaRule and the nukta examples |
| TableProperties.ScriptRanges | content.js:3-13 | each modifier range lies inside its block, each nukta lies in its block but outside its modifier range, and the two blocks do not overlap |
| TableProperties.DevanagariMarkerExactlyOnConsonants | content.js:25-35 | a Devanagari value ends in 'ₐ' if and only if its key is a consonant letter |
| TableProperties.KannadaConsonantsEndInA | content.js:69-75 | every Kannada consonant value ends in 'a'; the only other values ending in 'a' are those of ಅ, ಆ and ಾ |
| TableProperties.DigitsMapToAscii | content.js:52-53 | the digit d of either script maps to the ASCII digit d, for each d in 0..9 |
| TableProperties.DandasMapToFullStop | content.js:56-90 | in both tables (the danda entries at lines 56 and 90), । maps to "." + EN QUAD and ॥ maps to "." + EM QUAD |
| TableProperties.DevanagariValuesOutsideBlocks | content.js:18-60 | no Devanagari value contains a character of either block |
| TableProperties.KannadaValuesOutsideBlocks | content.js:63-92 | no Kannada value contains a character of either block |
| TableProperties.NuktaValuesOutsideBlocks | content.js:100-104 | no nukta substitute contains a character of either block |
| TableProperties.ValuesOutsideBlocks | content.js:18-92 | no value of the table a script uses contains a character of either block |
| TableProperties.SignsOutsideModifierRange | content.js:5-13 | the candrabindu, anusvara, visarga, nukta and vocalic-L signs are in their block but outside its modifier range |
| TableProperties.UnmappedModifiers | content.js:42-48 | the modifier-range characters without a table value are exactly U+0946, U+094A, U+094E, U+094F and U+0CC5, U+0CC9 |
| TableProperties.EmptyValuesOnlyForViramaAndNukta | content.js:47-48 | the values "" belong exactly to the two viramas and the Devanagari nukta, and the viramas are in the modifier range |
| TableProperties.KannadaDandasOutsideKannadaBlock | content.js:90 | the Kannada table's dandas lie in the Devanagari block and outside the Kannada block |
| TableProperties.MultiUnitKeysUnreachable | content.js:32-39 | documents the multi-character keys of lines 32 and 38-39: each is at least two characters long. That no lookup reaches them follows from the tables being functions of one `char` |
| Engine.SettingsFromStorage | content.js:197-202 | a script is enabled unless its stored value is `false`; an absent value enables it |
| Engine.OwningScript | content.js:135-141 | a handling script is enabled and holds the character in its block; none handles it exactly when no enabled block holds it |
| Engine.LetterText | content.js:119-120 | the fallback of content.js:120: an ordinary letter pushes its table value when that value is non-empty, and itself when it has no value or an empty one |
| Engine.NuktaStep | content.js:99-108 | the nukta keeps the number of fragments and all earlier fragments; it changes the last one only when that one has a substitute |
| Engine.AppendChar | content.js:110-122 | the step throws exactly for a modifier after an `undefined` fragment; otherwise it adds one fragment (none for the nukta) and leaves earlier fragments alone |
| Engine.Scan | content.js:133-142 | the scan yields at most one fragment per input character |
| Engine.Render | content.js:143 | how `join` renders one element: `undefined` as ""; used by JoinSnoc and JoinPair |
| Engine.Join | content.js:143 | the definition of `replacement.join("")`; its properties are JoinSnoc, JoinPair, JoinSingletons and JoinInert |
| Engine.PrevLetter | content.js:111 | the definition of `prevLetter`, the last fragment or ""; the rules ModifierRule and NuktaRule state what the step does with it |
| Engine.ModifierFragment | content.js:116 | the definition of what a modifier pushes, `mapping[c]` or `undefined`; ModifierRule, ModifierAfterUndefinedThrows and UnmappedModifiers state its consequences |
| Engine.ScanChar | content.js:135-141 | the definition of one loop iteration; its properties are LetterRule, ModifierRule, NuktaRule, ModifierAfterUndefinedThrows, DisabledScriptPassesThrough and StepKeepsInert |
| Engine.Transliterate | content.js:125-144 | the definition of `transliterateToITRANS`; its properties are PassThrough, ShortCutAgreesWithLoop, InitialSettingsChangeNothing, Idempotent, EarlierFragmentsNeverChange and the short-word lemmas |
| Engine.FragmentList.constructor | content.js:133 | the `replacement` array starts empty |
| Engine.FragmentList.Push | content.js:116 | `push` appends exactly one fragment |
| Engine.FragmentList.SetLast | content.js:114 | overwriting the last element keeps every other element |
| Engine.HandleNukta | content.js:99-108 | the method leaves the caller's array as `NuktaStep` specifies |
| Engine.AppendTransliteratedChar | content.js:110-122 | the method throws exactly when `AppendChar` does, leaving the array unchanged; otherwise it leaves the array as `AppendChar` specifies |
| Engine.ScanCharacter | content.js:135-141 | one loop iteration throws exactly when `ScanChar` does, leaving the array unchanged; otherwise it updates the array as `ScanChar` specifies |
| Engine.TransliterateToItrans | content.js:125-144 | the method returns exactly what `Transliterate` specifies, including throwing |
| Engine.ThrowPersists | content.js:133-142 | once a step has thrown, the whole scan throws |
| EngineProperties.InertStep | content.js:139-140 | proof step, unfolding `Inert`: a character that is copied in every context is pushed verbatim |
| EngineProperties.InertScan | content.js:133-142 | a text of such characters is scanned into one singleton fragment per character |
| EngineProperties.JoinSingletons | content.js:143 | joining singleton fragments gives the text back |
| EngineProperties.InertTextUnchanged | content.js:125-144 | a text of such characters is returned unchanged |
| EngineProperties.PassThrough | content.js:126-131 | a text with no character in an enabled block is returned unchanged |
| EngineProperties.ShortCutAgreesWithLoop | content.js:129-131 | with both scripts disabled, the loop alone would also give back the input, so the early return is only a short cut |
| EngineProperties.InitialSettingsChangeNothing | content.js:94 | with `Engine.InitialSettings`, the two `undefined` settings before storage answers, every text is returned unchanged |
| EngineProperties.DisabledScriptPassesThrough | content.js:135-140 | a character of a disabled script's block is pushed verbatim whatever precedes it |
| EngineProperties.OutsideBlocksInert | content.js:135-140 | a text with no character of either block is copied in every context |
| EngineProperties.InertConcat | content.js:143 | concatenating two such texts gives such a text |
| EngineProperties.JoinInert | content.js:143 | joining fragments made of such characters gives such a text |
| EngineProperties.StepKeepsInert | content.js:110-122 | every step keeps every fragment made of such characters |
| EngineProperties.ScanInert | content.js:133-142 | the scan only produces fragments made of such characters |
| EngineProperties.Idempotent | content.js:125-144 | transliterating an output again with the same settings returns it unchanged |
| EngineProperties.ScanSnoc | content.js:133-142 | proof step, unfolding `Scan`: scanning a text plus one character is scanning the text, then one step |
| EngineProperties.EarlierFragmentsNeverChange | content.js:106 | scanning further never shortens the fragment list and never changes a fragment before the last one |
| EngineProperties.JoinSnoc | content.js:143 | proof step, unfolding `Join`: joining with one more fragment appends its rendering |
| EngineProperties.LetterRule | content.js:119-121 | an ordinary letter of an enabled block pushes exactly its table value when it has one (no such value is empty), and itself when it has none; the text is never empty |
| EngineProperties.ModifierRule | content.js:112-116 | a modifier strips the last fragment's trailing 'ₐ' or 'a' when it ends in one, keeps it otherwise, then pushes its own value |
| EngineProperties.ModifierStripsOneCharacter | content.js:112-116 | on the joined output, a modifier removes exactly one character when the last fragment ends in the marker, and none otherwise, then appends its value |
| EngineProperties.ModifierAfterUndefinedThrows | content.js:113 | a step throws if and only if a modifier follows an `undefined` fragment |
| EngineProperties.NuktaRule | content.js:99-108 | the nukta replaces a last fragment that has a substitute and otherwise changes nothing, also after `undefined` and on an empty array |
| EngineProperties.LetterOf | content.js:119-120 | the text a letter pushes is never empty, and is the letter itself when no enabled script owns it |
| EngineProperties.LetterStep | content.js:119-121 | a letter pushes exactly its text, whatever precedes it |
| EngineProperties.ScanLetter | content.js:133-142 | a single letter is scanned into one fragment holding its text |
| EngineProperties.ScanLetterSign | content.js:112-116 | a letter followed by a sign is scanned into the stripped letter text and the sign's fragment |
| EngineProperties.ReturnsJoin | content.js:143 | proof step, unfolding the last branch of `Transliterate`: when the settings enable a script, a non-empty text returns the join of its fragments |
| EngineProperties.JoinPair | content.js:143 | two fragments join to their two renderings |
| EngineProperties.OneLetter | content.js:119-120 | a single letter is replaced by its text |
| EngineProperties.TwoLetters | content.js:119-120 | two letters are each replaced by their own text |
| EngineProperties.LetterThenSign | content.js:112-116 | a sign after a letter strips the letter's marker and appends the sign's value |
| EngineProperties.LetterSignLetter | content.js:112-121 | letter, sign, letter: the third character starts a fresh fragment |
| EngineProperties.LetterThenNukta | content.js:99-108 | a nukta after a letter gives the letter's substitute, or the letter's text unchanged |
| EngineProperties.NuktaAfterFragment | content.js:117-118 | a nukta after a single fragment gives that fragment's substitute, or the fragment unchanged |
| EngineProperties.NuktaOnSingleFragment | content.js:117-118 | proof step: a nukta after a single fragment leaves one fragment, its substitute or the fragment unchanged |
| EngineProperties.LoneSign | content.js:112-116 | a sign with nothing before it is pushed as it is |
| EngineProperties.UnmappedSignThenSign | content.js:113-116 | a sign right after an unmapped sign throws |
| Examples.MatraAfterConsonant | content.js:42 | कि gives "ki" |
| Examples.ViramaAfterConsonant | content.js:47 | क् gives "k" |
| Examples.AnusvaraKeepsMarker | content.js:47 | कं gives "kₐⁿ": the anusvara does not strip the marker |
| Examples.NuktaSubstitutes | content.js:100-102 | क़ (क + nukta) gives "qₐ" |
| Examples.NuktaWithoutSubstitute | content.js:103-107 | ड + nukta gives "Dₐ": no substitute, nothing changes |
| Examples.NuktaAcrossScripts | content.js:136-138 | क followed by the Kannada nukta gives "qₐ" through the shared substitution table |
| Examples.MatraStripsVowel | content.js:113-114 | अ + ा gives "aa": the strip test also strips a vowel's "a" |
| Examples.MatraStripsLatinA | content.js:113-114 | Latin "a" + ा gives "aa" |
| Examples.ConjunctComposedMechanically | content.js:38 | क + ् + ष gives "kShₐ", never the conjunct key's "kshₐ" |
| Examples.KannadaMatraAfterConsonant | content.js:78 | ಕಿ gives "ki" |
| Examples.KannadaNuktaSubstitutes | content.js:102 | ಕ + Kannada nukta gives "qa" |
| Examples.UnmappedModifierJoinsEmpty | content.js:116 | U+094E alone gives "" |
| Examples.UnmappedModifierThenModifierThrows | content.js:113 | U+094E followed by ा throws |
| Examples.OmKept | content.js:59 | ॐ has no value and is kept as it is |
| Examples.DandaIgnoredByKannada | content.js:90 | with only Kannada enabled, । passes through unchanged |
| Examples.DandaThroughDevanagari | content.js:56 | with Devanagari enabled, । gives "." + EN QUAD |

## Left out

- `processNode`, `initTransliteration`, the MutationObserver, the `setTimeout` retry and the `performance` timing (content.js:147-194, 214-218): these are DOM traversal and event plumbing.
- `chrome.storage.sync.get` and `chrome.runtime.onMessage` (content.js:197-211): asynchronous loading and messaging are not modelled. The settings are a parameter, and `SettingsFromStorage` gives the value the storage callback computes.
- popup.js: checkbox wiring, storage writes and tab messaging, with no transformation logic. Only its reading of stored values (popup.js:7-8) is compared with `SettingsFromStorage`.
- Non-string input to `transliterateToITRANS` (content.js:126-128): the model's parameter is a string. The only falsy string is "", which is returned as it is.
- UTF-16: JavaScript indexes code units, and a Dafny `char` is a Unicode scalar value. The two agree on every character of both blocks and on every BMP character. A character above U+FFFF is one `char` here but two code units there. Both pass through verbatim, so the output is the same. Unpaired surrogates cannot be represented.
- Lookups through the object prototype (keys such as "constructor"): no fragment the scan looks up can equal one, so the model has no such keys.
- The keys with more than one character (content.js:32, 38-39) exist only in `DevanagariMultiUnitEntries`, since no lookup can reach them. A conjunct longest-match, tagged span output and Telugu support are not implemented in the code.
- Tables: the object literals `devanagariToITRANS` and `kannadaToITRANS` are modelled as `match` functions on the code point rather than `map<char,string>` displays. A map display of this size makes every proof that inspects it far slower. The entries are the same. The Kannada literal lists U+0CC6 and U+0CCA twice with the same value (content.js:83), and they appear once here. The `' '` keys (content.js:57, 91) map ' ' to itself and lie outside both blocks, so they are never consulted; they are kept for completeness.
