# NameCaseLib declension engine, modelled in Dafny

NameCaseLib.NET declines Russian and Ukrainian personal names. It puts a first
name, a surname (second name) or a patronymic (father name) into every
grammatical case. The work is split into three parts:

- **Word records.** A `Word` remembers the capitalisation of the original
  spelling as a letter mask. It works on the lower-cased word and puts the
  capitals back on every form it receives. It decides its gender lazily from
  the gender evidence collected for it.
- **Word list.** A `WordArray` collects the words of a full name. It grows by
  doubling and can look a word up by its name part.
- **Rule sets.** Each language has a rule set on top of a common engine. The
  engine holds the working word, the number of the last rule that fired
  (`lastRule`) and the forms it produced (`lastResult`). A rule looks at the
  ending of the working word. If the ending is its own, the rule writes the
  forms and the rule number and reports success. Otherwise it reports failure
  and changes nothing.

The Ukrainian set (`Ua.cs`, seven cases including the vocative) also has:

- the stem (osnova) and noun-group analysis;
- the alternations г/к/х → з/ц/с and к/г → ч/ж;
- the apostrophe and consonant doubling of feminine nouns;
- fixed rule chains that stop at the first rule that fires;
- weighted classifiers that guess the gender of a first name, a surname or a
  patronymic, and guess which part of a name a word is.

The Russian set (`Ru.cs`, six cases) has twelve rules.

## How the model is organised

- `wrappers.dfy`, module `Wrappers`: `Option`, and `Result` with the failure
  kinds the library can throw (`Fault`).
- `ncl.dfy`, module `NCL`:
  - the vocabulary as datatypes: `Gender`, `NamePart`, and `Padeg`, the case
    names with their indices;
  - the mutable `GenderProbability` accumulator as a class.
- `nclstr.dfy`, module `NCLStr`: lower-casing and upper-casing as a character
  table for the Cyrillic and Latin alphabets.
- `words.dfy`, module `Words`:
  - the class `Word`;
  - the pure functions that build and reapply the capitalisation mask, with
    lemmas about them.
- `wordarrays.dfy`, module `WordArrays`: the class `WordArray`, a doubling
  array with a ghost `Elements` sequence that its `Valid` predicate ties to
  the array.
- `core.dfy`, module `Core`:
  - the helpers the rules share: `Last`, `In`, `InNames`, `WordForms`,
    `MakeResultTheSame`;
  - the `Outcome` of a rule;
  - the engine class `Core`, whose `Apply` method writes `lastRule` and
    `lastResult`.
- `ua.dfy`, module `Ua`: the Ukrainian rule set.
- `ru.dfy`, module `Ru`: the Russian rule set.

### The rules

A rule is modelled as a pure function from the working word to an `Outcome`:

- `NoMatch`: the rule returns false and leaves the engine untouched.
- `Declined(rule, forms)`: the rule returns true after writing the forms and,
  when it sets one, the rule number.
- `Crash(fault)`: the .NET code throws on that input.

`Core.Core.Apply` performs the engine writes. The Ukrainian chain methods and
`Ru.Run` call it on a `Core` object, so the state change stays where the
library makes it.

### The library's failures

Three places in the library fail on inputs it accepts. They are modelled as
failure outcomes, not as preconditions:

- `Ua.cs:136`: `detect2Group` reads the last letter of an empty stem. This
  happens for a word made only of vowels and ь (`Group2`, `ManRule3EmptyStem`).
- `Ua.cs:289`: the `Substring` that drops the mobile е asks for one letter
  more than remains. Every word that reaches this branch throws
  (`ManRule3DropsEThrows`).
- `Word.cs:153`: the `Gender` getter dereferences a gender probability that
  was never assigned. `GenderByFatherName` leaves it unassigned for a word
  that ends in neither "ич" nor "на" (`Words.Word.GetGender`,
  `Ua.GenderOfFatherName`).

`WordForms` truncates the stem with `Substring`. It throws when asked to cut
more letters than the stem has, which is modelled as `Crash(TrimTooLong)`.

### Where the model follows the code rather than its documentation

- The Russian engine never copies its case count into the engine base, so the
  base's `caseCount` stays 0 there (`Ru.cs:16`; compare `Ua.cs:50-53`). The
  Russian selectors still produce six forms, the number every call to
  `WordForms` in `Ru.cs` passes.
- The shared helpers (`Last`, `In`, `InNames`, `WordForms`,
  `MakeResultTheSame`, `RulesChain`, `SetWorkingWord`) live in a part of
  `Core.cs` that is not part of this model. They are modelled from the way
  the rules use them:
  - `In` of an empty string is false.
  - `InNames` compares without regard to case. Otherwise the branches of
    `Ru.cs:72-89`, which test the lower-cased word against "Павел" and "Лев",
    could never fire.
  - `WordForms` puts the working word itself into slot 0 and the truncated
    stem plus each ending into the other slots. `Ua.cs:253` passes a stem
    that differs from the working word, so slot 0 cannot come from the stem.
- The comment at `Ua.cs:275-276` gives Антін → Антона as an example of the
  і → о alternation. The code declines every word in -ін on the whole word
  by rule 303 (`Ua.cs:311-315`), so Антін gives Антіна (`Ua.ManRule3HardIn`).
  The alternation does reach Нестір and Сидір (`Ua.ManRule3Alternation`).
- `Last(n, k)` on a word shorter than n is given the whole word. This is a
  choice of the model, not something the rules' use of it settles. One
  consequence: for the two-letter word "ай", `Ru.ManRule4` reads "ай" as the
  letter third from the end, not "а", so the word gets rule 405 (unchanged)
  rather than 401.

## Model

| member | source | states |
|---|---|---|
| Core.Last | NameCaseLib/Ua.cs:205 | The suffix has n letters, or all the letters of a shorter word. |
| Core.LastMeans | NameCaseLib/Ua.cs:205 | Last(w, n) is the word's own tail of that length, or the whole word when it is shorter; LastAt(w, n, k) is the first k letters of that tail. |
| Core.LastOfLast | NameCaseLib/Ua.cs:278-279 | A shorter suffix of a suffix is the shorter suffix of the word. |
| Core.InOneLetter | NameCaseLib/Ua.cs:271 | A one-letter string is "in" a letter list iff its letter occurs in the list. |
| Core.InNamesMeans | NameCaseLib/Ua.cs:240 | InNames holds iff the word equals one of the names after lower-casing both. |
| Core.WordForms | NameCaseLib/Ua.cs:253 | One slot more than there are endings. Slot 0 is the working word. Slot i+1 is the stem without its last k letters, followed by ending i. |
| Core.MakeResultTheSame | NameCaseLib/Ru.cs:290 | Every one of the caseCount slots holds the working word unchanged. |
| Core.Forms | NameCaseLib/Ru.cs:225-227 | A rule's write declines, with that rule number, exactly when k fits the stem. Otherwise it fails with TrimTooLong and never reports NoMatch. |
| Core.FormsDeclines | NameCaseLib/Ru.cs:225-227 | When the cut fits the stem, the write is the WordForms result under the rule number. |
| Core.Core.constructor | NameCaseLib/Core/Core.cs:29-66 | Both flags false, no word list, rule 0, empty result, case count as given. |
| Core.Core.Reset | NameCaseLib/Core/Core.cs:71-75 | The rule becomes 0 and the result a fresh caseCount-slot array of empty entries. |
| Core.Core.NotReady | NameCaseLib/Core/Core.cs:80-84 | Clears ready and finished; its frame allows nothing else to change. |
| Core.Core.FullReset | NameCaseLib/Core/Core.cs:90-96 | Returns the same engine, holding a fresh, valid, empty word list, both flags false and a reset result. |
| Core.Core.SetRule | NameCaseLib/Core/Core.cs:101-111 | After setting the Rule property to v, reading it gives v. |
| Core.Core.SetWorkingWord | NameCaseLib/Ua.cs:604 | The working word becomes the given word. |
| Core.Core.Apply | NameCaseLib/Ru.cs:216-241 | A rule that does not fire changes nothing. A rule that fires stores its forms, and its rule number when it has one. A throw leaves the engine as it was. |
| NCL.GenderProbability.constructor | NameCaseLib/NCL/GenderProbability.cs:18-22 | Stores the man and woman scores as given. |
| NCL.GenderProbability.Empty | NameCaseLib/NCL/GenderProbability.cs:27-30 | Both scores start at zero. |
| NCL.GenderProbability.SetMan | NameCaseLib/NCL/GenderProbability.cs:35-45 | Sets the man score and leaves the woman score unchanged. |
| NCL.GenderProbability.SetWoman | NameCaseLib/NCL/GenderProbability.cs:50-60 | Sets the woman score and leaves the man score unchanged. |
| NCL.GenderProbability.Plus | NameCaseLib/NCL/GenderProbability.cs:68-74 | The sum is a new object holding the component-wise sum; neither operand may change. |
| NCLStr.ToLower | NameCaseLib/Core/Word.cs:63 | Lower-casing keeps the length and maps each character on its own. |
| NCLStr.ToUpper | NameCaseLib/Core/Word.cs:103 | Upper-casing keeps the length and maps each character on its own. |
| NCLStr.LowerCharIdempotent | NameCaseLib/Core/NCLStr.cs:19-29 | Lower-casing a lower-cased character changes nothing. |
| NCLStr.UpperUndoesLower | NameCaseLib/Core/Word.cs:76-90 | A character that is not lower-case comes back from lower-casing by upper-casing. |
| NCLStr.UpperCharIdempotent | NameCaseLib/Core/Word.cs:99-105 | Upper-casing an upper-cased character changes nothing. |
| NCLStr.ToLowerIdempotent | NameCaseLib/Core/Word.cs:63 | Lower-casing a whole lower-cased word changes nothing. |
| Words.MaskOf | NameCaseLib/Core/Word.cs:72-91 | The mask has one mark per letter of the original. Each mark says whether that letter was a capital. |
| Words.RestoreAll | NameCaseLib/Core/Word.cs:96-127 | Every form gets the mask reapplied, and the number of forms is unchanged. |
| Words.RestoreUndoesLower | NameCaseLib/Core/Word.cs:96-127 | Reapplying a word's own mask to its lower-cased spelling gives back the original spelling. |
| Words.UpperWordGivesUpperForms | NameCaseLib/Core/Word.cs:99-105 | For a word typed all in capitals, every letter of every form comes out upper-case. |
| Words.RestoreKeepsPrefix | NameCaseLib/Core/Word.cs:108-125 | The kept part of the stem regains the original capitals. Letters past the original's length stay as the rule wrote them. |
| Words.Word.constructor | NameCaseLib/Core/Word.cs:60-64 | Stores the lower-cased word and the mask of the original. It is upper-case iff the original has no lower-case letter. Everything else starts undecided. |
| Words.Word.GenerateMask | NameCaseLib/Core/Word.cs:72-91 | A fresh mask equal to MaskOf the word; isUpperCase iff no letter is lower-case. |
| Words.Word.ReturnMask | NameCaseLib/Core/Word.cs:96-127 | Every stored form becomes RestoreAll of the old forms under the word's mask. |
| Words.Word.SetNameCases | NameCaseLib/Core/Word.cs:132-142 | Stores the given array and reapplies the mask to it exactly once. |
| Words.Word.GetGender | NameCaseLib/Core/Word.cs:147-162 | A decided gender is returned unchanged. Otherwise: Man iff the man score is strictly higher (a tie gives Woman), kept as decided. With no evidence the getter throws. |
| Words.Word.SetGender | NameCaseLib/Core/Word.cs:164-167 | The given gender overrides the old one; the word counts as decided iff the gender is not Null. |
| Words.Word.GetNameCase | NameCaseLib/Core/Word.cs:177-180 | Returns the stored form at the case's index. |
| Words.Word.SetGenderProbability | NameCaseLib/Core/Word.cs:185-195 | Stores the evidence object. |
| Words.Word.SetNamePart | NameCaseLib/Core/Word.cs:200-211 | Stores the name part. |
| Words.Word.SetRule | NameCaseLib/Core/Word.cs:240-251 | Stores the rule number. |
| WordArrays.WordArray.constructor | NameCaseLib/Core/WordArray.cs:10-21 | A valid, empty list with room for four words. |
| WordArrays.WordArray.GetWord | NameCaseLib/Core/WordArray.cs:28-31 | Returns the id-th word added; requires id < length. |
| WordArrays.WordArray.EnlargeArray | NameCaseLib/Core/WordArray.cs:33-39 | The capacity doubles. The first length entries are copied unchanged into a fresh array, and the list stays valid. |
| WordArrays.WordArray.AddWord | NameCaseLib/Core/WordArray.cs:45-53 | The word is appended after the old ones and the length grows by exactly one. A full array doubles first; length never exceeds capacity. |
| WordArrays.WordArray.GetByNamePart | NameCaseLib/Core/WordArray.cs:71-81 | Returns the first word, in insertion order, with that name part. When none has it, returns a new empty word. |
| Ru.ManRule1 | NameCaseLib/Ru.cs:43-66 | Fires iff the word ends in ь or й; never throws. Rule 101 writes я, ю, я, ем, е after the word minus its last letter; after и, rule 102 ends the prepositional in и instead. |
| Ru.InOneName | NameCaseLib/Ru.cs:72-82 | A one-name list matches iff the word equals that name apart from case. |
| Ru.ManRule2 | NameCaseLib/Ru.cs:68-99 | Fires iff the last letter is a consonant. Павел and Лев get their fixed six forms (rules 201 and 202). Any other word keeps itself as the stem: а, у, а, ом, е (rule 203). |
| Ru.ManRule3 | NameCaseLib/Ru.cs:101-130 | Fires iff the word ends in а or я; never throws. Every form starts with the word minus its last letter. For а: rule 301 (ы, е, у, ой, е), or 302 with и in the genitive after к, ш, г, х. For я: rule 303 (и, е, ю, ей, е). |
| Ru.ManRule4 | NameCaseLib/Ru.cs:132-181 | Fires iff the word ends in ь or й. On two or more letters it always declines: -бей becomes -бья in the genitive (rule 400), and the last branch leaves the word unchanged in every slot (rule 405). The forms of rules 400 to 404 are stated by ManRule4Forms. |
| Ru.ManRule4Forms | NameCaseLib/Ru.cs:137-168 | Each declining branch with its whole slot list: 400 ья, ью, ья, ьем, ье on the word less two letters; 401 я, ю, я, ем, е less one; 402 ого, ому, ого, ым, ом; 403 ьего, ьему, ьего, ьим, ьем; 404 ого, ому, ого, им, ом, each less two. |
| Ru.ManRule4Tolstoy | NameCaseLib/Ru.cs:149-155 | A surname in -той (Толстой) is declined by rule 402: Толстого, Толстому, Толстого, Толстым, Толстом. |
| Ru.ManRule4Route | NameCaseLib/Ru.cs:137-174 | On a word of two or more letters in ь or й, the rule id follows the guards in source order: -бей gives 400; а third from the end, or е or л before the last letter, gives 401; ы before the last letter or т third from the end gives 402; -чий gives 403; a letter that is not a vowel, or и, before the last letter gives 404; anything else gives 405. |
| Ru.ManRule4Chiy | NameCaseLib/Ru.cs:156-161 | A surname in -чий (Лесничий) is declined by rule 403: Лесничьего, Лесничьему, Лесничьего, Лесничьим, Лесничьем. |
| Ru.ManRule5 | NameCaseLib/Ru.cs:183-212 | Fires iff the word ends in к; never throws. A fleeting о before к drops out (rule 501: ка, ку, ка, ком, ке on the word less two letters). After е the rule id is 502 and the forms are ька, ьку, ька, ьком, ьке on the word less two letters. With neither о nor е before к the word takes а, у, а, ом, е (rule 503). |
| Ru.ManRule6 | NameCaseLib/Ru.cs:214-246 | Never throws, and fails only on a word whose last letter is not a consonant. The rule number follows the tests in order (ч, -ец, цсршмхт, other consonant), and each writes its whole list: instrumental +ем (601), -цом (604), +ом (602), +ым (603). |
| Ru.ManRule6Ch | NameCaseLib/Ru.cs:216-221 | A word in ч gets rule 601 with instrumental +ем; this test comes before the -ец one. |
| Ru.ManRule6Ets | NameCaseLib/Ru.cs:223-228 | A word in -ец drops the е: ца, цу, ца, цом, це on the word less two letters, rule 604. |
| Ru.ManRule6Hard | NameCaseLib/Ru.cs:235-240 | Any other consonant outside цсршмхт gives rule 603 with instrumental +ым. |
| Ru.ManRule6Applies | NameCaseLib/Ru.cs:214-242 | The rule fires iff the last letter is a consonant. |
| Ru.ManRule7 | NameCaseLib/Ru.cs:248-283 | Fires iff the word ends in а or я; only the word я alone throws. For а: rule 701 after ш (и, е, у, ей, е), 702 after х, к, г (и, е, у, ой, е), 703 otherwise (ы, е, у, ой, е). For я: rule 704 with ой, ой, ую, ой, ой less two letters. |
| Ru.ManRule8 | NameCaseLib/Ru.cs:285-299 | Fires iff the last three letters are ово/аго/яго/ирь or the last two are их/ых/ко. Rule 8, with the word unchanged in all six slots. |
| Ru.WomanRule1 | NameCaseLib/Ru.cs:301-334 | Fires iff the word ends in а not preceded by и. Cuts only the а. Rule 101 after a letter outside шхкг (ы, е, у, ой, е), 102 after ш (и, е, у, ей, е), 103 after х, к or г (и, е, у, ой, е). |
| Ru.WomanRule2 | NameCaseLib/Ru.cs:336-359 | Fires iff the word ends in я. Rule 201 (и, е, ю, ей, е), or 202 after и (и, и, ю, ей, и), always on the word less its я. |
| Ru.WomanRule3 | NameCaseLib/Ru.cs:361-375 | Fires iff the word ends in ь. Rule 3: и, и, the word itself, the word +ю, и. |
| Ru.WomanRule4 | NameCaseLib/Ru.cs:377-408 | Fires iff the word ends in а or я; only the word я alone throws. For а: 401 after г or к (и, е, у, ой, е), 402 after ш (и, е, у, ей, е), 403 otherwise (ой, ой, у, ой, ой). For я: rule 404 with ой, ой, ую, ой, ой less two letters. |
| Ru.SixSlots | NameCaseLib/Ru.cs:16 | Every Russian rule that fires writes exactly six forms, the first equal to the word apart from case. |
| Ru.Run | NameCaseLib/Ru.cs:45-60 | Applying a Russian rule to the engine writes exactly what the rule's outcome says, and nothing when it does not fire. |
| Ru.AFinalRulesAgree | NameCaseLib/Ru.cs:301-334 | For a word in а after a letter outside ишхкг, ManRule3, ManRule7 and WomanRule1 all fire, with identical forms. |
| Ru.InstrumentalOfOvSurname | NameCaseLib/Ru.cs:235-240 | A surname in в (Иванов) is declined by rule 603, instrumental +ым. |
| Ua.InverseGKH | NameCaseLib/Ua.cs:61-70 | г→з, к→ц, х→с, every other string unchanged; the result is never г, к or х. |
| Ua.Inverse2 | NameCaseLib/Ua.cs:92-100 | к→ч, г→ж, every other string unchanged; the result is never к or г. |
| Ua.IsApostrofOneLetter | NameCaseLib/Ua.cs:77-84 | A letter is an apostrophe iff it is neither a space, nor a consonant, nor a vowel. |
| Ua.Osnova | NameCaseLib/Ua.cs:176-185 | The stem is a prefix of the word. It does not end in a vowel or ь, and everything cut off is vowels and ь. |
| Ua.OsnovaStep | NameCaseLib/Ua.cs:180-183 | Cutting one trailing vowel or ь does not change the stem. |
| Ua.OsnovaFixed | NameCaseLib/Ua.cs:180 | A word that does not end in a vowel or ь is its own stem. |
| Ua.GetOsnova | NameCaseLib/Ua.cs:176-185 | The loop computes exactly the stem. |
| Ua.FirstStripped | NameCaseLib/Ua.cs:129-134 | The first letter cut off after the stem, or "Z" when nothing was cut. |
| Ua.Group2 | NameCaseLib/Ua.cs:119-149 | The group is 1, 2 or 3. It throws (EmptyStem) exactly when the stem is empty. |
| Ua.Group2ByLetters | NameCaseLib/Ua.cs:136-148 | Group 1 iff the stem ends in a hard non-sibilant with no soft letter after it. Group 2 iff it ends in a sibilant with no soft letter after it. |
| Ua.SibilantsAreNotHard | NameCaseLib/Ua.cs:33-37 | The sibilant and hard non-sibilant letter lists are disjoint, so the first two groups never overlap. |
| Ua.Detect2Group | NameCaseLib/Ua.cs:119-149 | The stripping loop with its letter stack yields the group that Group2 defines, including the throw. |
| Ua.LastMatchBelowEmpty | NameCaseLib/Ua.cs:157-169 | The scan finds nothing iff no letter at indices 1 to n-1 is in the list. |
| Ua.LastMatchBelowFound | NameCaseLib/Ua.cs:157-169 | A found letter is the highest listed letter below n, at index 1 or more. |
| Ua.FirstLastVowelSkipsFirst | NameCaseLib/Ua.cs:160 | The scan never looks at index 0: changing the first letter does not change its result. |
| Ua.FindFirstLastVowel | NameCaseLib/Ua.cs:157-169 | The downward loop returns exactly the scan's result. |
| Ua.ManRule1 | NameCaseLib/Ua.cs:199-229 | Fires iff the word ends in а or я. It throws exactly on the words а and я alone. Rule 101 for а. For я, rule 102 after і and 103 otherwise. The whole forms of each id are stated by Ua.ManRule1A, Ua.ManRule1Iya and Ua.ManRule1Ya. |
| Ua.ManRule1A | NameCaseLib/Ua.cs:205-210 | Every word in а of two or more letters, -ніга included, gets rule 101: the word less its а followed by и, у, ою and о, and in the dative and locative the word less two letters, the letter before а with г, к, х alternated to з, ц, с, and і (Кривоніга, Кривоніги, Кривонізі). |
| Ua.ManRule1Iya | NameCaseLib/Ua.cs:212-220 | A word in -ія gets rule 102: the word less its я followed by ї, ї, ю, єю, ї, є (Ілія, Ілії, Ілією). |
| Ua.ManRule1Ya | NameCaseLib/Ua.cs:221-226 | A word in я after any letter but і gets rule 103: the word less its я followed by і, ю, ею and е, with г, к, х alternated to з, ц, с before the dative and locative і (Ілля, Іллі, Іллю, Іллею, Ілле). |
| Ua.ManRule2 | NameCaseLib/Ua.cs:236-259 | Fires iff the word ends in р; never throws. Rule 201 for Ігор and Лазар, 202 otherwise. Slot 0 is the word. |
| Ua.ManRule2Names | NameCaseLib/Ua.cs:232-245 | Ігор and Лазар, in any letter case, take я, еві, я, ем, еві, е: Ігоря, Ігореві (rule 201). |
| Ua.ManRule2Plain | NameCaseLib/Ua.cs:232-256 | Any other name in -р without і before it takes а, ові, а, ом, ові, е on the whole word: Віктора, Вікторові (rule 202). |
| Ua.ManRule2Alternation | NameCaseLib/Ua.cs:248-253 | In a name in -ір (Федір) the і becomes о in the other cases: Федора, Федорові, Федором, Федоре, all by rule 202. The nominative stays Федір. |
| Ua.AltStem | NameCaseLib/Ua.cs:278-282 | The і→о alternation keeps the stem's length and last letter. |
| Ua.ManRule3 | NameCaseLib/Ua.cs:266-378 | Fires iff the word ends in a consonant, о or ь. Throws only for an empty stem or the е-dropping overrun. |
| Ua.ManRule3Alternation | NameCaseLib/Ua.cs:275-282 | A hard word whose last syllable is і before a hard consonant other than к and н (Нестір, Сидір), outside -світ, -цвіт and Гліб and not starting with о, has о there in every other case: Нестора, Несторові, Нестором, Несторе (rule 304). |
| Ua.ManRule3Group | NameCaseLib/Ua.cs:293-375 | With a non-empty stem every group branch declines into seven slots, slot 0 the word. The mixed group (sibilant stems) gives rule 305 with а, еві, а, ем, еві, е on the stem. |
| Ua.ManRule3Hard | NameCaseLib/Ua.cs:293-323 | Each branch of the hard group declines into seven slots, slot 0 the word. |
| Ua.ManRule3HardOk | NameCaseLib/Ua.cs:296-302 | A word in -ок (not -оок) drops the о: ка, кові, ка, ком, кові, че on the word less two letters (rule 301). |
| Ua.ManRule3HardOv | NameCaseLib/Ua.cs:303-309 | A surname in -ов, -ев, -єв other than Лев and Остромов takes а, у, а, им, у on its stem, and the vocative softens the last letter (rule 302). |
| Ua.ManRule3HardIn | NameCaseLib/Ua.cs:310-316 | A surname in -ін adds а, у, а, ом, у, е to the whole word, ignoring any alternated stem (rule 303). |
| Ua.ManRule3HardRest | NameCaseLib/Ua.cs:317-322 | Every other hard word takes а, ові, а, ом, ові on its stem, and the vocative softens a final к or г before е (rule 304). |
| Ua.ManRule3Soft | NameCaseLib/Ua.cs:331-375 | Each branch of the soft group declines into seven slots, slot 0 the word. |
| Ua.ManRule3SoftLabial | NameCaseLib/Ua.cs:334-341 | -ей after a labial becomes an apostrophe before я, єві, я, єм, єві, ю: Солов’я, Солов’єві (rule 306). |
| Ua.ManRule3SoftY | NameCaseLib/Ua.cs:342-347 | After a final й, or an і before the last letter, the word less its last letter takes я, єві, я, єм, єві, ю: Андрія, Андрієві (rule 307). |
| Ua.ManRule3SoftShvets | NameCaseLib/Ua.cs:348-354 | Швець declines as шевця, шевцеві, шевця, шевцем, шевцеві, шевцю (rule 308). |
| Ua.ManRule3SoftEts | NameCaseLib/Ua.cs:355-361 | Any other word in -ець drops the е: ця, цеві, ця, цем, цеві, цю after the word less three letters (rule 309). |
| Ua.ManRule3SoftYets | NameCaseLib/Ua.cs:362-368 | -єць and -яць become -йц-: йця, йцеві, йця, йцем, йцеві, йцю (rule 310). |
| Ua.ManRule3SoftRest | NameCaseLib/Ua.cs:369-374 | Every other soft word takes я, еві, я, ем, еві, ю on its stem (rule 311). |
| Ua.ManRule3EmptyStem | NameCaseLib/Ua.cs:136 | The rule throws EmptyStem iff its ending test passes and the word is only vowels and ь. |
| Ua.ManRule3DropsEThrows | NameCaseLib/Ua.cs:286-290 | The rule throws the Substring overrun iff it reaches the е-dropping branch. |
| Ua.ManRule3OvSurname | NameCaseLib/Ua.cs:304-309 | A surname in -ов/-ев/-єв, other than Лев and Остромов, gets rule 302 with instrumental +им (Петров, Петровим). |
| Ua.HardStemInV | NameCaseLib/Ua.cs:271-293 | A word in в not preceded by і is its own stem and lies in the hard group. |
| Ua.ManRule4 | NameCaseLib/Ua.cs:384-393 | Fires iff the word ends in і, and then gives exactly rule 4 with the plural forms: the word less its і followed by их, им, их, ими, их, і. Every slot starts with the word minus its і, and the vocative is the word. |
| Ua.ManRule5 | NameCaseLib/Ua.cs:399-408 | Fires iff the word ends in -ий or -ой, and then gives exactly rule 5 with the adjectival forms: the word less two letters followed by ого, ому, ого, им, ому, ий. |
| Ua.WomanRule1 | NameCaseLib/Ua.cs:420-459 | Fires iff the word ends in -ніга, а or я. -ніга becomes -ноги (rule 101); а gives rule 102; only the word а alone throws. The whole forms of each id are stated by Ua.WomanRule1Noga, Ua.RuleAForms, Ua.WomanRule1SoftYa and Ua.WomanRule1HardYa. |
| Ua.WomanRule1Noga | NameCaseLib/Ua.cs:425-432 | A word in -ніга gets rule 101 on the stem with -ніга turned into -но: ги, зі, гу, гою, зі, го (Перебийніга, Перебийноги, Перебийнозі). |
| Ua.RuleAForms | NameCaseLib/Ua.cs:205-210 | For a word in а (not -ніга), man rule 101 and woman rule 102 write identical forms: the word less its а followed by и, у, ою and о, and in the dative and locative the word less two letters, the letter before а with г, к, х alternated to з, ц, с, and і. |
| Ua.AFormsShape | NameCaseLib/Ua.cs:437 | A-declension: genitive -и; dative and locative alternate the letter before а (Ольга, Ользі). |
| Ua.WomanRule1SoftYa | NameCaseLib/Ua.cs:445-450 | A word in я after a vowel or an apostrophe gets rule 103: the word less its я followed by ї, ї, ю, єю, ї, є. |
| Ua.WomanRule1HardYa | NameCaseLib/Ua.cs:451-456 | A word in я after a consonant gets rule 104: the word less its я followed by і, ю, ею and е, with г, к, х alternated before the dative and locative і (Олеся, Олесі, Олесю, Олесею, Олесе). |
| Ua.WomanRule2 | NameCaseLib/Ua.cs:466-504 | Fires iff the word ends in a consonant or ь. Rule 201 for ь, 202 otherwise. |
| Ua.WomanRule2Forms | NameCaseLib/Ua.cs:489-501 | The whole forms of each id on the stem: і, і, then the accusative (the stem with ь for rule 201, the bare stem for 202), then the doubled letter and apostrophe before ю, then і and е. |
| Ua.WomanRule2Soft | NameCaseLib/Ua.cs:490-495 | A name in a consonant and ь gets rule 201 on the word less its ь (Нінель, Нінелі, Нінель, Нінеллю). |
| Ua.ApostrofMeans | NameCaseLib/Ua.cs:476-480 | The apostrophe is added iff the stem ends in a labial after a vowel. |
| Ua.DoubledMeans | NameCaseLib/Ua.cs:482-486 | The stem's last letter is doubled iff it is one of дтзсцлн. |
| Ua.WomanRule2Route | NameCaseLib/Ua.cs:496-500 | A word in a consonant is its own stem and gets rule 202 with the doubling and apostrophe in the instrumental. |
| Ua.WomanRule2Apostrophe | NameCaseLib/Ua.cs:476-499 | A labial after a vowel gives instrumental +’ю (Любов, Любов’ю), and the accusative is the word. |
| Ua.WomanRule2Doubling | NameCaseLib/Ua.cs:482-499 | A word ending in one of дтзсцлн doubles that letter in the instrumental (rule 202). |
| Ua.WomanRule3 | NameCaseLib/Ua.cs:510-532 | Fires iff the word ends in -ая, or in а after ч, н, в or after -ьк. -ая gives rule 301 with the vocative equal to the word; every other match gives rule 302. |
| Ua.WomanRule3Forms | NameCaseLib/Ua.cs:515-529 | Rule 301 gives the word less -ая followed by ої, ій, ую, ою, ій, ая. Rule 302 gives the word less its а followed by ої, ій, у, ою, ій, о. |
| Ua.WomanRule3Adjectival | NameCaseLib/Ua.cs:524-528 | A word in а after ч, н or в gets exactly rule 302 (Петрова, Петрової, Петровій, Петрову, Петровою). |
| Ua.AyaForms | NameCaseLib/Ua.cs:516-521 | The -ая adjective forms keep the word as the vocative. |
| Ua.SkaLong | NameCaseLib/Ua.cs:524-526 | A word that passes the -ська test has at least two letters, so the cut by two is safe. |
| Ua.ManFatherName | NameCaseLib/Ua.cs:574-582 | Fires iff the word ends in -ич or -іч, and then sets no rule number and gives exactly the word followed by а, у, а, ем, у, у. |
| Ua.WomanFatherName | NameCaseLib/Ua.cs:588-596 | Fires iff the word ends in -вна, and then sets no rule number and gives exactly the word less its а followed by и, і, у, ою, і, о. |
| Ua.Outcomes | NameCaseLib/Ua.cs:540 | The outcomes of the chain's rules, one per rule, in order. |
| Ua.FirstApplying | NameCaseLib/Ua.cs:540 | The first outcome that is not NoMatch, with every earlier one NoMatch; NoMatch iff all are. |
| Ua.RulesChain | NameCaseLib/Ua.cs:538-568 | A chain fails iff every rule fails. Otherwise its result is that of the first rule that fires, and every earlier rule failed. |
| Ua.SelectKeepsWord | NameCaseLib/Ua.cs:538-568 | Every Ukrainian rule that fires writes seven forms, slot 0 the word. |
| Ua.ChainKeepsWord | NameCaseLib/Ua.cs:538-568 | Every chain that fires writes seven forms, slot 0 the word. |
| Ua.ChainFirst | NameCaseLib/Ua.cs:538-541 | When the first rule of a chain fires, the chain's result is that rule's. |
| Ua.ManSurnameIy | NameCaseLib/Ua.cs:556-559 | A man's surname in -ий is declined by rule 5, which comes first in the surname chain. |
| Ua.ManFirstName | NameCaseLib/Ua.cs:538-541 | Chain 1, 2, 3 applied to the engine: the engine's rule and result are those of the first rule that fires. |
| Ua.WomanFirstName | NameCaseLib/Ua.cs:547-550 | Chain 1, 2 applied to the engine, as above. |
| Ua.ManSecondName | NameCaseLib/Ua.cs:556-559 | Chain 5, 1, 2, 3, 4 applied to the engine, as above. |
| Ua.WomanSecondName | NameCaseLib/Ua.cs:565-568 | Chain 3, 1 applied to the engine, as above. |
| Ua.DeclineManFatherName | NameCaseLib/Ua.cs:574-582 | The masculine patronymic rule applied to the engine, leaving the rule number as it was. |
| Ua.DeclineWomanFatherName | NameCaseLib/Ua.cs:588-596 | The feminine patronymic rule applied to the engine, leaving the rule number as it was. |
| Ua.FirstNameMan | NameCaseLib/Ua.cs:608-638 | The man evidence of a first name is between 0 and 31.43. It reaches 30 iff the name is Петро or Микола. |
| Ua.FirstNameWoman | NameCaseLib/Ua.cs:625-648 | The woman evidence of a first name is between 0 and 1. |
| Ua.FirstNameGender | NameCaseLib/Ua.cs:602-651 | Both scores are non-negative; Петро and Микола always score as men. |
| Ua.AddFirstNameManEvidence | NameCaseLib/Ua.cs:609-638 | The `+=` steps add exactly FirstNameMan to the man score and leave the woman score. |
| Ua.AddFirstNameWomanEvidence | NameCaseLib/Ua.cs:625-648 | The `+=` steps add exactly FirstNameWoman to the woman score and leave the man score. |
| Ua.GenderByFirstName | NameCaseLib/Ua.cs:602-651 | Sets the engine's working word to the word, then gives the word a fresh probability equal to the first-name scores. |
| Ua.FirstNameManY | NameCaseLib/Ua.cs:610-613 | A name in й has man evidence of at least 0.9. |
| Ua.FirstNameWomanY | NameCaseLib/Ua.cs:625-648 | A name in й has no woman evidence. |
| Ua.FirstNameInYIsMan | NameCaseLib/Ua.cs:609-613 | A first name in й is classified as a man's. |
| Ua.FirstNameManAEnding | NameCaseLib/Ua.cs:610-638 | A name in -нка, -яра, -ила or -опа collects no man evidence. |
| Ua.FirstNameWomanAEnding | NameCaseLib/Ua.cs:625-628 | Such a name collects at least 0.5 of woman evidence. |
| Ua.FirstNameWomanEnding | NameCaseLib/Ua.cs:625-628 | A first name in -нка, -яра, -ила or -опа is classified as a woman's. |
| Ua.NotPetroMykola | NameCaseLib/Ua.cs:615-618 | No name with those endings is Петро or Микола. |
| Ua.SecondNameMan | NameCaseLib/Ua.cs:663-666 | The man evidence of a surname is 0 or 0.4. |
| Ua.SecondNameWoman | NameCaseLib/Ua.cs:668-676 | The woman evidence of a surname is 0, 0.4 or 0.8. |
| Ua.SecondNameGender | NameCaseLib/Ua.cs:657-679 | The surname scores: man 0 or 0.4, woman between 0 and 0.8. |
| Ua.AddSecondNameManEvidence | NameCaseLib/Ua.cs:663-666 | The `+=` step adds exactly SecondNameMan to the man score and leaves the woman score. |
| Ua.AddSecondNameWomanEvidence | NameCaseLib/Ua.cs:668-676 | The `+=` steps add exactly SecondNameWoman to the woman score and leave the man score. |
| Ua.GenderBySecondName | NameCaseLib/Ua.cs:657-679 | Sets the engine's working word to the word, then gives the word a fresh probability equal to the surname scores. |
| Ua.WomanEndingOverManEnding | NameCaseLib/Ua.cs:663-671 | A surname with a man's ending has woman evidence only when it ends in -мін. |
| Ua.SecondNameManIff | NameCaseLib/Ua.cs:657-679 | A surname scores as a man's iff it has a man's ending and does not end in -мін. |
| Ua.FatherNameGender | NameCaseLib/Ua.cs:689-696 | -ич gives (10, 0) and -на gives (0, 12). Any other word gets no evidence. |
| Ua.GenderByFatherName | NameCaseLib/Ua.cs:685-697 | Sets the engine's working word to the word. -ич or -на stores a fresh probability with those scores; any other word keeps its old probability. |
| Ua.GenderOfFatherName | NameCaseLib/Ua.cs:685-697 | On a new word, asking the gender after the patronymic classifier gives Man for -ич and Woman for -на. Otherwise it throws on the missing probability. |
| Ua.FatherScore | NameCaseLib/Ua.cs:714-717 | The patronymic evidence is 0 or 3. |
| Ua.FirstScore | NameCaseLib/Ua.cs:720-729 | The first-name evidence is between 0 and 10.5. It reaches 10 iff the word is one of the listed exceptions. |
| Ua.SecondScore | NameCaseLib/Ua.cs:732-750 | The surname evidence is between 0 and 1.4. |
| Ua.NamePartScores | NameCaseLib/Ua.cs:703-750 | The three scores keep those bounds; an exception scores at least 10 as a first name. |
| Ua.Max | NameCaseLib/Ua.cs:752 | The larger of two scores: at least both, and equal to one of them. |
| Ua.ChooseNamePart | NameCaseLib/Ua.cs:752-765 | First name iff its score is the maximum (ties go to it). Surname iff its score beats the first name and is at least the patronymic's. Patronymic iff it beats both. |
| Ua.DetectNamePart | NameCaseLib/Ua.cs:703-766 | Sets the engine's working word to the word; the word's name part becomes the choice over its three scores. |
| Ua.ExceptionsAreFirstNames | NameCaseLib/Ua.cs:726-729 | Every listed exception (Лев, Павло, Микола, …) is taken as a first name. |
| Ua.FatherEndingNotFirst | NameCaseLib/Ua.cs:714-723 | The three-letter patronymic endings and the first-name endings do not overlap. |
| Ua.FatherEndingIsFatherName | NameCaseLib/Ua.cs:714-765 | A word in -вна, -чна or -ліч is taken as a patronymic. This holds unless it has a four-letter first-name ending or is an exception. |

## Left out

- Floating point: every weight in the gender and name-part classifiers is an exact integer number of hundredths. All the library's constants are multiples of 0.01, but single-precision rounding of their sums is not modelled.
- Unicode case mapping: `ToLower`, `ToUpper` and `isLowerCase` (`NCLStr.cs:19`) are a table over the Cyrillic and Latin alphabets. Every other character is its own upper and lower case.
- The memo cache of `Last` (`Core.cs:51`): it only speeds things up, so `Last` is a plain function.
- Reflective rule dispatch inside `RulesChain`: each chain is an explicit sequence of rule names, selected by a `match`.
- Version and language-build strings, and the public facade that splits and declines full names: they are not part of this model.
- The Russian rule set has no chains or classifiers in `Ru.cs`, so none are modelled and no chain order is invented.
- The Russian engine's base `caseCount` is never set (it stays 0). `Core.Core.Reset` for that engine would allocate an empty result, while the Russian rules write six forms. Those forms are what the model's selectors return.
- `lastResult` entries that .NET leaves null after `Reset` are the empty string here, and `nameCases` before any assignment is an empty array.
- Core.Core.Rule: the read side of the `Rule` property has no contract of its own; `Core.Core.SetRule` states the set-then-get property through it.
- Words.Word.Name, Words.Word.NameCases, Words.Word.IsGenderSolved and WordArrays.WordArray.Length are plain getters with no contract of their own. The setters and `AddWord` state their meaning.
- NCL.Padeg.Index: the case enum is a datatype whose indices are given by a function; Russian names use 0..5 and Ukrainian ones 0..6.
- NCL.GenderProbability.Man and NCL.GenderProbability.Woman are the property getters; the setters state the properties.
- The gender classifiers add men's terms and women's terms in two separate passes rather than in the source's interleaved order. Each total is an integer sum, so the order cannot change it.
