/** The Ukrainian rule set: seven cases, the consonant alternations, the stem
    (osnova) and the noun group of the second declension, the rules, the
    fixed rule chains, and the weighted classifiers for gender and name part. */
module Ua {
  import opened Wrappers
  import opened NCL
  import opened NCLStr
  import opened Words
  import opened Core

  /** Cases of the Ukrainian set, the vocative included. */
  const CaseCount: nat := 7

  const Vowels: string := "аеиоуіїєюя"
  const Consonant: string := "бвгджзйклмнпрстфхцчшщ"
  /** Hard sibilants. */
  const Shyplyachi: string := "жчшщ"
  /** Hard non-sibilants. */
  const Neshyplyachi: string := "бвгдзклмнпрстфхц"
  /** Letters that are always soft. */
  const Myaki: string := "ьюяєї"
  /** Labials. */
  const Gubni: string := "мвпбф"

  // ---------------------------------------------------------------------
  // Phonological helpers

  /** The alternation г, к, х to з, ц, с (Ольга, Ользі). */
  function InverseGKH(letter: string): (r: string)
    ensures letter == "г" ==> r == "з"
    ensures letter == "к" ==> r == "ц"
    ensures letter == "х" ==> r == "с"
    ensures letter != "г" && letter != "к" && letter != "х" ==> r == letter
    ensures r != "г" && r != "к" && r != "х"
  {
    if letter == "г" then "з"
    else if letter == "к" then "ц"
    else if letter == "х" then "с"
    else letter
  }

  /** The alternation к, г to ч, ж, used before the vocative -е. */
  function Inverse2(letter: string): (r: string)
    ensures letter == "к" ==> r == "ч"
    ensures letter == "г" ==> r == "ж"
    ensures letter != "к" && letter != "г" ==> r == letter
    ensures r != "к" && r != "г"
  {
    if letter == "к" then "ч"
    else if letter == "г" then "ж"
    else letter
  }

  /** The apostrophe test: neither a space nor a Ukrainian letter. The empty
      string passes it, as it occurs in no letter set. */
  predicate IsApostrof(letter: string) {
    !In(letter, " " + Consonant + Vowels)
  }

  /** For one character the apostrophe test is non-membership in the alphabet. */
  lemma IsApostrofOneLetter(c: char)
    ensures IsApostrof([c]) <==> c !in " " + Consonant + Vowels
  {
    InOneLetter(c, " " + Consonant + Vowels);
  }

  /** The letters stripped from the end of a word to find its stem. */
  const Stripped: string := Vowels + "ь"

  /** The stem (osnova): the word with every trailing vowel and ь removed. */
  function Osnova(w: string): (o: string)
    ensures o <= w
    ensures o != [] ==> o[|o| - 1] !in Stripped
    ensures forall i :: |o| <= i < |w| ==> w[i] in Stripped
    decreases |w|
  {
    if |w| > 0 && w[|w| - 1] in Stripped then
      var o := Osnova(w[..|w| - 1]);
      assert forall i :: |o| <= i < |w| - 1 ==> w[..|w| - 1][i] == w[i];
      o
    else w
  }

  /** The stripping test on the last letter of a word is membership in the
      stripped letters. */
  lemma LastStripped(w: string)
    requires |w| > 0
    ensures In(w[|w| - 1..], Stripped) <==> w[|w| - 1] in Stripped
  {
    assert w[|w| - 1..] == [w[|w| - 1]];
    InOneLetter(w[|w| - 1], Stripped);
  }

  /** Cutting a trailing vowel or ь does not change the stem. */
  lemma OsnovaStep(w: string)
    requires |w| > 0 && w[|w| - 1] in Stripped
    ensures Osnova(w[..|w| - 1]) == Osnova(w)
  {
    InOneLetter(w[|w| - 1], Stripped);
  }

  /** A word that does not end in a vowel or ь is its own stem. */
  lemma OsnovaFixed(w: string)
    requires |w| == 0 || w[|w| - 1] !in Stripped
    ensures Osnova(w) == w
  {
    if |w| > 0 {
      InOneLetter(w[|w| - 1], Stripped);
    }
  }

  /** getOsnova: cuts single letters off the end while they are vowels or ь. */
  method GetOsnova(w: string) returns (osnova: string)
    ensures osnova == Osnova(w)
  {
    osnova := w;
    while |osnova| > 0 && In(osnova[|osnova| - 1..], Stripped)
      invariant Osnova(osnova) == Osnova(w)
      decreases |osnova|
    {
      LastStripped(osnova);
      OsnovaStep(osnova);
      osnova := osnova[..|osnova| - 1];
    }
    if |osnova| > 0 {
      LastStripped(osnova);
    }
    OsnovaFixed(osnova);
  }

  /** The first letter cut off by the stem search, or "Z" (the zero ending)
      when nothing was cut. */
  function FirstStripped(w: string): (r: string)
    ensures |Osnova(w)| < |w| ==> r == [w[|Osnova(w)|]]
    ensures |Osnova(w)| == |w| ==> r == "Z"
  {
    var stack := w[|Osnova(w)|..];
    if |stack| > 0 then stack[..1] else "Z"
  }

  /** detect2Group, the group of a second-declension noun: 1 hard, 2 mixed,
      3 soft. The last letter of the stem is read unguarded, so a word made
      only of vowels and ь throws. */
  function Group2(w: string): (r: Result<int>)
    ensures r.Throws? <==> Osnova(w) == []
    ensures r.Throws? ==> r.fault == EmptyStem
    ensures r.Ok? ==> 1 <= r.value <= 3
  {
    var osnova := Osnova(w);
    if osnova == [] then Throws(EmptyStem)
    else
      var osnovaEnd := osnova[|osnova| - 1..];
      var last := FirstStripped(w);
      if In(osnovaEnd, Neshyplyachi) && !In(last, Myaki) then Ok(1)
      else if In(osnovaEnd, Shyplyachi) && !In(last, Myaki) then Ok(2)
      else Ok(3)
  }

  /** The groups by letters: hard when the stem ends in a non-sibilant and no
      always-soft letter follows it, mixed when it ends in a sibilant under the
      same condition; every other word is soft. */
  lemma {:induction false} Group2ByLetters(w: string)
    requires Osnova(w) != []
    ensures var o := Osnova(w);
      var soft := |o| < |w| && w[|o|] in Myaki;
      && (Group2(w) == Ok(1) <==> o[|o| - 1] in Neshyplyachi && !soft)
      && (Group2(w) == Ok(2) <==> o[|o| - 1] in Shyplyachi && !soft)
  {
    var o := Osnova(w);
    var c := o[|o| - 1];
    Group2Unfold(w);
    SoftAfterStem(w);
    InOneLetter(c, Neshyplyachi);
    InOneLetter(c, Shyplyachi);
    if c in Shyplyachi {
      SibilantsAreNotHard(c);
    }
  }

  /** Group2 tests the stem's last letter as a one-letter string. */
  lemma Group2Unfold(w: string)
    requires Osnova(w) != []
    ensures var o := Osnova(w);
      var soft := In(FirstStripped(w), Myaki);
      Group2(w) == if In([o[|o| - 1]], Neshyplyachi) && !soft then Ok(1)
                   else if In([o[|o| - 1]], Shyplyachi) && !soft then Ok(2)
                   else Ok(3)
  {
    var o := Osnova(w);
    assert o[|o| - 1..] == [o[|o| - 1]];
  }

  /** The letter after the stem is soft iff it is one of the always-soft
      letters; the zero ending is not soft. */
  lemma SoftAfterStem(w: string)
    ensures In(FirstStripped(w), Myaki) <==> |Osnova(w)| < |w| && w[|Osnova(w)|] in Myaki
  {
    if |Osnova(w)| < |w| {
      InOneLetter(w[|Osnova(w)|], Myaki);
    } else {
      InOneLetter('Z', Myaki);
    }
  }

  lemma SibilantsAreNotHard(c: char)
    requires c in Shyplyachi
    ensures c !in Neshyplyachi
  {
  }

  /** The first letter of the stack is the first stripped letter. */
  lemma StackHead(w: string, stack: string)
    requires stack == w[|Osnova(w)|..]
    ensures FirstStripped(w) == if |stack| > 0 then stack[..1] else "Z"
  {
  }

  /** Moving the last letter of the stem onto the stack keeps their
      concatenation. */
  lemma MoveLast(o: string, s: string)
    requires |o| > 0
    ensures o[..|o| - 1] + (o[|o| - 1..] + s) == o + s
  {
    assert o[..|o| - 1] + o[|o| - 1..] == o;
  }

  /** The stack is what follows the stem. */
  lemma SplitAt(o: string, s: string)
    ensures (o + s)[|o|..] == s
  {
  }

  /** detect2Group: the stem search loop that also stacks the letters it cuts. */
  method Detect2Group(word: string) returns (r: Result<int>)
    ensures r == Group2(word)
  {
    var osnova := word;
    var stack := "";
    while |osnova| > 0 && In(osnova[|osnova| - 1..], Stripped)
      invariant osnova + stack == word
      invariant Osnova(osnova) == Osnova(word)
      decreases |osnova|
    {
      LastStripped(osnova);
      OsnovaStep(osnova);
      MoveLast(osnova, stack);
      stack := osnova[|osnova| - 1..] + stack;
      osnova := osnova[..|osnova| - 1];
    }
    if |osnova| > 0 {
      LastStripped(osnova);
    }
    OsnovaFixed(osnova);
    SplitAt(osnova, stack);
    var last := "Z";
    if |stack| > 0 {
      last := stack[..1];
    }
    StackHead(word, stack);
    if |osnova| == 0 {
      return Throws(EmptyStem);
    }
    var osnovaEnd := osnova[|osnova| - 1..];
    if In(osnovaEnd, Neshyplyachi) && !In(last, Myaki) {
      r := Ok(1);
    } else if In(osnovaEnd, Shyplyachi) && !In(last, Myaki) {
      r := Ok(2);
    } else {
      r := Ok(3);
    }
  }

  /** The scan of FirstLastVowel over the positions n-1 down to 1. */
  function LastMatchBelow(w: string, letters: string, n: nat): (r: string)
    requires n <= |w|
    decreases n
  {
    if n <= 1 then ""
    else if In([w[n - 1]], letters) then [w[n - 1]]
    else LastMatchBelow(w, letters, n - 1)
  }

  /** The last letter of the word, looking no further left than position 1,
      that belongs to the set; "" if there is none. */
  function FirstLastVowel(w: string, letters: string): (r: string)
  {
    LastMatchBelow(w, letters, |w|)
  }

  /** The scan finds nothing exactly when no position 1..n-1 holds a letter of the set. */
  lemma {:induction false} LastMatchBelowEmpty(w: string, letters: string, n: nat)
    requires n <= |w|
    ensures LastMatchBelow(w, letters, n) == "" <==> forall i :: 1 <= i < n ==> w[i] !in letters
    decreases n
  {
    if n > 1 {
      InOneLetter(w[n - 1], letters);
      if w[n - 1] !in letters {
        LastMatchBelowEmpty(w, letters, n - 1);
      }
    }
  }

  /** Otherwise it returns the letter at the highest such position. */
  lemma {:induction false} LastMatchBelowFound(w: string, letters: string, n: nat)
    requires n <= |w| && LastMatchBelow(w, letters, n) != ""
    ensures exists i :: (1 <= i < n && LastMatchBelow(w, letters, n) == [w[i]] && w[i] in letters &&
                         forall j :: i < j < n ==> w[j] !in letters)
    decreases n
  {
    InOneLetter(w[n - 1], letters);
    if w[n - 1] in letters {
      assert LastMatchBelow(w, letters, n) == [w[n - 1]];
    } else {
      LastMatchBelowFound(w, letters, n - 1);
      var i :| 1 <= i < n - 1 && LastMatchBelow(w, letters, n - 1) == [w[i]] && w[i] in letters &&
               forall j :: i < j < n - 1 ==> w[j] !in letters;
      assert forall j :: i < j < n ==> w[j] !in letters;
    }
  }

  /** FirstLastVowel never looks at position 0: changing the first letter
      does not change the result. */
  lemma {:induction false} FirstLastVowelSkipsFirst(w: string, c: char, letters: string)
    requires |w| >= 1
    ensures FirstLastVowel([c] + w[1..], letters) == FirstLastVowel(w, letters)
  {
    var v := [c] + w[1..];
    ScanAgrees(w, v, letters, |w|);
  }

  lemma {:induction false} ScanAgrees(w: string, v: string, letters: string, n: nat)
    requires n <= |w| == |v| && forall i :: 1 <= i < |w| ==> w[i] == v[i]
    ensures LastMatchBelow(w, letters, n) == LastMatchBelow(v, letters, n)
    decreases n
  {
    if n > 1 {
      ScanAgrees(w, v, letters, n - 1);
    }
  }

  /** FirstLastVowel: the loop from the last position down to position 1. */
  method FindFirstLastVowel(word: string, letters: string) returns (r: string)
    ensures r == FirstLastVowel(word, letters)
  {
    var i := |word| - 1;
    while i > 0
      invariant i < |word|
      invariant LastMatchBelow(word, letters, |word|) == LastMatchBelow(word, letters, if i < 0 then 0 else i + 1)
      decreases i
    {
      var letter := word[i..i + 1];
      assert letter == [word[i]];
      if In(letter, letters) {
        return letter;
      }
      i := i - 1;
    }
    r := "";
  }

  // ---------------------------------------------------------------------
  // Rules. The working word w is lower case; beforeLast is LastAt(w, 2, 1).

  /** The first-declension endings after the letter b that precedes a final
      -а, with г, к, х alternating before the dative and locative -і. Both the
      men's and the women's rule use this table. */
  function AEndings(b: string): seq<string> {
    [b + "и", InverseGKH(b) + "і", b + "у", b + "ою", InverseGKH(b) + "і", b + "о"]
  }

  /** The same for a final -я after a hard letter b. */
  function YaEndings(b: string): seq<string> {
    [b + "і", InverseGKH(b) + "і", b + "ю", b + "ею", InverseGKH(b) + "і", b + "е"]
  }

  /** A Ukrainian declension: slot 0 holds the word, and each of the six
      slots after it the stem less its last k letters followed by one ending;
      a cut longer than the stem throws. */
  function Decline(rule: int, w: string, stem: string, endings: seq<string>, k: nat): (r: Outcome)
    requires |endings| == 6
    ensures k <= |stem| ==> var s := stem[..|stem| - k];
      r == Declined(Some(rule), [w, s + endings[0], s + endings[1], s + endings[2], s + endings[3], s + endings[4], s + endings[5]])
    ensures k > |stem| ==> r == Crash(TrimTooLong)
  {
    FormsOf6(rule, w, stem, endings, k);
    Forms(rule, w, stem, endings, k)
  }

  /** Men's names in -а and -я, declined as nouns of the first declension. */
  function ManRule1(w: string): (r: Outcome)
    ensures r.NoMatch? <==> Last(w, 1) != "а" && Last(w, 1) != "я"
    ensures r.Crash? ==> r.fault == TrimTooLong && |w| == 1
    ensures r.Crash? <==> w == "а" || w == "я"
    ensures KeepsWord(r, w, CaseCount)
    ensures r.Declined? && Last(w, 1) == "а" ==> r.rule == Some(101)
    ensures r.Declined? && Last(w, 1) == "я" ==> r.rule == Some(if LastAt(w, 2, 1) == "і" then 102 else 103)
  {
    var beforeLast := LastAt(w, 2, 1);
    if Last(w, 1) == "а" then
      Forms(101, w, w, AEndings(beforeLast), 2)
    else if Last(w, 1) == "я" then
      if beforeLast == "і" then Forms(102, w, w, ["ї", "ї", "ю", "єю", "ї", "є"], 1)
      else Forms(103, w, w, YaEndings(beforeLast), 2)
    else NoMatch
  }

  /** Men's names in -р: Ігор and Лазар take -я, the others -а; a stem vowel і
      before the р becomes о outside the nominative (Федір, Федора). */
  function ManRule2(w: string): (r: Outcome)
    ensures r.NoMatch? <==> Last(w, 1) != "р"
    ensures !r.Crash? && KeepsWord(r, w, CaseCount)
    ensures r.Declined? ==> r.rule == Some(if InNames(w, ["ігор", "лазар"]) then 201 else 202)
  {
    if Last(w, 1) == "р" then
      assert w[..|w| - 0] == w;
      if InNames(w, ["ігор", "лазар"]) then Decline(201, w, w, ["я", "еві", "я", "ем", "еві", "е"], 0)
      else
        var osnova := if LastAt(w, 2, 1) == "і" then w[..|w| - 2] + "о" + Last(w, 1) else w;
        assert osnova[..|osnova| - 0] == osnova;
        Decline(202, w, osnova, ["а", "ові", "а", "ом", "ові", "е"], 0)
    else NoMatch
  }

  /** Ігор and Лазар take -я and -еві: Ігоря, Ігореві. */
  lemma ManRule2Names(w: string)
    requires Last(w, 1) == "р" && InNames(w, ["ігор", "лазар"])
    ensures ManRule2(w) == Declined(Some(201), [w, w + "я", w + "еві", w + "я", w + "ем", w + "еві", w + "е"])
  {
    assert w[..|w| - 0] == w;
  }

  /** The other names in -р without і before it take -а and -ові: Віктор,
      Віктора, Вікторові. */
  lemma ManRule2Plain(w: string)
    requires Last(w, 1) == "р" && !InNames(w, ["ігор", "лазар"]) && LastAt(w, 2, 1) != "і"
    ensures ManRule2(w) == Declined(Some(202), [w, w + "а", w + "ові", w + "а", w + "ом", w + "ові", w + "е"])
  {
    assert w[..|w| - 0] == w;
  }

  /** Федір, Сидір: the nominative keeps і, every other case has о, and the
      engine's slot 0 is still the word itself. */
  lemma {:induction false} ManRule2Alternation(w: string)
    requires |w| >= 2 && w[|w| - 1] == 'р' && w[|w| - 2] == 'і' && !InNames(w, ["ігор", "лазар"])
    ensures ManRule2(w).Declined? && ManRule2(w).forms[0] == w
    ensures ManRule2(w).forms[1] == w[..|w| - 2] + "ора"
    ensures ManRule2(w).forms[5] == w[..|w| - 2] + "орові"
    ensures var o := w[..|w| - 2] + "ор";
      ManRule2(w) == Declined(Some(202), [w, o + "а", o + "ові", o + "а", o + "ом", o + "ові", o + "е"])
  {
    var stem := w[..|w| - 2] + "ор";
    IrSuffix(w);
    assert ManRule2(w) == Forms(202, w, stem, ["а", "ові", "а", "ом", "ові", "е"], 0) by {
      assert w[..|w| - 2] + "о" + "р" == stem;
    }
    FormsDeclines(202, w, stem, ["а", "ові", "а", "ом", "ові", "е"], 0);
    assert stem + "а" == w[..|w| - 2] + "ора";
    assert stem + "ові" == w[..|w| - 2] + "орові";
  }

  lemma IrSuffix(w: string)
    requires |w| >= 2 && w[|w| - 1] == 'р' && w[|w| - 2] == 'і'
    ensures Last(w, 1) == "р" && LastAt(w, 2, 1) == "і"
  {
    LastLetters(w);
  }

  /** The stem after the і-to-о alternation of ManRule3 (Нестір, Нестора), which
      spares stems in -й, the endings -світ and -цвіт, Гліб, and words ending
      in -ік or -іч. */
  function AltStem(w: string, osnova: string): (r: string)
    requires osnova != [] && osnova[|osnova| - 1] !in Stripped
    ensures |r| == |osnova| && r[|r| - 1] == osnova[|osnova| - 1]
  {
    if Last(osnova, 1) != "й" && LastAt(osnova, 2, 1) == "і" && !InList(Last(osnova, 4), ["світ", "цвіт"])
       && !InNames(w, ["гліб"]) && !InList(Last(w, 2), ["ік", "іч"])
    then osnova[..|osnova| - 2] + "о" + Last(osnova, 1)
    else osnova
  }

  /** The test before the е-dropping of words like Орел; the code behind it
      always throws (its Substring length overruns by one). */
  predicate DropsE(w: string, stem: string) {
    stem != [] && stem[..1] == "о" && FirstLastVowel(stem, Vowels + "гк") == "е" && Last(w, 2) != "сь"
  }

  /** Men's names in a consonant, -о or -ь, declined as nouns of the second
      declension by their group. */
  function ManRule3(w: string): (r: Outcome)
    ensures r.NoMatch? <==> !In(Last(w, 1), Consonant + "оь")
    ensures r.Crash? ==> r.fault == EmptyStem || r.fault == SubstringOverrun
    ensures KeepsWord(r, w, CaseCount)
  {
    if In(Last(w, 1), Consonant + "оь") then
      match Group2(w)
      case Throws(f) => Crash(f)
      case Ok(group) =>
        var osLast := Last(Osnova(w), 1);
        var osnova := AltStem(w, Osnova(w));
        SameLastLetter(osnova, Osnova(w));
        if DropsE(w, osnova) then Crash(SubstringOverrun)
        else ManRule3Group(w, group, osnova, osLast)
    else NoMatch
  }

  /** Two words ending in the same letter have the same one-letter suffix. */
  lemma SameLastLetter(a: string, b: string)
    requires |a| >= 1 && |b| >= 1 && a[|a| - 1] == b[|b| - 1]
    ensures Last(a, 1) == Last(b, 1)
  {
    LastOne(a);
    LastOne(b);
  }

  /** The branches of ManRule3 by group, after the stem has been found;
      osLast is the last letter of the stem. The sibilant group (rule 305)
      adds -а, -еві, -ем to the stem. */
  function ManRule3Group(w: string, group: int, osnova: string, osLast: string): (r: Outcome)
    requires osnova != [] && |w| >= 1 && osLast == Last(osnova, 1)
    ensures !r.NoMatch? && !r.Crash? && KeepsWord(r, w, CaseCount)
    ensures group == 2 ==>
      r == Declined(Some(305), [w, osnova + "а", osnova + "еві", osnova + "а", osnova + "ем", osnova + "еві", osnova + "е"])
  {
    if group == 1 then ManRule3Hard(w, osnova, osLast)
    else if group == 2 then
      assert osnova[..|osnova| - 0] == osnova;
      Decline(305, w, osnova, ["а", "еві", "а", "ем", "еві", "е"], 0)
    else ManRule3Soft(w, osnova)
  }

  /** The hard group: -ок, the Russian surnames in -ов, -ев, -єв, -ін, and the rest. */
  function ManRule3Hard(w: string, osnova: string, osLast: string): (r: Outcome)
    requires osnova != [] && |w| >= 1 && osLast == Last(osnova, 1)
    ensures !r.NoMatch? && !r.Crash? && KeepsWord(r, w, CaseCount)
  {
    if Last(w, 2) == "ок" && Last(w, 3) != "оок" then
      Decline(301, w, w, ["ка", "кові", "ка", "ком", "кові", "че"], 2)
    else if InList(Last(w, 2), ["ов", "ев", "єв"]) && !InNames(w, ["лев", "остромов"]) then
      Decline(302, w, osnova, [osLast + "а", osLast + "у", osLast + "а", osLast + "им", osLast + "у", Inverse2(osLast) + "е"], 1)
    else if InList(Last(w, 2), ["ін"]) then
      Decline(303, w, w, ["а", "у", "а", "ом", "у", "е"], 0)
    else
      Decline(304, w, osnova, [osLast + "а", osLast + "ові", osLast + "а", osLast + "ом", osLast + "ові", Inverse2(osLast) + "е"], 1)
  }

  /** -ок drops its о outside the nominative (Сорок, Сорока); the
      vocative ends in -че. */
  lemma ManRule3HardOk(w: string, osnova: string, osLast: string)
    requires osnova != [] && |w| >= 1 && osLast == Last(osnova, 1)
    requires Last(w, 2) == "ок" && Last(w, 3) != "оок"
    ensures |w| >= 2 && var s := w[..|w| - 2];
      ManRule3Hard(w, osnova, osLast) ==
        Declined(Some(301), [w, s + "ка", s + "кові", s + "ка", s + "ком", s + "кові", s + "че"])
  {
  }

  /** The Russian surnames in -ов, -ев, -єв take -у in the dative and -им in
      the instrumental (Петров, Петрову, Петровим). */
  lemma ManRule3HardOv(w: string, osnova: string, osLast: string)
    requires osnova != [] && |w| >= 1 && osLast == Last(osnova, 1)
    requires InList(Last(w, 2), ["ов", "ев", "єв"]) && !InNames(w, ["лев", "остромов"])
    ensures var v := osnova[..|osnova| - 1] + Inverse2(osLast) + "е";
      ManRule3Hard(w, osnova, osLast) ==
        Declined(Some(302), [w, osnova + "а", osnova + "у", osnova + "а", osnova + "им", osnova + "у", v])
  {
    var e := [osLast + "а", osLast + "у", osLast + "а", osLast + "им", osLast + "у", Inverse2(osLast) + "е"];
    OvNotOk(Last(w, 2));
    assert ManRule3Hard(w, osnova, osLast) == Decline(302, w, osnova, e, 1);
    StemForms(302, w, osnova, osLast, ["а", "у", "а", "им", "у"]);
  }

  lemma OvNotOk(l: string)
    requires InList(l, ["ов", "ев", "єв"])
    ensures l != "ок"
  {
    assert l[1] == 'в';
  }

  /** The Russian surnames in -ін add their endings to the whole word, even
      where the stem alternates (Пушкін, Пушкіна; Антін, Антіна). */
  lemma ManRule3HardIn(w: string, osnova: string, osLast: string)
    requires osnova != [] && |w| >= 1 && osLast == Last(osnova, 1)
    requires Last(w, 2) == "ін"
    ensures ManRule3Hard(w, osnova, osLast) ==
      Declined(Some(303), [w, w + "а", w + "у", w + "а", w + "ом", w + "у", w + "е"])
  {
    assert w[..|w| - 0] == w;
  }

  /** Every other hard word adds -а, -ові, -ом to its stem, and the vocative
      softens a final к or г (Богдан, Богдана, Богданові). */
  lemma ManRule3HardRest(w: string, osnova: string, osLast: string)
    requires osnova != [] && |w| >= 1 && osLast == Last(osnova, 1)
    requires !(Last(w, 2) == "ок" && Last(w, 3) != "оок")
    requires !(InList(Last(w, 2), ["ов", "ев", "єв"]) && !InNames(w, ["лев", "остромов"]))
    requires !InList(Last(w, 2), ["ін"])
    ensures var v := osnova[..|osnova| - 1] + Inverse2(osLast) + "е";
      ManRule3Hard(w, osnova, osLast) ==
        Declined(Some(304), [w, osnova + "а", osnova + "ові", osnova + "а", osnova + "ом", osnova + "ові", v])
  {
    HardRestRoute(w, osnova, osLast);
    StemForms(304, w, osnova, osLast, ["а", "ові", "а", "ом", "ові"]);
  }

  /** The route to rule 304, kept apart from the forms it produces. */
  lemma HardRestRoute(w: string, osnova: string, osLast: string)
    requires osnova != [] && |w| >= 1 && osLast == Last(osnova, 1)
    requires !(Last(w, 2) == "ок" && Last(w, 3) != "оок")
    requires !(InList(Last(w, 2), ["ов", "ев", "єв"]) && !InNames(w, ["лев", "остромов"]))
    requires !InList(Last(w, 2), ["ін"])
    ensures ManRule3Hard(w, osnova, osLast) ==
      Decline(304, w, osnova, [osLast + "а", osLast + "ові", osLast + "а", osLast + "ом", osLast + "ові", Inverse2(osLast) + "е"], 1)
  {
  }

  /** A declension on the stem less its last letter, whose endings start with
      that letter, has the stem followed by the tails as its forms. */
  lemma StemForms(rule: int, w: string, osnova: string, osLast: string, tails: seq<string>)
    requires osnova != [] && osLast == Last(osnova, 1) && |tails| == 5
    ensures var e := [osLast + tails[0], osLast + tails[1], osLast + tails[2], osLast + tails[3], osLast + tails[4], Inverse2(osLast) + "е"];
      Decline(rule, w, osnova, e, 1) ==
        Declined(Some(rule), [w, osnova + tails[0], osnova + tails[1], osnova + tails[2], osnova + tails[3], osnova + tails[4],
                              osnova[..|osnova| - 1] + Inverse2(osLast) + "е"])
  {
    StemTail(osnova, osLast, tails[0]);
    StemTail(osnova, osLast, tails[1]);
    StemTail(osnova, osLast, tails[2]);
    StemTail(osnova, osLast, tails[3]);
    StemTail(osnova, osLast, tails[4]);
    var s := osnova[..|osnova| - 1];
    assert s + (Inverse2(osLast) + "е") == s + Inverse2(osLast) + "е";
  }

  /** The stem less its last letter, followed by that letter and a tail,
      is the stem followed by the tail. */
  lemma StemTail(osnova: string, osLast: string, t: string)
    requires osnova != [] && osLast == Last(osnova, 1)
    ensures osnova[..|osnova| - 1] + (osLast + t) == osnova + t
  {
    var s := osnova[..|osnova| - 1];
    LastOne(osnova);
    assert s + osLast == osnova;
    assert s + (osLast + t) == (s + osLast) + t;
  }

  /** The soft group: -ей after a labial, -й or і before the last letter,
      Швець, -ець, -єць, -яць, and the rest. */
  function ManRule3Soft(w: string, osnova: string): (r: Outcome)
    requires |w| >= 1
    ensures !r.NoMatch? && !r.Crash? && KeepsWord(r, w, CaseCount)
  {
    if Last(w, 2) == "ей" && In(LastAt(w, 3, 1), Gubni) then
      var s := w[..|w| - 2] + "’";
      assert s[..|s| - 0] == s;
      Decline(306, w, s, ["я", "єві", "я", "єм", "єві", "ю"], 0)
    else if Last(w, 1) == "й" || LastAt(w, 2, 1) == "і" then
      Decline(307, w, w, ["я", "єві", "я", "єм", "єві", "ю"], 1)
    else if w == "швець" then
      assert w[..|w| - 4] == "ш";
      Decline(308, w, w, ["евця", "евцеві", "евця", "евцем", "евцеві", "евцю"], 4)
    else if Last(w, 3) == "ець" then
      Decline(309, w, w, ["ця", "цеві", "ця", "цем", "цеві", "цю"], 3)
    else if InList(Last(w, 3), ["єць", "яць"]) then
      Decline(310, w, w, ["йця", "йцеві", "йця", "йцем", "йцеві", "йцю"], 3)
    else
      assert osnova[..|osnova| - 0] == osnova;
      Decline(311, w, osnova, ["я", "еві", "я", "ем", "еві", "ю"], 0)
  }

  /** -ей after a labial keeps an apostrophe before its endings (Соловей,
      Солов’я, Солов’єві). */
  lemma ManRule3SoftLabial(w: string, osnova: string)
    requires |w| >= 1 && Last(w, 2) == "ей" && In(LastAt(w, 3, 1), Gubni)
    ensures |w| >= 2 && var s := w[..|w| - 2] + "’";
      ManRule3Soft(w, osnova) == Declined(Some(306), [w, s + "я", s + "єві", s + "я", s + "єм", s + "єві", s + "ю"])
  {
    var s := w[..|w| - 2] + "’";
    assert s[..|s| - 0] == s;
  }

  /** A final й, or і before the last letter, gives the soft endings in
      place of the last letter (Андрій, Андрія, Андрієві). */
  lemma ManRule3SoftY(w: string, osnova: string)
    requires |w| >= 1 && !(Last(w, 2) == "ей" && In(LastAt(w, 3, 1), Gubni))
    requires Last(w, 1) == "й" || LastAt(w, 2, 1) == "і"
    ensures var s := w[..|w| - 1];
      ManRule3Soft(w, osnova) == Declined(Some(307), [w, s + "я", s + "єві", s + "я", s + "єм", s + "єві", s + "ю"])
  {
  }

  /** Швець loses its first е and gains one before ц: Шевця, Шевцеві. */
  lemma ManRule3SoftShvets(osnova: string)
    ensures ManRule3Soft("швець", osnova) ==
      Declined(Some(308), ["швець", "шевця", "шевцеві", "шевця", "шевцем", "шевцеві", "шевцю"])
  {
    var w := "швець";
    LastLetters(w);
    assert Last(w, 2) == "ць" && Last(w, 1) == "ь" && LastAt(w, 2, 1) == "ц";
    assert ManRule3Soft(w, osnova) == Decline(308, w, w, ["евця", "евцеві", "евця", "евцем", "евцеві", "евцю"], 4);
    assert w[..|w| - 4] == "ш";
    assert "ш" + "евця" == "шевця" && "ш" + "евцеві" == "шевцеві";
    assert "ш" + "евцем" == "шевцем" && "ш" + "евцю" == "шевцю";
  }

  /** Other words in -ець drop the е: Кравець, Кравця, Кравцеві. */
  lemma ManRule3SoftEts(w: string, osnova: string)
    requires |w| >= 1 && Last(w, 3) == "ець" && w != "швець"
    ensures |w| >= 3 && var s := w[..|w| - 3];
      ManRule3Soft(w, osnova) == Declined(Some(309), [w, s + "ця", s + "цеві", s + "ця", s + "цем", s + "цеві", s + "цю"])
  {
    LastLetters(w);
  }

  /** -єць and -яць turn the vowel into й: Заєць, Зайця, Зайцеві. */
  lemma ManRule3SoftYets(w: string, osnova: string)
    requires |w| >= 1 && InList(Last(w, 3), ["єць", "яць"])
    ensures |w| >= 3 && var s := w[..|w| - 3];
      ManRule3Soft(w, osnova) == Declined(Some(310), [w, s + "йця", s + "йцеві", s + "йця", s + "йцем", s + "йцеві", s + "йцю"])
  {
    LastLetters(w);
    assert |w| >= 3 && w[|w| - 1] == 'ь' && w[|w| - 2] == 'ц';
    assert Last(w, 2) == "ць" && Last(w, 1) == "ь" && LastAt(w, 2, 1) == "ц";
    assert w != "швець" && Last(w, 3) != "ець";
    assert ManRule3Soft(w, osnova) == Decline(310, w, w, ["йця", "йцеві", "йця", "йцем", "йцеві", "йцю"], 3);
  }

  /** Every other soft word adds -я, -еві, -ем, -ю to its stem (Ігнать,
      Ігнатя). */
  lemma ManRule3SoftRest(w: string, osnova: string)
    requires |w| >= 1 && !(Last(w, 2) == "ей" && In(LastAt(w, 3, 1), Gubni))
    requires Last(w, 1) != "й" && LastAt(w, 2, 1) != "і" && w != "швець"
    requires Last(w, 3) != "ець" && !InList(Last(w, 3), ["єць", "яць"])
    ensures ManRule3Soft(w, osnova) ==
      Declined(Some(311), [w, osnova + "я", osnova + "еві", osnova + "я", osnova + "ем", osnova + "еві", osnova + "ю"])
  {
    assert osnova[..|osnova| - 0] == osnova;
  }

  /** ManRule3 throws on an empty stem exactly when its guard holds and the
      word is made only of vowels and ь (Ua.cs:136). */
  lemma {:induction false} ManRule3EmptyStem(w: string)
    ensures ManRule3(w) == Crash(EmptyStem) <==> In(Last(w, 1), Consonant + "оь") && Osnova(w) == []
  {
  }

  /** ManRule3 throws in the е-dropping branch exactly when the guard holds,
      the stem is non-empty, and the alternated stem starts with о, has е as
      its last vowel and the word does not end in -сь (Ua.cs:286-289). */
  lemma {:induction false} ManRule3DropsEThrows(w: string)
    ensures ManRule3(w) == Crash(SubstringOverrun) <==>
      In(Last(w, 1), Consonant + "оь") && Osnova(w) != [] && DropsE(w, AltStem(w, Osnova(w)))
  {
  }

  /** Russian surnames in -ов, -ев, -єв take -им in the instrumental
      (Петров, Петровим), unless the е-dropping test throws first. */
  lemma {:induction false} ManRule3OvSurname(w: string)
    requires |w| >= 2 && w[|w| - 1] == 'в' && w[|w| - 2] in "оеє"
    requires !InNames(w, ["лев", "остромов"]) && !DropsE(w, w)
    ensures ManRule3(w) == Declined(Some(302), WordForms(w, w, ["ва", "ву", "ва", "вим", "ву", "ве"], 1))
    ensures ManRule3(w).forms[4] == w + "им"
  {
    HardStemInV(w);
    assert ManRule3(w) == ManRule3Group(w, 1, w, "в");
    OvGroupForms(w);
  }

  /** A word ending in в is its own stem, of the hard group, with no і to alternate. */
  lemma {:induction false} HardStemInV(w: string)
    requires |w| >= 2 && w[|w| - 1] == 'в' && w[|w| - 2] != 'і'
    ensures In(Last(w, 1), Consonant + "оь")
    ensures Osnova(w) == w && Last(Osnova(w), 1) == "в"
    ensures Group2(w) == Ok(1)
    ensures AltStem(w, w) == w
  {
    LastLetters(w);
    InOneLetter('в', Consonant + "оь");
    StemOfHardEnd(w);
    HardGroup(w);
  }

  /** Нестір, Сидір: a hard word whose last syllable is і before a hard
      consonant other than к and н has о in that syllable in every case but
      the nominative (Нестора, Несторові). */
  lemma ManRule3Alternation(w: string)
    requires |w| >= 3 && w[0] != 'о' && w[|w| - 2] == 'і'
    requires w[|w| - 1] in Neshyplyachi && w[|w| - 1] !in "кн"
    requires !InList(Last(w, 4), ["світ", "цвіт"]) && !InNames(w, ["гліб"])
    ensures var o := w[..|w| - 2] + "о" + [w[|w| - 1]];
      var v := w[..|w| - 2] + "о" + Inverse2([w[|w| - 1]]) + "е";
      ManRule3(w) == Declined(Some(304), [w, o + "а", o + "ові", o + "а", o + "ом", o + "ові", v])
  {
    AlternationRoute(w);
    AlternationForms(w);
  }

  /** The route of ManRule3Alternation: the word is its own stem, of the hard
      group, and the stem alternates without reaching the е-dropping test. */
  lemma AlternationRoute(w: string)
    requires |w| >= 3 && w[0] != 'о' && w[|w| - 2] == 'і'
    requires w[|w| - 1] in Neshyplyachi && w[|w| - 1] !in "кн"
    requires !InList(Last(w, 4), ["світ", "цвіт"]) && !InNames(w, ["гліб"])
    ensures var c := w[|w| - 1];
      ManRule3(w) == ManRule3Hard(w, w[..|w| - 2] + "о" + [c], [c])
  {
    var c := w[|w| - 1];
    var o := w[..|w| - 2] + "о" + [c];
    AltLetters(w);
    StemOfHardEnd(w);
    HardGroup(w);
    AltStemAlternates(w);
    KeepsE(w, o);
  }

  lemma AltStemAlternates(w: string)
    requires |w| >= 3 && w[|w| - 2] == 'і'
    requires w[|w| - 1] in Neshyplyachi && w[|w| - 1] !in "кн"
    requires !InList(Last(w, 4), ["світ", "цвіт"]) && !InNames(w, ["гліб"])
    ensures w[|w| - 1] !in Stripped
    ensures AltStem(w, w) == w[..|w| - 2] + "о" + [w[|w| - 1]]
  {
    AltLetters(w);
  }

  /** The letter tests of AltStem on a word in і plus a hard consonant. */
  lemma AltLetters(w: string)
    requires |w| >= 3 && w[|w| - 2] == 'і'
    requires w[|w| - 1] in Neshyplyachi && w[|w| - 1] !in "кн"
    ensures w[|w| - 1] !in Stripped && w[|w| - 1] in Consonant + "оь"
    ensures Last(w, 1) == [w[|w| - 1]] && Last(w, 1) != "й" && LastAt(w, 2, 1) == "і"
    ensures !InList(Last(w, 2), ["ік", "іч"]) && In(Last(w, 1), Consonant + "оь")
  {
    HardLetters(w[|w| - 1]);
    LastLetterIn(w, Consonant + "оь");
    LastOne(w);
    LastLetters(w);
    AltSyllable(Last(w, 2));
  }

  /** A stem that does not start with о never reaches the е-dropping code. */
  lemma KeepsE(w: string, stem: string)
    requires stem != [] && stem[0] != 'о'
    ensures !DropsE(w, stem)
  {
    assert stem[..1] == [stem[0]];
  }

  /** The forms of the alternated stem, by rule 304. */
  lemma AlternationForms(w: string)
    requires |w| >= 3 && w[|w| - 2] == 'і'
    requires w[|w| - 1] in Neshyplyachi && w[|w| - 1] !in "кн"
    ensures var o := w[..|w| - 2] + "о" + [w[|w| - 1]];
      var v := w[..|w| - 2] + "о" + Inverse2([w[|w| - 1]]) + "е";
      ManRule3Hard(w, o, [w[|w| - 1]]) == Declined(Some(304), [w, o + "а", o + "ові", o + "а", o + "ом", o + "ові", v])
  {
    var c := w[|w| - 1];
    var o := w[..|w| - 2] + "о" + [c];
    LastOne(o);
    LastLetters(w);
    AltSyllable(Last(w, 2));
    ManRule3HardRest(w, o, [c]);
    assert o[..|o| - 1] == w[..|w| - 2] + "о";
  }

  /** A final syllable і plus a consonant other than к, ч and н meets none of
      the special cases of the hard group or of the alternation. */
  lemma AltSyllable(l: string)
    requires |l| == 2 && l[0] == 'і' && l[1] !in "кчн"
    ensures l != "ок" && !InList(l, ["ов", "ев", "єв"]) && !InList(l, ["ін"]) && !InList(l, ["ік", "іч"])
  {
  }

  lemma HardLetters(c: char)
    requires c in Neshyplyachi
    ensures c in Consonant + "оь" && c !in Stripped && c != 'й'
  {
  }

  /** A word whose last letter is not a vowel or ь is its own stem. */
  lemma StemOfHardEnd(w: string)
    requires |w| >= 1 && w[|w| - 1] !in Stripped
    ensures Osnova(w) == w
  {
    InOneLetter(w[|w| - 1], Stripped);
  }

  /** A word that is its own stem and ends in a hard consonant is of group 1. */
  lemma HardGroup(w: string)
    requires |w| >= 1 && Osnova(w) == w && w[|w| - 1] in Neshyplyachi
    ensures Group2(w) == Ok(1)
  {
    NothingStripped(w);
    LastLetterIn(w, Neshyplyachi);
    ZeroEndingIsHard();
  }

  lemma NothingStripped(w: string)
    requires Osnova(w) == w
    ensures FirstStripped(w) == "Z"
  {
  }

  lemma ZeroEndingIsHard()
    ensures !In("Z", Myaki)
  {
    InOneLetter('Z', Myaki);
  }

  /** The one-letter suffix of w is in a letter set exactly when its last letter is. */
  lemma LastLetterIn(w: string, letters: string)
    requires |w| >= 1
    ensures In(w[|w| - 1..], letters) <==> w[|w| - 1] in letters
  {
    assert w[|w| - 1..] == [w[|w| - 1]];
    InOneLetter(w[|w| - 1], letters);
  }

  /** The -ов branch of the hard group. */
  lemma {:induction false} OvGroupForms(w: string)
    requires |w| >= 2 && w[|w| - 1] == 'в' && w[|w| - 2] in "оеє"
    requires !InNames(w, ["лев", "остромов"])
    ensures ManRule3Group(w, 1, w, "в") == Declined(Some(302), WordForms(w, w, ["ва", "ву", "ва", "вим", "ву", "ве"], 1))
    ensures WordForms(w, w, ["ва", "ву", "ва", "вим", "ву", "ве"], 1)[4] == w + "им"
  {
    OvRoute(w);
    FormsDeclines(302, w, w, ["ва", "ву", "ва", "вим", "ву", "ве"], 1);
    OvInstrumental(w);
  }

  lemma OvRoute(w: string)
    requires |w| >= 2 && w[|w| - 1] == 'в' && w[|w| - 2] in "оеє"
    requires !InNames(w, ["лев", "остромов"])
    ensures ManRule3Group(w, 1, w, "в") == Forms(302, w, w, ["ва", "ву", "ва", "вим", "ву", "ве"], 1)
  {
    OvBranch(w);
    VEndings();
  }

  lemma OvInstrumental(w: string)
    requires |w| >= 1 && w[|w| - 1] == 'в'
    ensures WordForms(w, w, ["ва", "ву", "ва", "вим", "ву", "ве"], 1)[4] == w + "им"
  {
    InstrumentalV(w);
  }

  lemma InstrumentalV(w: string)
    requires |w| >= 1 && w[|w| - 1] == 'в'
    ensures w[..|w| - 1] + "вим" == w + "им"
  {
    SplitLast(w);
    assert "вим" == "в" + "им";
  }

  lemma OvBranch(w: string)
    requires |w| >= 2 && w[|w| - 1] == 'в' && w[|w| - 2] in "оеє"
    requires !InNames(w, ["лев", "остромов"])
    ensures ManRule3Hard(w, w, "в") ==
      Forms(302, w, w, ["в" + "а", "в" + "у", "в" + "а", "в" + "им", "в" + "у", Inverse2("в") + "е"], 1)
  {
    OvSuffix(w);
  }

  lemma OvSuffix(w: string)
    requires |w| >= 2 && w[|w| - 1] == 'в' && w[|w| - 2] in "оеє"
    ensures Last(w, 2) != "ок" && InList(Last(w, 2), ["ов", "ев", "єв"])
  {
    LastLetters(w);
  }

  lemma VEndings()
    ensures ["в" + "а", "в" + "у", "в" + "а", "в" + "им", "в" + "у", Inverse2("в") + "е"] ==
      ["ва", "ву", "ва", "вим", "ву", "ве"]
  {
    assert "в" + "а" == "ва";
    assert "в" + "у" == "ву";
    assert "в" + "им" == "вим";
    assert Inverse2("в") + "е" == "ве";
  }

  /** Surnames in -і decline as plurals. */
  function ManRule4(w: string): (r: Outcome)
    ensures r.NoMatch? <==> Last(w, 1) != "і"
    ensures !r.Crash? && KeepsWord(r, w, CaseCount)
    ensures r.Declined? ==> r.rule == Some(4) && |w| >= 1 && SlotsStartWith(r, w[..|w| - 1])
    ensures r.Declined? ==> r.forms[6] == w
    ensures r.Declined? ==> |w| >= 1 && var s := w[..|w| - 1];
      r == Declined(Some(4), [w, s + "их", s + "им", s + "их", s + "ими", s + "их", s + "і"])
  {
    if Last(w, 1) == "і" then
      SplitLast(w);
      Decline(4, w, w, ["их", "им", "их", "ими", "их", "і"], 1)
    else NoMatch
  }

  /** Adjectival surnames in -ий and -ой. */
  function ManRule5(w: string): (r: Outcome)
    ensures r.NoMatch? <==> !InList(Last(w, 2), ["ий", "ой"])
    ensures !r.Crash? && KeepsWord(r, w, CaseCount)
    ensures r.Declined? ==> r.rule == Some(5) && |w| >= 2 && r.forms[1] == w[..|w| - 2] + "ого"
    ensures r.Declined? ==> |w| >= 2 && var s := w[..|w| - 2];
      r == Declined(Some(5), [w, s + "ого", s + "ому", s + "ого", s + "им", s + "ому", s + "ий"])
  {
    if InList(Last(w, 2), ["ий", "ой"]) then Decline(5, w, w, ["ого", "ому", "ого", "им", "ому", "ий"], 2)
    else NoMatch
  }

  /** Women's names in -а and -я; -ніга becomes -нога outside the nominative. */
  function WomanRule1(w: string): (r: Outcome)
    ensures r.NoMatch? <==> Last(w, 4) != "ніга" && Last(w, 1) != "а" && Last(w, 1) != "я"
    ensures r.Crash? ==> r.fault == TrimTooLong && |w| == 1
    ensures r.Crash? <==> w == "а"
    ensures KeepsWord(r, w, CaseCount)
    ensures Last(w, 4) == "ніга" ==> |w| >= 4 && r.Declined? && r.rule == Some(101) && r.forms[1] == w[..|w| - 3] + "оги"
    ensures r.Declined? && Last(w, 4) != "ніга" && Last(w, 1) == "а" ==> r.rule == Some(102)
  {
    var beforeLast := LastAt(w, 2, 1);
    if Last(w, 4) == "ніга" then
      Forms(101, w, w[..|w| - 3] + "о", ["ги", "зі", "гу", "гою", "зі", "го"], 0)
    else if Last(w, 1) == "а" then
      Forms(102, w, w, AEndings(beforeLast), 2)
    else if Last(w, 1) == "я" then
      InOneLetter('я', Vowels);
      assert w == "я" ==> In(beforeLast, Vowels);
      if In(beforeLast, Vowels) || IsApostrof(beforeLast) then
        Forms(103, w, w, ["ї", "ї", "ю", "єю", "ї", "є"], 1)
      else
        Forms(104, w, w, YaEndings(beforeLast), 2)
    else NoMatch
  }

  /** For a word in -а the men's rule 101 and the women's rule 102 give the
      same forms. */
  lemma {:induction false} RuleAForms(w: string)
    requires |w| >= 2 && w[|w| - 1] == 'а' && Last(w, 4) != "ніга"
    ensures ManRule1(w) == Declined(Some(101), WordForms(w, w, AEndings([w[|w| - 2]]), 2))
    ensures WomanRule1(w) == Declined(Some(102), WordForms(w, w, AEndings([w[|w| - 2]]), 2))
    ensures var s := w[..|w| - 1]; var t := w[..|w| - 2] + InverseGKH([w[|w| - 2]]);
      ManRule1(w) == Declined(Some(101), [w, s + "и", t + "і", s + "у", s + "ою", t + "і", s + "о"])
    ensures var s := w[..|w| - 1]; var t := w[..|w| - 2] + InverseGKH([w[|w| - 2]]);
      WomanRule1(w) == Declined(Some(102), [w, s + "и", t + "і", s + "у", s + "ою", t + "і", s + "о"])
  {
    assert Last(w, 1) == "а" && LastAt(w, 2, 1) == [w[|w| - 2]] by {
      LastLetters(w);
    }
    AList(w);
  }

  /** Men's words in -а, -ніга included (Кривоніга, Кривоніги, Кривонізі):
      rule 101 writes the first-declension list on the word less its а, with
      г, к, х alternated before the dative and locative -і. */
  lemma {:induction false} ManRule1A(w: string)
    requires |w| >= 2 && w[|w| - 1] == 'а'
    ensures var s := w[..|w| - 1]; var t := w[..|w| - 2] + InverseGKH([w[|w| - 2]]);
      ManRule1(w) == Declined(Some(101), [w, s + "и", t + "і", s + "у", s + "ою", t + "і", s + "о"])
  {
    assert Last(w, 1) == "а" && LastAt(w, 2, 1) == [w[|w| - 2]] by {
      LastLetters(w);
    }
    AList(w);
  }

  /** The first-declension table after the letter before the last, spelled
      out on the word with its last letter cut. */
  lemma {:induction false} AList(w: string)
    requires |w| >= 2
    ensures var s := w[..|w| - 1]; var t := w[..|w| - 2] + InverseGKH([w[|w| - 2]]);
      WordForms(w, w, AEndings([w[|w| - 2]]), 2) == [w, s + "и", t + "і", s + "у", s + "ою", t + "і", s + "о"]
  {
    var b := [w[|w| - 2]];
    var c := w[..|w| - 2];
    var i := InverseGKH(b);
    assert c + b == w[..|w| - 1];
    assert c + (b + "и") == c + b + "и";
    assert c + (i + "і") == c + i + "і";
    assert c + (b + "у") == c + b + "у";
    assert c + (b + "ою") == c + b + "ою";
    assert c + (b + "о") == c + b + "о";
  }

  /** The same for the table of a final я after a hard letter. */
  lemma {:induction false} YaList(w: string)
    requires |w| >= 2
    ensures var s := w[..|w| - 1]; var t := w[..|w| - 2] + InverseGKH([w[|w| - 2]]);
      WordForms(w, w, YaEndings([w[|w| - 2]]), 2) == [w, s + "і", t + "і", s + "ю", s + "ею", t + "і", s + "е"]
  {
    var b := [w[|w| - 2]];
    var c := w[..|w| - 2];
    var i := InverseGKH(b);
    assert c + b == w[..|w| - 1];
    assert c + (b + "і") == c + b + "і";
    assert c + (i + "і") == c + i + "і";
    assert c + (b + "ю") == c + b + "ю";
    assert c + (b + "ею") == c + b + "ею";
    assert c + (b + "е") == c + b + "е";
  }

  /** Ілля: after a letter other than і, a final я gives -і, -ю, -ею, -е on
      the word less its я, with г, к, х alternating before the dative and
      locative -і: Іллі, Іллю, Іллею, Ілле. */
  lemma {:induction false} ManRule1Ya(w: string)
    requires |w| >= 2 && w[|w| - 1] == 'я' && w[|w| - 2] != 'і'
    ensures var s := w[..|w| - 1]; var t := w[..|w| - 2] + InverseGKH([w[|w| - 2]]);
      ManRule1(w) == Declined(Some(103), [w, s + "і", t + "і", s + "ю", s + "ею", t + "і", s + "е"])
  {
    LastLetters(w);
    assert ManRule1(w) == Forms(103, w, w, YaEndings([w[|w| - 2]]), 2);
    YaList(w);
  }

  /** After і a final я gives -ї, -ю, -єю, -є: Ілія, Ілії, Ілією. */
  lemma {:induction false} ManRule1Iya(w: string)
    requires |w| >= 2 && w[|w| - 1] == 'я' && w[|w| - 2] == 'і'
    ensures var s := w[..|w| - 1];
      ManRule1(w) == Declined(Some(102), [w, s + "ї", s + "ї", s + "ю", s + "єю", s + "ї", s + "є"])
  {
    LastLetters(w);
    assert ManRule1(w) == Forms(102, w, w, ["ї", "ї", "ю", "єю", "ї", "є"], 1);
    FormsOf6(102, w, w, ["ї", "ї", "ю", "єю", "ї", "є"], 1);
  }

  /** -ніга becomes -нога outside the nominative, with з before the dative
      and locative -і: Перебийніга, Перебийноги, Перебийнозі. */
  lemma {:induction false} WomanRule1Noga(w: string)
    requires Last(w, 4) == "ніга"
    ensures |w| >= 4 && var o := w[..|w| - 3] + "о";
      WomanRule1(w) == Declined(Some(101), [w, o + "ги", o + "зі", o + "гу", o + "гою", o + "зі", o + "го"])
  {
    var o := w[..|w| - 3] + "о";
    assert WomanRule1(w) == Forms(101, w, o, ["ги", "зі", "гу", "гою", "зі", "го"], 0);
    FormsOf6(101, w, o, ["ги", "зі", "гу", "гою", "зі", "го"], 0);
    assert o[..|o| - 0] == o;
  }

  /** Олеся: after a consonant a final я gives -і, -ю, -ею, -е on the word
      less its я: Олесі, Олесю, Олесею, Олесе. */
  lemma {:induction false} WomanRule1HardYa(w: string)
    requires |w| >= 2 && w[|w| - 1] == 'я' && w[|w| - 2] !in Vowels && w[|w| - 2] in " " + Consonant + Vowels
    ensures var s := w[..|w| - 1]; var t := w[..|w| - 2] + InverseGKH([w[|w| - 2]]);
      WomanRule1(w) == Declined(Some(104), [w, s + "і", t + "і", s + "ю", s + "ею", t + "і", s + "е"])
  {
    HardYaLetters(w);
    HardYaRoute(w);
    YaList(w);
  }

  lemma HardYaLetters(w: string)
    requires |w| >= 2 && w[|w| - 1] == 'я' && w[|w| - 2] !in Vowels && w[|w| - 2] in " " + Consonant + Vowels
    ensures Last(w, 1) == "я" && Last(w, 4) != "ніга" && LastAt(w, 2, 1) == [w[|w| - 2]]
    ensures !In(LastAt(w, 2, 1), Vowels) && !IsApostrof(LastAt(w, 2, 1))
  {
    YaEnd(w);
    HardLetter(w[|w| - 2]);
  }

  /** The facts about the last letters of a word in я that rule 1 reads. */
  lemma YaEnd(w: string)
    requires |w| >= 2 && w[|w| - 1] == 'я'
    ensures Last(w, 1) == "я" && Last(w, 4) != "ніга" && LastAt(w, 2, 1) == [w[|w| - 2]]
  {
    LastLetters(w);
    assert Last(w, 4)[|Last(w, 4)| - 1] == 'я';
  }

  /** A letter that is neither a vowel nor an apostrophe, as the string tests see it. */
  lemma HardLetter(c: char)
    requires c !in Vowels && c in " " + Consonant + Vowels
    ensures !In([c], Vowels) && !IsApostrof([c])
  {
    InOneLetter(c, Vowels);
    IsApostrofOneLetter(c);
  }

  /** A vowel or an apostrophe, as the string tests see it. */
  lemma SoftLetter(c: char)
    requires c in Vowels || c !in " " + Consonant + Vowels
    ensures In([c], Vowels) || IsApostrof([c])
  {
    InOneLetter(c, Vowels);
    IsApostrofOneLetter(c);
  }

  lemma SoftYaRoute(w: string)
    requires |w| >= 2 && Last(w, 1) == "я" && Last(w, 4) != "ніга" && LastAt(w, 2, 1) == [w[|w| - 2]]
    requires In(LastAt(w, 2, 1), Vowels) || IsApostrof(LastAt(w, 2, 1))
    ensures WomanRule1(w) == Forms(103, w, w, ["ї", "ї", "ю", "єю", "ї", "є"], 1)
  {
  }

  lemma HardYaRoute(w: string)
    requires |w| >= 2 && Last(w, 1) == "я" && Last(w, 4) != "ніга" && LastAt(w, 2, 1) == [w[|w| - 2]]
    requires !In(LastAt(w, 2, 1), Vowels) && !IsApostrof(LastAt(w, 2, 1))
    ensures WomanRule1(w) == Forms(104, w, w, YaEndings([w[|w| - 2]]), 2)
  {
  }

  /** The first-declension forms of a word in -а: the genitive replaces а by
      и, and the dative and locative alternate the letter before it and end in
      і (Ольга, Ользі). */
  lemma {:induction false} AFormsShape(w: string)
    requires |w| >= 2
    ensures var f := WordForms(w, w, AEndings([w[|w| - 2]]), 2);
      && f[1] == w[..|w| - 1] + "и"
      && f[2] == w[..|w| - 2] + InverseGKH([w[|w| - 2]]) + "і"
      && f[5] == f[2]
  {
    AList(w);
  }

  /** The letters after which a final я keeps its soft endings (-ія, -ая,
      Марія, Мирослава's vowels, or after an apostrophe as in Дар'я). */
  lemma {:induction false} WomanRule1SoftYa(w: string)
    requires |w| >= 2 && w[|w| - 1] == 'я' && (w[|w| - 2] in Vowels || w[|w| - 2] !in " " + Consonant + Vowels)
    ensures WomanRule1(w).Declined? && WomanRule1(w).rule == Some(103)
    ensures WomanRule1(w).forms[4] == w[..|w| - 1] + "єю"
    ensures var s := w[..|w| - 1];
      WomanRule1(w) == Declined(Some(103), [w, s + "ї", s + "ї", s + "ю", s + "єю", s + "ї", s + "є"])
  {
    YaEnd(w);
    SoftLetter(w[|w| - 2]);
    SoftYaRoute(w);
    FormsOf6(103, w, w, ["ї", "ї", "ю", "єю", "ї", "є"], 1);
  }

  /** Women's names in a consonant or ь, declined as nouns of the third
      declension, with the apostrophe and the doubling of the instrumental. */
  function WomanRule2(w: string): (r: Outcome)
    ensures r.NoMatch? <==> !In(Last(w, 1), Consonant + "ь")
    ensures !r.Crash? && KeepsWord(r, w, CaseCount)
    ensures r.Declined? ==> r.rule == Some(if Last(w, 1) == "ь" then 201 else 202)
  {
    if In(Last(w, 1), Consonant + "ь") then
      var osnova := Osnova(w);
      var ending := Doubled(osnova) + Apostrof(osnova) + "ю";
      if Last(w, 1) == "ь" then Forms(201, w, osnova, ["і", "і", "ь", ending, "і", "е"], 0)
      else Forms(202, w, osnova, ["і", "і", "", ending, "і", "е"], 0)
    else NoMatch
  }

  /** The forms of each rule id: the stem takes -і in the genitive, dative
      and locative, the accusative is the stem (with its ь for rule 201), and
      the instrumental ending is -ю after the doubling and the apostrophe. */
  lemma WomanRule2Forms(w: string)
    ensures var r := WomanRule2(w); r.Declined? && r.rule == Some(201) ==>
      var o := Osnova(w); var e := Doubled(o) + Apostrof(o) + "ю";
      r.forms == [w, o + "і", o + "і", o + "ь", o + e, o + "і", o + "е"]
    ensures var r := WomanRule2(w); r.Declined? && r.rule == Some(202) ==>
      var o := Osnova(w); var e := Doubled(o) + Apostrof(o) + "ю";
      r.forms == [w, o + "і", o + "і", o, o + e, o + "і", o + "е"]
  {
    var o := Osnova(w);
    var e := Doubled(o) + Apostrof(o) + "ю";
    if In(Last(w, 1), Consonant + "ь") {
      if Last(w, 1) == "ь" {
        assert WomanRule2(w) == Forms(201, w, o, ["і", "і", "ь", e, "і", "е"], 0);
        FormsOf6(201, w, o, ["і", "і", "ь", e, "і", "е"], 0);
      } else {
        assert WomanRule2(w) == Forms(202, w, o, ["і", "і", "", e, "і", "е"], 0);
        FormsOf6(202, w, o, ["і", "і", "", e, "і", "е"], 0);
      }
      assert o[..|o| - 0] == o;
      assert o + "" == o;
    }
  }

  /** A name in a consonant and ь keeps the ь only in the accusative, and its
      instrumental doubles or takes an apostrophe as the stem demands:
      Нінель, Нінелі, Нінеллю. */
  lemma {:induction false} WomanRule2Soft(w: string)
    requires |w| >= 2 && w[|w| - 1] == 'ь' && w[|w| - 2] in Consonant
    ensures var o := w[..|w| - 1]; var e := Doubled(o) + Apostrof(o) + "ю";
      WomanRule2(w) == Declined(Some(201), [w, o + "і", o + "і", o + "ь", o + e, o + "і", o + "е"])
  {
    SoftStem(w);
    SoftEnd(w);
    WomanRule2Forms(w);
  }

  /** Before a final ь the stem is the word less its ь. */
  lemma SoftStem(w: string)
    requires |w| >= 2 && w[|w| - 1] == 'ь' && w[|w| - 2] in Consonant
    ensures Osnova(w) == w[..|w| - 1]
  {
    var o := w[..|w| - 1];
    assert o[|o| - 1] == w[|w| - 2];
    ConsonantNotStripped(o[|o| - 1]);
    StemOfHardEnd(o);
    OsnovaStep(w);
  }

  /** A final ь passes the test of rule 2 and selects its soft branch. */
  lemma SoftEnd(w: string)
    requires |w| >= 1 && w[|w| - 1] == 'ь'
    ensures In(Last(w, 1), Consonant + "ь") && Last(w, 1) == "ь"
  {
    LastOne(w);
    InOneLetter('ь', Consonant + "ь");
  }

  lemma ConsonantNotStripped(c: char)
    requires c in Consonant
    ensures c !in Stripped
  {
  }

  /** The apostrophe before the instrumental -ю: after a labial that follows a vowel. */
  function Apostrof(osnova: string): (r: string)
    ensures r == "’" || r == ""
  {
    if In(Last(osnova, 1), Gubni) && In(LastAt(osnova, 2, 1), Vowels) then "’" else ""
  }

  /** The doubled letter before the instrumental -ю: the last letter of the
      stem when it is one of д, т, з, с, ц, л, н. */
  function Doubled(osnova: string): (r: string)
    ensures |r| <= 1
  {
    if In(Last(osnova, 1), "дтзсцлн") then Last(osnova, 1) else ""
  }

  /** The apostrophe goes exactly after a labial that follows a vowel. */
  lemma ApostrofMeans(osnova: string)
    ensures Apostrof(osnova) == "’" <==>
      |osnova| >= 2 && osnova[|osnova| - 1] in Gubni && osnova[|osnova| - 2] in Vowels
  {
    if |osnova| >= 2 {
      ApostrofLong(osnova);
    } else if |osnova| == 1 {
      ApostrofShort(osnova);
    }
  }

  /** From two letters on, the two tests read the last two letters. */
  lemma ApostrofLong(osnova: string)
    requires |osnova| >= 2
    ensures Apostrof(osnova) == "’" <==>
      osnova[|osnova| - 1] in Gubni && osnova[|osnova| - 2] in Vowels
  {
    LastLetters(osnova);
    InOneLetter(osnova[|osnova| - 1], Gubni);
    InOneLetter(osnova[|osnova| - 2], Vowels);
  }

  /** A one-letter stem would have to be both a labial and a vowel. */
  lemma ApostrofShort(osnova: string)
    requires |osnova| == 1
    ensures Apostrof(osnova) == ""
  {
    LastLetters(osnova);
    assert LastAt(osnova, 2, 1) == [osnova[0]];
    InOneLetter(osnova[0], Gubni);
    InOneLetter(osnova[0], Vowels);
    LabialNotVowel(osnova[0]);
  }

  lemma LabialNotVowel(c: char)
    ensures c !in Gubni || c !in Vowels
  {
  }

  /** The letter is doubled exactly when the stem ends in д, т, з, с, ц, л, н,
      and then it is that letter. */
  lemma DoubledMeans(osnova: string)
    ensures Doubled(osnova) != "" <==> |osnova| >= 1 && osnova[|osnova| - 1] in "дтзсцлн"
    ensures Doubled(osnova) != "" ==> Doubled(osnova) == [osnova[|osnova| - 1]]
  {
    if |osnova| >= 1 {
      LastLetters(osnova);
      InOneLetter(osnova[|osnova| - 1], "дтзсцлн");
    }
  }

  /** A consonant-final word that is not in -ь goes to rule 202 with the
      word itself as its stem. */
  lemma WomanRule2Route(w: string)
    requires |w| >= 1 && w[|w| - 1] in Consonant && w[|w| - 1] !in Stripped
    ensures WomanRule2(w) ==
      Declined(Some(202), WordForms(w, w, ["і", "і", "", Doubled(w) + Apostrof(w) + "ю", "і", "е"], 0))
  {
    StemOfHardEnd(w);
    ConsonantEnd(w);
    WomanRule2At202(w);
    FormsDeclines(202, w, w, ["і", "і", "", Doubled(w) + Apostrof(w) + "ю", "і", "е"], 0);
  }

  lemma ConsonantEnd(w: string)
    requires |w| >= 1 && w[|w| - 1] in Consonant
    ensures In(Last(w, 1), Consonant + "ь") && Last(w, 1) != "ь"
  {
    LastLetterIn(w, Consonant + "ь");
    assert Last(w, 1) == w[|w| - 1..];
  }

  lemma WomanRule2At202(w: string)
    requires In(Last(w, 1), Consonant + "ь") && Last(w, 1) != "ь" && Osnova(w) == w
    ensures WomanRule2(w) == Forms(202, w, w, ["і", "і", "", Doubled(w) + Apostrof(w) + "ю", "і", "е"], 0)
  {
  }

  /** A labial after a vowel takes an apostrophe before the instrumental -ю
      (Любов, Любов’ю). */
  lemma {:induction false} WomanRule2Apostrophe(w: string)
    requires |w| >= 2 && w[|w| - 1] in Gubni && w[|w| - 2] in Vowels
    ensures WomanRule2(w) == Declined(Some(202), WordForms(w, w, ["і", "і", "", "’ю", "і", "е"], 0))
    ensures WomanRule2(w).forms[4] == w + "’ю"
    ensures WomanRule2(w).forms[3] == w
  {
    LabialLetters(w[|w| - 1]);
    WomanRule2Route(w);
    ApostrofMeans(w);
    DoubledMeans(w);
    assert Doubled(w) + Apostrof(w) + "ю" == "’ю";
  }

  /** A final д, т, з, с, ц, л, н doubles before the instrumental -ю. */
  lemma {:induction false} WomanRule2Doubling(w: string)
    requires |w| >= 1 && w[|w| - 1] in "дтзсцлн"
    ensures WomanRule2(w) == Declined(Some(202), WordForms(w, w, ["і", "і", "", [w[|w| - 1]] + "ю", "і", "е"], 0))
    ensures WomanRule2(w).forms[4] == w + [w[|w| - 1]] + "ю"
  {
    var c := w[|w| - 1];
    DoublingLetters(c);
    WomanRule2Route(w);
    DoublingEnding(w);
    var forms := WordForms(w, w, ["і", "і", "", [c] + "ю", "і", "е"], 0);
    assert WomanRule2(w) == Declined(Some(202), forms);
    InstrumentalSlot(w, [c] + "ю");
    assert forms[4] == w + [c] + "ю";
  }

  lemma DoublingEnding(w: string)
    requires |w| >= 1 && w[|w| - 1] in "дтзсцлн"
    ensures Doubled(w) + Apostrof(w) + "ю" == [w[|w| - 1]] + "ю"
  {
    DoublingLetters(w[|w| - 1]);
    ApostrofMeans(w);
    DoubledMeans(w);
  }

  /** The instrumental slot of a rule-202 declension. */
  lemma InstrumentalSlot(w: string, e: string)
    ensures WordForms(w, w, ["і", "і", "", e, "і", "е"], 0)[4] == w + e
  {
  }

  lemma LabialLetters(c: char)
    requires c in Gubni
    ensures c in Consonant && c !in Stripped && c !in "дтзсцлн"
  {
  }

  lemma DoublingLetters(c: char)
    requires c in "дтзсцлн"
    ensures c in Consonant && c !in Stripped && c !in Gubni
  {
  }

  /** Adjectival women's surnames in -ая, and those in -ська, -цька and
      similar (a ч, н or в before the final а, or ьк before it). */
  function WomanRule3(w: string): (r: Outcome)
    ensures r.NoMatch? <==> (Last(w, 2) != "ая" &&
      !(Last(w, 1) == "а" && (In(LastAt(w, 2, 1), "чнв") || InList(LastAt(w, 3, 2), ["ьк"]))))
    ensures !r.Crash? && KeepsWord(r, w, CaseCount)
    ensures Last(w, 2) == "ая" ==> r.Declined? && r.rule == Some(301) && |w| >= 2 && r.forms[6] == w
    ensures r.Declined? ==> r.rule == Some(if Last(w, 2) == "ая" then 301 else 302)
  {
    if Last(w, 2) == "ая" then
      AyaForms(w);
      Forms(301, w, w, ["ої", "ій", "ую", "ою", "ій", "ая"], 2)
    else if Last(w, 1) == "а" && (In(LastAt(w, 2, 1), "чнв") || InList(LastAt(w, 3, 2), ["ьк"])) then
      SkaLong(w);
      var beforeLast := LastAt(w, 2, 1);
      Forms(302, w, w, [beforeLast + "ої", beforeLast + "ій", beforeLast + "у", beforeLast + "ою", beforeLast + "ій", beforeLast + "о"], 2)
    else NoMatch
  }

  /** The forms of each rule id: -ая gives way to the adjectival endings
      after its last two letters, and -ська and its kind after the last one. */
  lemma WomanRule3Forms(w: string)
    ensures var r := WomanRule3(w); r.Declined? && r.rule == Some(301) ==> |w| >= 2 && var s := w[..|w| - 2];
      r.forms == [w, s + "ої", s + "ій", s + "ую", s + "ою", s + "ій", s + "ая"]
    ensures var r := WomanRule3(w); r.Declined? && r.rule == Some(302) ==> |w| >= 2 && var s := w[..|w| - 1];
      r.forms == [w, s + "ої", s + "ій", s + "у", s + "ою", s + "ій", s + "о"]
  {
    if Last(w, 2) == "ая" {
      FormsOf6(301, w, w, ["ої", "ій", "ую", "ою", "ій", "ая"], 2);
    } else if WomanRule3(w).Declined? {
      SkaLong(w);
      var b := LastAt(w, 2, 1);
      assert WomanRule3(w) == Forms(302, w, w, [b + "ої", b + "ій", b + "у", b + "ою", b + "ій", b + "о"], 2);
      FormsOf6(302, w, w, [b + "ої", b + "ій", b + "у", b + "ою", b + "ій", b + "о"], 2);
      SkaStem(w);
    }
  }

  /** Cutting two letters and putting back the letter before the last one
      cuts the last letter. */
  lemma SkaStem(w: string)
    requires |w| >= 2
    ensures forall e: string {:trigger w[..|w| - 2] + (LastAt(w, 2, 1) + e)} ::
      w[..|w| - 2] + (LastAt(w, 2, 1) + e) == w[..|w| - 1] + e
  {
    LastLetters(w);
    assert w[..|w| - 2] + LastAt(w, 2, 1) == w[..|w| - 1];
  }

  /** Surnames whose final а follows ч, н or в take the adjectival endings
      after the last letter but one: Петрова, Петрової, Петровій, Петрову. */
  lemma {:induction false} WomanRule3Adjectival(w: string)
    requires |w| >= 2 && w[|w| - 1] == 'а' && w[|w| - 2] in "чнв"
    ensures var s := w[..|w| - 1];
      WomanRule3(w) == Declined(Some(302), [w, s + "ої", s + "ій", s + "у", s + "ою", s + "ій", s + "о"])
  {
    LastLetters(w);
    InOneLetter(w[|w| - 2], "чнв");
    assert Last(w, 2) != "ая";
    WomanRule3Forms(w);
  }

  /** The -ая forms keep the word in the last slot. */
  lemma AyaForms(w: string)
    requires Last(w, 2) == "ая"
    ensures |w| >= 2 && Forms(301, w, w, ["ої", "ій", "ую", "ою", "ій", "ая"], 2).forms[6] == w
  {
    assert w[..|w| - 2] + "ая" == w;
  }

  /** A word that passes the -ська test has at least two letters: a single а
      is neither ч, н, в nor ьк. */
  lemma SkaLong(w: string)
    requires Last(w, 1) == "а" && (In(LastAt(w, 2, 1), "чнв") || InList(LastAt(w, 3, 2), ["ьк"]))
    ensures |w| >= 2
  {
    if |w| < 2 {
      assert LastAt(w, 2, 1) == w == "а";
      InOneLetter('а', "чнв");
    }
  }

  /** Men's patronymics in -ич and -іч; no rule id is recorded. */
  function ManFatherName(w: string): (r: Outcome)
    ensures r.NoMatch? <==> !InList(Last(w, 2), ["ич", "іч"])
    ensures !r.Crash? && KeepsWord(r, w, CaseCount)
    ensures r.Declined? ==> r.rule == None && SlotsStartWith(r, w) && r.forms[4] == w + "ем"
    ensures r.Declined? ==> r == Declined(None, [w, w + "а", w + "у", w + "а", w + "ем", w + "у", w + "у"])
  {
    if InList(Last(w, 2), ["ич", "іч"]) then
      assert w[..|w| - 0] == w;
      Declined(None, WordForms(w, w, ["а", "у", "а", "ем", "у", "у"], 0))
    else NoMatch
  }

  /** Women's patronymics in -вна; no rule id is recorded. */
  function WomanFatherName(w: string): (r: Outcome)
    ensures r.NoMatch? <==> !InList(Last(w, 3), ["вна"])
    ensures !r.Crash? && KeepsWord(r, w, CaseCount)
    ensures r.Declined? ==> r.rule == None && |w| >= 3 && r.forms[4] == w[..|w| - 1] + "ою"
    ensures r.Declined? ==> |w| >= 3 && var s := w[..|w| - 1];
      r == Declined(None, [w, s + "и", s + "і", s + "у", s + "ою", s + "і", s + "о"])
  {
    if InList(Last(w, 3), ["вна"]) then
      Declined(None, WordForms(w, w, ["и", "і", "у", "ою", "і", "о"], 1))
    else NoMatch
  }

  // ---------------------------------------------------------------------
  // Rule chains

  datatype RuleName = Man1 | Man2 | Man3 | Man4 | Man5 | Woman1 | Woman2 | Woman3

  function Select(name: RuleName, w: string): Outcome {
    match name
    case Man1 => ManRule1(w)
    case Man2 => ManRule2(w)
    case Man3 => ManRule3(w)
    case Man4 => ManRule4(w)
    case Man5 => ManRule5(w)
    case Woman1 => WomanRule1(w)
    case Woman2 => WomanRule2(w)
    case Woman3 => WomanRule3(w)
  }

  const ManFirstNameChain: seq<RuleName> := [Man1, Man2, Man3]
  const WomanFirstNameChain: seq<RuleName> := [Woman1, Woman2]
  const ManSecondNameChain: seq<RuleName> := [Man5, Man1, Man2, Man3, Man4]
  const WomanSecondNameChain: seq<RuleName> := [Woman3, Woman1]

  /** The outcomes of the rules of a chain on one word. */
  function Outcomes(chain: seq<RuleName>, w: string): (os: seq<Outcome>)
    ensures |os| == |chain| && forall i :: 0 <= i < |chain| ==> os[i] == Select(chain[i], w)
  {
    seq(|chain|, i requires 0 <= i < |chain| => Select(chain[i], w))
  }

  /** The first outcome that is not NoMatch, or NoMatch when there is none. */
  function FirstApplying(os: seq<Outcome>): (r: Outcome)
    ensures r.NoMatch? <==> forall i :: 0 <= i < |os| ==> os[i].NoMatch?
    ensures !r.NoMatch? ==> exists i :: 0 <= i < |os| && r == os[i] && forall j :: 0 <= j < i ==> os[j].NoMatch?
  {
    if os == [] then NoMatch
    else if os[0].NoMatch? then
      var r := FirstApplying(os[1..]);
      assert forall i :: 1 <= i < |os| ==> os[i] == os[1..][i - 1];
      r
    else os[0]
  }

  /** Tries the rules in order and stops at the first one that applies (or
      throws); none applying is NoMatch. */
  function RulesChain(chain: seq<RuleName>, w: string): (r: Outcome)
    ensures r.NoMatch? <==> forall i :: 0 <= i < |chain| ==> Select(chain[i], w).NoMatch?
    ensures !r.NoMatch? ==> exists i :: (0 <= i < |chain| && r == Select(chain[i], w) &&
                                         forall j :: 0 <= j < i ==> Select(chain[j], w).NoMatch?)
  {
    FirstApplying(Outcomes(chain, w))
  }

  /** Every rule fills seven slots with the word in slot 0. */
  lemma SelectKeepsWord(name: RuleName, w: string)
    ensures KeepsWord(Select(name, w), w, CaseCount)
  {
  }

  /** Every chain fills seven slots with the word in slot 0. */
  lemma {:induction false} ChainKeepsWord(chain: seq<RuleName>, w: string)
    ensures KeepsWord(RulesChain(chain, w), w, CaseCount)
  {
    var r := RulesChain(chain, w);
    if !r.NoMatch? {
      var i :| 0 <= i < |chain| && r == Select(chain[i], w);
      SelectKeepsWord(chain[i], w);
    }
  }

  /** The men's surname chain tries the adjectival rule first: a surname in
      -ий is declined by rule 5 even though rule 3 would also apply. */
  lemma {:induction false} ManSurnameIy(w: string)
    requires |w| >= 2 && w[|w| - 2..] == "ий"
    ensures RulesChain(ManSecondNameChain, w) == ManRule5(w)
    ensures ManRule5(w).Declined? && ManRule5(w).rule == Some(5)
  {
    assert Last(w, 2) == "ий";
    assert InList(Last(w, 2), ["ий", "ой"]);
    ChainFirst(ManSecondNameChain, w);
  }

  /** A chain whose first rule applies is that rule. */
  lemma ChainFirst(chain: seq<RuleName>, w: string)
    requires |chain| > 0 && !Select(chain[0], w).NoMatch?
    ensures RulesChain(chain, w) == Select(chain[0], w)
  {
  }

  /** Men's first names: rules 1, 2, 3. */
  method ManFirstName(core: Core) returns (r: Result<bool>)
    modifies core`lastRule, core`lastResult
    ensures Applied(RulesChain(ManFirstNameChain, core.workingWord), r,
      old(core.lastRule), old(core.lastResult), core.lastRule, core.lastResult)
  {
    r := core.Apply(RulesChain(ManFirstNameChain, core.workingWord));
  }

  /** Women's first names: rules 1, 2. */
  method WomanFirstName(core: Core) returns (r: Result<bool>)
    modifies core`lastRule, core`lastResult
    ensures Applied(RulesChain(WomanFirstNameChain, core.workingWord), r,
      old(core.lastRule), old(core.lastResult), core.lastRule, core.lastResult)
  {
    r := core.Apply(RulesChain(WomanFirstNameChain, core.workingWord));
  }

  /** Men's surnames: rules 5, 1, 2, 3, 4. */
  method ManSecondName(core: Core) returns (r: Result<bool>)
    modifies core`lastRule, core`lastResult
    ensures Applied(RulesChain(ManSecondNameChain, core.workingWord), r,
      old(core.lastRule), old(core.lastResult), core.lastRule, core.lastResult)
  {
    r := core.Apply(RulesChain(ManSecondNameChain, core.workingWord));
  }

  /** Women's surnames: rules 3, 1. */
  method WomanSecondName(core: Core) returns (r: Result<bool>)
    modifies core`lastRule, core`lastResult
    ensures Applied(RulesChain(WomanSecondNameChain, core.workingWord), r,
      old(core.lastRule), old(core.lastResult), core.lastRule, core.lastResult)
  {
    r := core.Apply(RulesChain(WomanSecondNameChain, core.workingWord));
  }

  /** Declines a man's patronymic on the engine. */
  method DeclineManFatherName(core: Core) returns (r: Result<bool>)
    modifies core`lastRule, core`lastResult
    ensures Applied(ManFatherName(core.workingWord), r,
      old(core.lastRule), old(core.lastResult), core.lastRule, core.lastResult)
  {
    r := core.Apply(ManFatherName(core.workingWord));
  }

  /** Declines a woman's patronymic on the engine. */
  method DeclineWomanFatherName(core: Core) returns (r: Result<bool>)
    modifies core`lastRule, core`lastResult
    ensures Applied(WomanFatherName(core.workingWord), r,
      old(core.lastRule), old(core.lastResult), core.lastRule, core.lastResult)
  {
    r := core.Apply(WomanFatherName(core.workingWord));
  }

  // ---------------------------------------------------------------------
  // Classifiers. Every weight is kept in exact hundredths (0.9 is 90).

  /** A pair of gender scores. */
  datatype Scores = Scores(man: int, woman: int)

  const FirstNameManEndings: seq<string> := ["он", "ов", "ав", "ам", "ол", "ан", "рд", "мп", "ко", "ло"]
  const FirstNameWomanEndings: seq<string> := ["бов", "нка", "яра", "ила", "опа"]

  /** The men's evidence of a first name: 0.9 for -й, 30 for Петро and
      Микола, 0.5 for the men's endings, 0.01 for a final consonant and 0.02
      for a final ь. */
  function FirstNameMan(w: string): (m: int)
    ensures 0 <= m <= 3143
    ensures InNames(w, ["петро", "микола"]) <==> m >= 3000
  {
    (if Last(w, 1) == "й" then 90 else 0)
    + (if InNames(w, ["петро", "микола"]) then 3000 else 0)
    + (if InList(Last(w, 2), FirstNameManEndings) then 50 else 0)
    + (if In(Last(w, 1), Consonant) then 1 else 0)
    + (if Last(w, 1) == "ь" then 2 else 0)
  }

  /** The women's evidence of a first name: 0.5 for the women's endings, 0.1
      for -дь and 0.4 for -ель and -бов. */
  function FirstNameWoman(w: string): (f: int)
    ensures 0 <= f <= 100
  {
    (if InList(Last(w, 3), FirstNameWomanEndings) then 50 else 0)
    + (if InList(Last(w, 2), ["дь"]) then 10 else 0)
    + (if InList(Last(w, 3), ["ель", "бов"]) then 40 else 0)
  }

  /** The gender evidence of a first name. */
  function FirstNameGender(w: string): (s: Scores)
    ensures 0 <= s.man && 0 <= s.woman <= 100
    ensures InNames(w, ["петро", "микола"]) ==> s.man > s.woman
  {
    Scores(FirstNameMan(w), FirstNameWoman(w))
  }

  /** The men's terms of GenderByFirstName, added to the accumulator. */
  method AddFirstNameManEvidence(w: string, prob: GenderProbability)
    modifies prob
    ensures prob.manProbability == old(prob.manProbability) + FirstNameMan(w)
    ensures prob.womanProbability == old(prob.womanProbability)
  {
    if Last(w, 1) == "й" {
      prob.SetMan(prob.Man() + 90);
    }
    if InNames(w, ["петро", "микола"]) {
      prob.SetMan(prob.Man() + 3000);
    }
    if InList(Last(w, 2), FirstNameManEndings) {
      prob.SetMan(prob.Man() + 50);
    }
    if In(Last(w, 1), Consonant) {
      prob.SetMan(prob.Man() + 1);
    }
    if Last(w, 1) == "ь" {
      prob.SetMan(prob.Man() + 2);
    }
  }

  /** The women's terms of GenderByFirstName, added to the accumulator. */
  method AddFirstNameWomanEvidence(w: string, prob: GenderProbability)
    modifies prob
    ensures prob.womanProbability == old(prob.womanProbability) + FirstNameWoman(w)
    ensures prob.manProbability == old(prob.manProbability)
  {
    if InList(Last(w, 3), FirstNameWomanEndings) {
      prob.SetWoman(prob.Woman() + 50);
    }
    if InList(Last(w, 2), ["дь"]) {
      prob.SetWoman(prob.Woman() + 10);
    }
    if InList(Last(w, 3), ["ель", "бов"]) {
      prob.SetWoman(prob.Woman() + 40);
    }
  }

  /** GenderByFirstName: gives the word a new accumulator holding the evidence
      of its text as a first name. The men's and the women's terms touch
      different scores, so they are added side by side. */
  method GenderByFirstName(core: Core, word: Word)
    modifies core`workingWord, word`manOrWoman
    ensures core.workingWord == word.word
    ensures word.manOrWoman != null && fresh(word.manOrWoman)
    ensures Scores(word.manOrWoman.manProbability, word.manOrWoman.womanProbability) == FirstNameGender(word.word)
  {
    var w := word.Name();
    core.SetWorkingWord(w);
    var prob := FirstNameProbability(w);
    word.SetGenderProbability(prob);
    assert word.word == w;
  }

  /** A new accumulator holding the first-name evidence of a word. */
  method FirstNameProbability(w: string) returns (prob: GenderProbability)
    ensures fresh(prob)
    ensures Scores(prob.manProbability, prob.womanProbability) == FirstNameGender(w)
  {
    prob := new GenderProbability.Empty();
    AddFirstNameManEvidence(w, prob);
    AddFirstNameWomanEvidence(w, prob);
  }

  /** The suffixes of length one to three of a word end in its last letter. */
  lemma EndsIn(w: string, c: char)
    requires |w| >= 1 && w[|w| - 1] == c
    ensures Last(w, 1) == [c]
    ensures Last(w, 2)[|Last(w, 2)| - 1] == c
    ensures Last(w, 3)[|Last(w, 3)| - 1] == c
  {
  }

  /** A final й scores at least 0.9 for a man. */
  lemma FirstNameManY(w: string)
    requires |w| >= 1 && w[|w| - 1] == 'й'
    ensures FirstNameMan(w) >= 90
  {
    EndsIn(w, 'й');
  }

  /** No woman's feature of a first name ends in й. */
  lemma FirstNameWomanY(w: string)
    requires |w| >= 1 && w[|w| - 1] == 'й'
    ensures FirstNameWoman(w) == 0
  {
    EndsIn(w, 'й');
  }

  /** A first name in -й is a man's. */
  lemma {:induction false} FirstNameInYIsMan(w: string)
    requires |w| >= 1 && w[|w| - 1] == 'й'
    ensures FirstNameGender(w).man > FirstNameGender(w).woman
  {
    FirstNameManY(w);
    FirstNameWomanY(w);
  }

  /** A word in one of the four women's endings in -а ends in а, and so
      do its last two letters. */
  lemma FinalAEndings(w: string)
    requires InList(Last(w, 3), ["нка", "яра", "ила", "опа"])
    ensures Last(w, 1) == "а"
    ensures |Last(w, 2)| == 2 && Last(w, 2)[1] == 'а'
  {
    var e := Last(w, 3);
    assert |e| == 3 && e == w[|w| - 3..];
    assert Last(w, 1) == [e[2]];
    assert Last(w, 2) == [e[1], e[2]];
  }

  /** No men's feature applies to a first name in -нка, -яра, -ила or -опа. */
  lemma {:induction false} FirstNameManAEnding(w: string)
    requires InList(Last(w, 3), ["нка", "яра", "ила", "опа"])
    ensures FirstNameMan(w) == 0
  {
    FinalAEndings(w);
    NotPetroMykola(w);
    FinalAManFeatures(w);
  }

  /** A first name in а other than Петро and Микола scores nothing for a
      man. */
  lemma FinalAManFeatures(w: string)
    requires Last(w, 1) == "а" && |Last(w, 2)| == 2 && Last(w, 2)[1] == 'а'
    requires !InNames(w, ["петро", "микола"])
    ensures FirstNameMan(w) == 0
  {
    NoManEndingInA(Last(w, 2));
    FinalANotLetter(w);
    FinalANotConsonant(w);
    ManFeaturesAbsent(w);
  }

  /** A final а is not a consonant. */
  lemma FinalANotConsonant(w: string)
    requires Last(w, 1) == "а"
    ensures !In(Last(w, 1), Consonant)
  {
    InOneLetter('а', Consonant);
  }

  /** A final а is neither й nor ь. */
  lemma FinalANotLetter(w: string)
    requires Last(w, 1) == "а"
    ensures Last(w, 1) != "й" && Last(w, 1) != "ь"
  {
  }

  /** A first name that shows none of the men's features scores nothing for a
      man. */
  lemma ManFeaturesAbsent(w: string)
    requires Last(w, 1) != "й" && Last(w, 1) != "ь" && !In(Last(w, 1), Consonant)
    requires !InNames(w, ["петро", "микола"]) && !InList(Last(w, 2), FirstNameManEndings)
    ensures FirstNameMan(w) == 0
  {
  }

  /** None of the men's first-name endings ends in а. */
  lemma NoManEndingInA(e: string)
    requires |e| >= 1 && e[|e| - 1] == 'а'
    ensures !InList(e, FirstNameManEndings)
  {
  }

  /** A first name in -нка, -яра, -ила or -опа scores 0.5 for a woman. */
  lemma FirstNameWomanAEnding(w: string)
    requires InList(Last(w, 3), ["нка", "яра", "ила", "опа"])
    ensures FirstNameWoman(w) >= 50
  {
  }

  /** A first name in -нка, -яра, -ила or -опа is a woman's. */
  lemma {:induction false} FirstNameWomanEnding(w: string)
    requires InList(Last(w, 3), ["нка", "яра", "ила", "опа"])
    ensures FirstNameGender(w).woman > FirstNameGender(w).man
  {
    FirstNameManAEnding(w);
    FirstNameWomanAEnding(w);
  }

  /** Two words whose lower-case forms differ at one position, or in length,
      are different names. */
  lemma DiffersAt(w: string, name: string, i: nat)
    requires i < |w|
    requires |w| != |name| || LowerChar(w[i]) != LowerChar(name[i])
    ensures ToLower(w) != ToLower(name)
  {
    if |w| == |name| {
      assert ToLower(w)[i] != ToLower(name)[i];
    }
  }

  /** A name in -нка, -яра, -ила or -опа is neither Петро (which ends in о)
      nor Микола (whose last three letters are ола). */
  lemma {:induction false} NotPetroMykola(w: string)
    requires InList(Last(w, 3), ["нка", "яра", "ила", "опа"])
    ensures !InNames(w, ["петро", "микола"])
  {
    AEndingLetters(w);
    NotPetro(w);
    NotMykola(w);
    NotEitherName(w, "петро", "микола");
  }

  /** The letters of -нка, -яра, -ила and -опа that tell them from Петро and
      Микола. */
  lemma AEndingLetters(w: string)
    requires InList(Last(w, 3), ["нка", "яра", "ила", "опа"])
    ensures |w| >= 3 && w[|w| - 1] == 'а'
    ensures w[|w| - 3] == 'и' || w[|w| - 2] in "крп"
  {
    var e := Last(w, 3);
    assert |e| == 3 && |w| >= 3 && e == w[|w| - 3..];
    assert w[|w| - 1] == e[2] && w[|w| - 3] == e[0] && w[|w| - 2] == e[1];
  }

  /** A word that is neither of two names is not in their list. */
  lemma NotEitherName(w: string, a: string, b: string)
    requires ToLower(w) != ToLower(a) && ToLower(w) != ToLower(b)
    ensures !InNames(w, [a, b])
  {
    InNamesMeans(w, [a, b]);
  }

  /** A word in а is not Петро. */
  lemma NotPetro(w: string)
    requires |w| >= 1 && w[|w| - 1] == 'а'
    ensures ToLower(w) != ToLower("петро")
  {
    var petro := "петро";
    if |w| == |petro| {
      assert LowerChar(petro[4]) == 'о';
    }
    DiffersAt(w, petro, |w| - 1);
  }

  /** A word in -ила, or in а after к, р or п, is not Микола. */
  lemma NotMykola(w: string)
    requires |w| >= 3
    requires w[|w| - 3] == 'и' || w[|w| - 2] in "крп"
    ensures ToLower(w) != ToLower("микола")
  {
    var mykola := "микола";
    if w[|w| - 3] == 'и' {
      if |w| == |mykola| {
        assert LowerChar(mykola[3]) == 'о';
      }
      DiffersAt(w, mykola, |w| - 3);
    } else {
      if |w| == |mykola| {
        assert LowerChar(mykola[4]) == 'л';
      }
      DiffersAt(w, mykola, |w| - 2);
    }
  }

  const SecondNameManEndings: seq<string> := ["ов", "ин", "ев", "єв", "ін", "їн", "ий", "їв", "ів", "ой", "ей"]
  const SecondNameWomanEndings: seq<string> := ["ова", "ина", "ева", "єва", "іна", "мін"]

  /** The men's evidence of a surname: 0.4 for the men's endings. */
  function SecondNameMan(w: string): (m: int)
    ensures m == 0 || m == 40
  {
    if InList(Last(w, 2), SecondNameManEndings) then 40 else 0
  }

  /** The women's evidence of a surname: 0.4 for the women's endings and 0.4
      for -ая. */
  function SecondNameWoman(w: string): (f: int)
    ensures f == 0 || f == 40 || f == 80
  {
    (if InList(Last(w, 3), SecondNameWomanEndings) then 40 else 0)
    + (if InList(Last(w, 2), ["ая"]) then 40 else 0)
  }

  /** The gender evidence of a surname. */
  function SecondNameGender(w: string): (s: Scores)
    ensures s.man == 0 || s.man == 40
    ensures 0 <= s.woman <= 80
  {
    Scores(SecondNameMan(w), SecondNameWoman(w))
  }

  /** The men's term of GenderBySecondName, added to the accumulator. */
  method AddSecondNameManEvidence(w: string, prob: GenderProbability)
    modifies prob
    ensures prob.manProbability == old(prob.manProbability) + SecondNameMan(w)
    ensures prob.womanProbability == old(prob.womanProbability)
  {
    if InList(Last(w, 2), SecondNameManEndings) {
      prob.SetMan(prob.Man() + 40);
    }
  }

  /** The women's terms of GenderBySecondName, added to the accumulator. */
  method AddSecondNameWomanEvidence(w: string, prob: GenderProbability)
    modifies prob
    ensures prob.womanProbability == old(prob.womanProbability) + SecondNameWoman(w)
    ensures prob.manProbability == old(prob.manProbability)
  {
    if InList(Last(w, 3), SecondNameWomanEndings) {
      prob.SetWoman(prob.Woman() + 40);
    }
    if InList(Last(w, 2), ["ая"]) {
      prob.SetWoman(prob.Woman() + 40);
    }
  }

  /** GenderBySecondName: gives the word a new accumulator holding the
      evidence of its text as a surname. */
  method GenderBySecondName(core: Core, word: Word)
    modifies core`workingWord, word`manOrWoman
    ensures core.workingWord == word.word
    ensures word.manOrWoman != null && fresh(word.manOrWoman)
    ensures Scores(word.manOrWoman.manProbability, word.manOrWoman.womanProbability) == SecondNameGender(word.word)
  {
    var w := word.Name();
    core.SetWorkingWord(w);
    var prob := SecondNameProbability(w);
    word.SetGenderProbability(prob);
    assert word.word == w;
  }

  /** A new accumulator holding the surname evidence of a word. */
  method SecondNameProbability(w: string) returns (prob: GenderProbability)
    ensures fresh(prob)
    ensures Scores(prob.manProbability, prob.womanProbability) == SecondNameGender(w)
  {
    prob := new GenderProbability.Empty();
    AddSecondNameManEvidence(w, prob);
    AddSecondNameWomanEvidence(w, prob);
    assert prob.manProbability == SecondNameMan(w) && prob.womanProbability == SecondNameWoman(w);
  }

  /** Of the women's surname endings only -мін ends in a men's ending (-ін). */
  lemma {:induction false} WomanEndingOverManEnding(w: string)
    requires InList(Last(w, 2), SecondNameManEndings)
    ensures SecondNameWoman(w) == if Last(w, 3) == "мін" then 40 else 0
  {
    var e2, e3 := Last(w, 2), Last(w, 3);
    ManEndingNotA(e2);
    assert |w| >= 2 && e2[1] == w[|w| - 1];
    if |e3| == 3 {
      assert e3[2] == w[|w| - 1];
    }
    WomanEndingIffMin(e3);
    WomanFeatures(w);
  }

  /** SecondNameWoman once its two conditions are known. */
  lemma WomanFeatures(w: string)
    requires InList(Last(w, 3), SecondNameWomanEndings) <==> Last(w, 3) == "мін"
    requires Last(w, 2) != "ая"
    ensures SecondNameWoman(w) == if Last(w, 3) == "мін" then 40 else 0
  {
  }

  /** Among words that do not end in а as their third letter, -мін is the
      only women's surname ending. */
  lemma WomanEndingIffMin(e: string)
    requires |e| != 3 || e[2] != 'а'
    ensures InList(e, SecondNameWomanEndings) <==> e == "мін"
  {
    if InList(e, SecondNameWomanEndings) && e != "мін" {
      WomanEndingInA(e);
    }
  }

  /** The men's surname endings are two letters long and none ends in а. */
  lemma ManEndingNotA(e: string)
    requires InList(e, SecondNameManEndings)
    ensures |e| == 2 && e[1] != 'а' && e != "ая"
  {
  }

  /** The women's surname endings other than -мін are three letters long and
      end in а. */
  lemma WomanEndingInA(e: string)
    requires InList(e, SecondNameWomanEndings) && e != "мін"
    ensures |e| == 3 && e[2] == 'а'
  {
  }

  /** A surname leans to a man exactly when it ends in one of the men's
      endings and not in -мін (which scores 0.4 for both, a tie). */
  lemma {:induction false} SecondNameManIff(w: string)
    ensures SecondNameGender(w).man > SecondNameGender(w).woman <==>
      InList(Last(w, 2), SecondNameManEndings) && Last(w, 3) != "мін"
  {
    if InList(Last(w, 2), SecondNameManEndings) {
      WomanEndingOverManEnding(w);
    }
  }

  /** The evidence of a patronymic: decisive for -ич and -на, none otherwise. */
  function FatherNameGender(w: string): (s: Option<Scores>)
    ensures Last(w, 2) == "ич" <==> s == Some(Scores(1000, 0))
    ensures Last(w, 2) == "на" <==> s == Some(Scores(0, 1200))
    ensures s.None? <==> Last(w, 2) != "ич" && Last(w, 2) != "на"
  {
    if Last(w, 2) == "ич" then Some(Scores(1000, 0))
    else if Last(w, 2) == "на" then Some(Scores(0, 1200))
    else None
  }

  /** GenderByFatherName: a new accumulator for -ич or -на; any other word
      keeps the accumulator it had, which for a new word is none. */
  method GenderByFatherName(core: Core, word: Word)
    modifies core`workingWord, word`manOrWoman
    ensures core.workingWord == word.word
    ensures FatherNameGender(word.word).None? ==> word.manOrWoman == old(word.manOrWoman)
    ensures FatherNameGender(word.word).Some? ==>
      word.manOrWoman != null && fresh(word.manOrWoman) &&
      Scores(word.manOrWoman.manProbability, word.manOrWoman.womanProbability) == FatherNameGender(word.word).value
  {
    core.SetWorkingWord(word.Name());
    var w := core.workingWord;
    if Last(w, 2) == "ич" {
      var prob := new GenderProbability(1000, 0);
      word.SetGenderProbability(prob);
    }
    if Last(w, 2) == "на" {
      var prob := new GenderProbability(0, 1200);
      word.SetGenderProbability(prob);
    }
    assert word.word == w;
  }

  /** A new word classified as a patronymic and then asked for its gender:
      Man for -ич, Woman for -на, and for any other ending the Gender getter
      reads the accumulator that was never set and throws. */
  method GenderOfFatherName(name: string) returns (r: Result<Gender>)
    ensures Last(ToLower(name), 2) == "ич" ==> r == Ok(Man)
    ensures Last(ToLower(name), 2) == "на" ==> r == Ok(Woman)
    ensures Last(ToLower(name), 2) != "ич" && Last(ToLower(name), 2) != "на" ==> r == Throws(NullProbability)
  {
    var word := new Word(name);
    var core := new Core(CaseCount);
    GenderByFatherName(core, word);
    r := word.GetGender();
  }

  // Name-part detection.

  const FatherEndings3: seq<string> := ["вна", "чна", "ліч"]
  const FatherEndings4: seq<string> := ["ьмич", "ович"]
  const FirstEndings3: seq<string> := ["тин"]
  const FirstEndings4: seq<string> := ["ьмич", "юбов", "івна", "явка", "орив", "кіян"]
  /** Names that look like surnames or patronymics but are first names. */
  const FirstNameExceptions: seq<string> :=
    ["лев", "гаїна", "афіна", "антоніна", "ангеліна", "альвіна", "альбіна", "аліна", "павло", "олесь",
     "микола", "мая", "англеліна", "елькін", "мерлін"]
  const SecondEndings2: seq<string> :=
    ["ов", "ін", "ев", "єв", "ий", "ин", "ой", "ко", "ук", "як", "ца", "их", "ик", "ун", "ок", "ша", "ая", "га",
     "єк", "аш", "ив", "юк", "ус", "це", "ак", "бр", "яр", "іл", "ів", "ич", "сь", "ей", "нс", "яс", "ер", "ай",
     "ян", "ах", "ць", "ющ", "іс", "ач", "уб", "ох", "юх", "ут", "ча", "ул", "вк", "зь", "уц", "їн", "де", "уз",
     "юр", "ік", "іч", "ро"]
  const SecondEndings3: seq<string> :=
    ["ова", "ева", "єва", "тих", "рик", "вач", "аха", "шен", "мей", "арь", "вка", "шир", "бан", "чий", "іна",
     "їна", "ька", "ань", "ива", "аль", "ура", "ран", "ало", "ола", "кур", "оба", "оль", "нта", "зій", "ґан",
     "іло", "шта", "юпа", "рна", "бла", "еїн", "има", "мар", "кар", "оха", "чур", "ниш", "ета", "тна", "зур",
     "нір", "йма", "орж", "рба", "іла", "лас", "дід", "роз", "аба", "чан", "ган"]
  const SecondEndings4: seq<string> :=
    ["ьник", "нчук", "тник", "кирь", "ский", "шена", "шина", "вина", "нина", "гана", "гана", "хній", "зюба",
     "орош", "орон", "сило", "руба", "лест", "мара", "обка", "рока", "сика", "одна", "нчар", "вата", "ндар", "грій"]

  /** The three name-part scores of a word. */
  datatype PartScores = PartScores(first: int, second: int, father: int)

  /** The patronymic score: 3 for the patronymic endings. */
  function FatherScore(w: string): (f: int)
    ensures f == 0 || f == 300
  {
    if InList(Last(w, 3), FatherEndings3) || InList(Last(w, 4), FatherEndings4) then 300 else 0
  }

  /** The first-name score: 0.5 for the first-name endings, 10 for the
      exceptions. */
  function FirstScore(w: string): (f: int)
    ensures 0 <= f <= 1050
    ensures InNames(w, FirstNameExceptions) <==> f >= 1000
  {
    (if InList(Last(w, 3), FirstEndings3) || InList(Last(w, 4), FirstEndings4) then 50 else 0)
    + (if InNames(w, FirstNameExceptions) then 1000 else 0)
  }

  /** The surname score: 0.4 for each list of surname endings that matches,
      0.2 for a final і. */
  function SecondScore(w: string): (f: int)
    ensures 0 <= f <= 140
  {
    (if InList(Last(w, 2), SecondEndings2) then 40 else 0)
    + (if InList(Last(w, 3), SecondEndings3) then 40 else 0)
    + (if InList(Last(w, 4), SecondEndings4) then 40 else 0)
    + (if Last(w, 1) == "і" then 20 else 0)
  }

  /** The scores of a word for first name, surname and patronymic. */
  function NamePartScores(w: string): (s: PartScores)
    ensures 0 <= s.first && 0 <= s.second <= 140 && (s.father == 0 || s.father == 300)
    ensures InNames(w, FirstNameExceptions) ==> s.first >= 1000
  {
    PartScores(FirstScore(w), SecondScore(w), FatherScore(w))
  }

  function Max(a: int, b: int): (m: int)
    ensures m >= a && m >= b && (m == a || m == b)
  {
    if a >= b then a else b
  }

  /** The name part with the highest score; ties go to the first name, then
      to the surname. */
  function ChooseNamePart(s: PartScores): (p: NamePart)
    ensures p == FirstName <==> s.first >= s.second && s.first >= s.father
    ensures p == SecondName <==> s.second > s.first && s.second >= s.father
    ensures p == FatherName <==> s.father > s.first && s.father > s.second
  {
    var max := Max(Max(s.first, s.second), s.father);
    if s.first == max then FirstName
    else if s.second == max then SecondName
    else FatherName
  }

  /** DetectNamePart: gives the word the part its text scores highest for. */
  method DetectNamePart(core: Core, word: Word)
    modifies core`workingWord, word`namePart
    ensures core.workingWord == word.word
    ensures word.namePart == ChooseNamePart(NamePartScores(word.word))
  {
    var namepart := word.Name();
    var part := ChooseNamePart(NamePartScores(namepart));
    core.SetWorkingWord(namepart);
    word.SetNamePart(part);
  }

  /** Every name of the exception list is classified as a first name. */
  lemma ExceptionsAreFirstNames(w: string)
    requires InNames(w, FirstNameExceptions)
    ensures ChooseNamePart(NamePartScores(w)) == FirstName
  {
  }

  /** A patronymic ending is not the first-name ending -тин. */
  lemma FatherEndingNotFirst(w: string)
    requires InList(Last(w, 3), FatherEndings3)
    ensures !InList(Last(w, 3), FirstEndings3)
  {
  }

  /** A patronymic in -вна, -чна or -ліч with no first-name feature is
      classified as a patronymic: 3 outweighs every surname feature together. */
  lemma {:induction false} FatherEndingIsFatherName(w: string)
    requires InList(Last(w, 3), FatherEndings3)
    requires !InList(Last(w, 4), FirstEndings4) && !InNames(w, FirstNameExceptions)
    ensures ChooseNamePart(NamePartScores(w)) == FatherName
  {
    FatherEndingNotFirst(w);
    assert FirstScore(w) == 0;
    assert FatherScore(w) == 300;
  }
}
