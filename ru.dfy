/** The Russian rule set: six cases, each rule a guarded suffix test followed
    by "cut k letters, append these endings". No rule chains or classifiers
    of the Russian set are modelled (their source is not part of this model). */
module Ru {
  import opened Wrappers
  import opened NCLStr
  import opened Core

  /** Cases of the Russian set (the count NameCaseLib/Ru.cs declares). */
  const CaseCount: nat := 6

  const Vowels: string := "аеёиоуыэюя"
  const Consonant: string := "бвгджзйклмнпрстфхцчшщ"

  /** Endings of surnames that do not decline. */
  const Ovo: seq<string> := ["ово", "аго", "яго", "ирь"]
  const Ih: seq<string> := ["их", "ых", "ко"]

  /** A Russian declension: slot 0 holds the word, and each of the five
      slots after it the word less its last k letters followed by one ending;
      a cut longer than the word throws. */
  function Decline(rule: int, w: string, endings: seq<string>, k: nat): (r: Outcome)
    requires |endings| == 5
    ensures k <= |w| ==> var s := w[..|w| - k];
      r == Declined(Some(rule), [w, s + endings[0], s + endings[1], s + endings[2], s + endings[3], s + endings[4]])
    ensures k > |w| ==> r == Crash(TrimTooLong)
  {
    FormsOf5(rule, w, w, endings, k);
    Forms(rule, w, w, endings, k)
  }

  /** Men's first names ending in ь or й. */
  function ManRule1(w: string): (r: Outcome)
    ensures r.NoMatch? <==> !In(Last(w, 1), "ьй")
    ensures !r.Crash? && KeepsWord(r, w, CaseCount)
    ensures r.Declined? ==> r.rule == Some(if LastAt(w, 2, 1) != "и" then 101 else 102)
    ensures r.Declined? ==> |w| >= 1 && SlotsStartWith(r, w[..|w| - 1])
    ensures r.Declined? ==> r.forms[1] == w[..|w| - 1] + "я" && r.forms[4] == w[..|w| - 1] + "ем"
    ensures r.Declined? && r.rule == Some(101) ==>
      |w| >= 1 && var s := w[..|w| - 1]; r.forms == [w, s + "я", s + "ю", s + "я", s + "ем", s + "е"]
    ensures r.Declined? && r.rule == Some(102) ==>
      |w| >= 1 && var s := w[..|w| - 1]; r.forms == [w, s + "я", s + "ю", s + "я", s + "ем", s + "и"]
  {
    if In(Last(w, 1), "ьй") then
      if LastAt(w, 2, 1) != "и" then Decline(101, w, ["я", "ю", "я", "ем", "е"], 1)
      else Decline(102, w, ["я", "ю", "я", "ем", "и"], 1)
    else NoMatch
  }

  /** The literal declensions of Павел and Лев. */
  const PavelForms: seq<string> := ["Павел", "Павла", "Павлу", "Павла", "Павлом", "Павле"]
  const LevForms: seq<string> := ["Лев", "Льва", "Льву", "Льва", "Львом", "Льве"]

  /** One-name lists compare with that name. */
  lemma InOneName(w: string, name: string)
    ensures InNames(w, [name]) <==> ToLower(w) == ToLower(name)
  {
    assert [name][1..] == [];
  }

  /** Men's first names ending in a hard consonant; Павел and Лев are exceptions
      with literal forms, every other name keeps all its letters. */
  function ManRule2(w: string): (r: Outcome)
    ensures r.NoMatch? <==> !In(Last(w, 1), Consonant)
    ensures !r.Crash?
    ensures r.Declined? ==> |r.forms| == CaseCount
    ensures r.Declined? && InNames(w, ["Павел"]) ==> r == Declined(Some(201), PavelForms)
    ensures r.Declined? && !InNames(w, ["Павел"]) && InNames(w, ["Лев"]) ==> r == Declined(Some(202), LevForms)
    ensures r.Declined? && !InNames(w, ["Павел"]) && !InNames(w, ["Лев"]) ==>
      r.rule == Some(203) && r.forms[0] == w && SlotsStartWith(r, w) &&
      r.forms == [w, w + "а", w + "у", w + "а", w + "ом", w + "е"]
  {
    if In(Last(w, 1), Consonant) then
      if InNames(w, ["Павел"]) then Declined(Some(201), PavelForms)
      else if InNames(w, ["Лев"]) then Declined(Some(202), LevForms)
      else
        assert w[..|w| - 0] == w;
        Decline(203, w, ["а", "у", "а", "ом", "е"], 0)
    else NoMatch
  }

  /** Men's and women's names ending in а or я. */
  function ManRule3(w: string): (r: Outcome)
    ensures r.NoMatch? <==> Last(w, 1) != "а" && Last(w, 1) != "я"
    ensures !r.Crash? && KeepsWord(r, w, CaseCount)
    ensures r.Declined? ==> |w| >= 1 && SlotsStartWith(r, w[..|w| - 1])
    ensures r.Declined? && Last(w, 1) == "а" ==>
      r.rule == Some(if !In(LastAt(w, 2, 1), "кшгх") then 301 else 302) &&
      r.forms[1] == w[..|w| - 1] + (if !In(LastAt(w, 2, 1), "кшгх") then "ы" else "и")
    ensures r.Declined? && Last(w, 1) == "я" ==> r.rule == Some(303) && r.forms[4] == w[..|w| - 1] + "ей"
    ensures r.Declined? && r.rule == Some(301) ==>
      |w| >= 1 && var s := w[..|w| - 1]; r.forms == [w, s + "ы", s + "е", s + "у", s + "ой", s + "е"]
    ensures r.Declined? && r.rule == Some(302) ==>
      |w| >= 1 && var s := w[..|w| - 1]; r.forms == [w, s + "и", s + "е", s + "у", s + "ой", s + "е"]
    ensures r.Declined? && r.rule == Some(303) ==>
      |w| >= 1 && var s := w[..|w| - 1]; r.forms == [w, s + "и", s + "е", s + "ю", s + "ей", s + "е"]
  {
    if Last(w, 1) == "а" then
      if !In(LastAt(w, 2, 1), "кшгх") then Decline(301, w, ["ы", "е", "у", "ой", "е"], 1)
      else Decline(302, w, ["и", "е", "у", "ой", "е"], 1)
    else if Last(w, 1) == "я" then Decline(303, w, ["и", "е", "ю", "ей", "е"], 1)
    else NoMatch
  }

  /** Men's surnames ending in ь or й: the rule always applies, and its last
      branch leaves the word as it is. */
  function ManRule4(w: string): (r: Outcome)
    ensures r.NoMatch? <==> !In(Last(w, 1), "ьй")
    ensures r.Crash? ==> r.fault == TrimTooLong && |w| < 2
    ensures In(Last(w, 1), "ьй") && |w| >= 2 ==> r.Declined?
    ensures KeepsWord(r, w, CaseCount)
    ensures r.Declined? && Last(w, 3) == "бей" ==> r.rule == Some(400) && r.forms[1] == w[..|w| - 2] + "ья"
    ensures r.Declined? && r.rule == Some(405) ==> forall i :: 0 <= i < CaseCount ==> r.forms[i] == w
  {
    if In(Last(w, 1), "ьй") then
      if Last(w, 3) == "бей" then Decline(400, w, ["ья", "ью", "ья", "ьем", "ье"], 2)
      else if LastAt(w, 3, 1) == "а" || In(LastAt(w, 2, 1), "ел") then Decline(401, w, ["я", "ю", "я", "ем", "е"], 1)
      else if LastAt(w, 2, 1) == "ы" || LastAt(w, 3, 1) == "т" then Decline(402, w, ["ого", "ому", "ого", "ым", "ом"], 2)
      else if Last(w, 3) == "чий" then Decline(403, w, ["ьего", "ьему", "ьего", "ьим", "ьем"], 2)
      else if !In(LastAt(w, 2, 1), Vowels) || LastAt(w, 2, 1) == "и" then Decline(404, w, ["ого", "ому", "ого", "им", "ом"], 2)
      else Declined(Some(405), MakeResultTheSame(w, CaseCount))
    else NoMatch
  }

  /** The forms of each declining branch of rule 4: -бей keeps ь before its
      endings, the adjectival branches cut two letters (-ым after ы or т,
      -им after a consonant or и, -ьим for -чий). */
  lemma ManRule4Forms(w: string)
    ensures var r := ManRule4(w); r.Declined? && r.rule == Some(400) ==>
      |w| >= 2 && var s := w[..|w| - 2]; r.forms == [w, s + "ья", s + "ью", s + "ья", s + "ьем", s + "ье"]
    ensures var r := ManRule4(w); r.Declined? && r.rule == Some(401) ==>
      |w| >= 1 && var s := w[..|w| - 1]; r.forms == [w, s + "я", s + "ю", s + "я", s + "ем", s + "е"]
    ensures var r := ManRule4(w); r.Declined? && r.rule == Some(402) ==>
      |w| >= 2 && var s := w[..|w| - 2]; r.forms == [w, s + "ого", s + "ому", s + "ого", s + "ым", s + "ом"]
    ensures var r := ManRule4(w); r.Declined? && r.rule == Some(403) ==>
      |w| >= 2 && var s := w[..|w| - 2]; r.forms == [w, s + "ьего", s + "ьему", s + "ьего", s + "ьим", s + "ьем"]
    ensures var r := ManRule4(w); r.Declined? && r.rule == Some(404) ==>
      |w| >= 2 && var s := w[..|w| - 2]; r.forms == [w, s + "ого", s + "ому", s + "ого", s + "им", s + "ом"]
  {
    if !In(Last(w, 1), "ьй") {
    } else if Last(w, 3) == "бей" {
      assert ManRule4(w) == Decline(400, w, ["ья", "ью", "ья", "ьем", "ье"], 2);
    } else if LastAt(w, 3, 1) == "а" || In(LastAt(w, 2, 1), "ел") {
      assert ManRule4(w) == Decline(401, w, ["я", "ю", "я", "ем", "е"], 1);
    } else if LastAt(w, 2, 1) == "ы" || LastAt(w, 3, 1) == "т" {
      assert ManRule4(w) == Decline(402, w, ["ого", "ому", "ого", "ым", "ом"], 2);
    } else if Last(w, 3) == "чий" {
      assert ManRule4(w) == Decline(403, w, ["ьего", "ьему", "ьего", "ьим", "ьем"], 2);
    } else if !In(LastAt(w, 2, 1), Vowels) || LastAt(w, 2, 1) == "и" {
      assert ManRule4(w) == Decline(404, w, ["ого", "ому", "ого", "им", "ом"], 2);
    }
  }

  /** Which branch of rule 4 a word takes: the guards are tried in order,
      -бей first, and a word that passes none of them keeps its form (405). */
  lemma ManRule4Route(w: string)
    requires In(Last(w, 1), "ьй") && |w| >= 2
    ensures ManRule4(w).Declined? && ManRule4(w).rule == Some(
      if Last(w, 3) == "бей" then 400
      else if LastAt(w, 3, 1) == "а" || In(LastAt(w, 2, 1), "ел") then 401
      else if LastAt(w, 2, 1) == "ы" || LastAt(w, 3, 1) == "т" then 402
      else if Last(w, 3) == "чий" then 403
      else if !In(LastAt(w, 2, 1), Vowels) || LastAt(w, 2, 1) == "и" then 404
      else 405)
  {
    if Last(w, 3) == "бей" {
      assert ManRule4(w) == Decline(400, w, ["ья", "ью", "ья", "ьем", "ье"], 2);
    } else if LastAt(w, 3, 1) == "а" || In(LastAt(w, 2, 1), "ел") {
      assert ManRule4(w) == Decline(401, w, ["я", "ю", "я", "ем", "е"], 1);
    } else if LastAt(w, 2, 1) == "ы" || LastAt(w, 3, 1) == "т" {
      assert ManRule4(w) == Decline(402, w, ["ого", "ому", "ого", "ым", "ом"], 2);
    } else if Last(w, 3) == "чий" {
      assert ManRule4(w) == Decline(403, w, ["ьего", "ьему", "ьего", "ьим", "ьем"], 2);
    } else if !In(LastAt(w, 2, 1), Vowels) || LastAt(w, 2, 1) == "и" {
      assert ManRule4(w) == Decline(404, w, ["ого", "ому", "ого", "им", "ом"], 2);
    }
  }

  /** Лесничий: -чий keeps a soft sign before the adjectival endings,
      Лесничьего, Лесничьим. */
  lemma {:induction false} ManRule4Chiy(w: string)
    requires |w| >= 3 && w[|w| - 3..] == "чий"
    ensures ManRule4(w).Declined? && ManRule4(w).rule == Some(403)
    ensures var s := w[..|w| - 2];
      ManRule4(w).forms == [w, s + "ьего", s + "ьему", s + "ьего", s + "ьим", s + "ьем"]
  {
    assert w[|w| - 1] == 'й' && w[|w| - 2] == 'и' && w[|w| - 3] == 'ч';
    LastLetters(w);
    InOneLetter('й', "ьй");
    InOneLetter('и', "ел");
    assert Last(w, 3) == "чий";
    assert ManRule4(w) == Decline(403, w, ["ьего", "ьему", "ьего", "ьим", "ьем"], 2);
    ManRule4Forms(w);
  }

  /** Толстой: after т the ending -ой declines as an adjective, Толстого,
      Толстым. */
  lemma {:induction false} ManRule4Tolstoy(w: string)
    requires |w| >= 3 && w[|w| - 3..] == "той"
    ensures ManRule4(w).Declined? && ManRule4(w).rule == Some(402)
    ensures var s := w[..|w| - 2];
      ManRule4(w).forms == [w, s + "ого", s + "ому", s + "ого", s + "ым", s + "ом"]
  {
    assert w[|w| - 1] == 'й' && w[|w| - 2] == 'о' && w[|w| - 3] == 'т';
    LastLetters(w);
    InOneLetter('й', "ьй");
    InOneLetter('о', "ел");
    assert ManRule4(w) == Decline(402, w, ["ого", "ому", "ого", "ым", "ом"], 2);
    ManRule4Forms(w);
  }

  /** Men's surnames ending in к; a fleeting о or е before it is dropped. */
  function ManRule5(w: string): (r: Outcome)
    ensures r.NoMatch? <==> Last(w, 1) != "к"
    ensures !r.Crash? && KeepsWord(r, w, CaseCount)
    ensures r.Declined? && LastAt(w, 2, 1) == "о" ==>
      |w| >= 2 && r.rule == Some(501) && r.forms[1] == w[..|w| - 2] + "ка"
    ensures r.Declined? && LastAt(w, 2, 1) == "е" ==> |w| >= 2 && r.rule == Some(502)
    ensures r.Declined? && LastAt(w, 2, 1) != "о" && LastAt(w, 2, 1) != "е" ==>
      r.rule == Some(503) && SlotsStartWith(r, w)
    ensures r.Declined? && r.rule == Some(501) ==>
      |w| >= 2 && var s := w[..|w| - 2]; r.forms == [w, s + "ка", s + "ку", s + "ка", s + "ком", s + "ке"]
    ensures r.Declined? && r.rule == Some(502) ==>
      |w| >= 2 && var s := w[..|w| - 2]; r.forms == [w, s + "ька", s + "ьку", s + "ька", s + "ьком", s + "ьке"]
    ensures r.Declined? && r.rule == Some(503) ==> r.forms == [w, w + "а", w + "у", w + "а", w + "ом", w + "е"]
  {
    assert w[..|w| - 0] == w;
    if Last(w, 1) == "к" then
      if LastAt(w, 2, 1) == "о" then Decline(501, w, ["ка", "ку", "ка", "ком", "ке"], 2)
      else if LastAt(w, 2, 1) == "е" then Decline(502, w, ["ька", "ьку", "ька", "ьком", "ьке"], 2)
      else Decline(503, w, ["а", "у", "а", "ом", "е"], 0)
    else NoMatch
  }

  /** Men's surnames ending in a consonant: ч first, then -ец (whose е drops),
      then the consonants taking -ом, then every other consonant, which takes -ым. */
  function ManRule6(w: string): (r: Outcome)
    ensures !r.Crash? && KeepsWord(r, w, CaseCount)
    ensures r.NoMatch? ==> !In(Last(w, 1), Consonant)
    ensures r.Declined? ==> r.rule == Some(
      if Last(w, 1) == "ч" then 601 else if Last(w, 2) == "ец" then 604
      else if In(Last(w, 1), "цсршмхт") then 602 else 603)
    ensures r.Declined? && r.rule == Some(601) ==> r.forms == [w, w + "а", w + "у", w + "а", w + "ем", w + "е"]
    ensures r.Declined? && r.rule == Some(604) ==>
      |w| >= 2 && var s := w[..|w| - 2]; r.forms == [w, s + "ца", s + "цу", s + "ца", s + "цом", s + "це"]
    ensures r.Declined? && r.rule == Some(602) ==> r.forms == [w, w + "а", w + "у", w + "а", w + "ом", w + "е"]
    ensures r.Declined? && r.rule == Some(603) ==> r.forms == [w, w + "а", w + "у", w + "а", w + "ым", w + "е"]
  {
    assert w[..|w| - 0] == w;
    if Last(w, 1) == "ч" then Decline(601, w, ["а", "у", "а", "ем", "е"], 0)
    else if Last(w, 2) == "ец" then Decline(604, w, ["ца", "цу", "ца", "цом", "це"], 2)
    else if In(Last(w, 1), "цсршмхт") then Decline(602, w, ["а", "у", "а", "ом", "е"], 0)
    else if In(Last(w, 1), Consonant) then Decline(603, w, ["а", "у", "а", "ым", "е"], 0)
    else NoMatch
  }

  /** Surnames in -ч take -ем in the instrumental (Гринкевич, Гринкевичем). */
  lemma ManRule6Ch(w: string)
    requires Last(w, 1) == "ч"
    ensures ManRule6(w).Declined? && ManRule6(w).rule == Some(601) && ManRule6(w).forms[4] == w + "ем"
  {
    FormsDeclines(601, w, w, ["а", "у", "а", "ем", "е"], 0);
  }

  /** Surnames in -ец drop the е: Кузнец, Кузнеца, Кузнецом. */
  lemma ManRule6Ets(w: string)
    requires Last(w, 2) == "ец"
    ensures |w| >= 2 && ManRule6(w).Declined? && ManRule6(w).rule == Some(604)
    ensures var s := w[..|w| - 2];
      ManRule6(w).forms == [w, s + "ца", s + "цу", s + "ца", s + "цом", s + "це"]
  {
    assert Last(w, 1) == "ц" by {
      LastLetters(w);
    }
    assert ManRule6(w) == Decline(604, w, ["ца", "цу", "ца", "цом", "це"], 2);
  }

  /** The other consonants, outside ц, с, р, ш, м, х, т, take -ым in the
      instrumental (Иванов, Ивановым). */
  lemma ManRule6Hard(w: string)
    requires In(Last(w, 1), Consonant) && Last(w, 1) != "ч" && Last(w, 2) != "ец" && !In(Last(w, 1), "цсршмхт")
    ensures ManRule6(w).Declined? && ManRule6(w).rule == Some(603)
    ensures SlotsStartWith(ManRule6(w), w) && ManRule6(w).forms[4] == w + "ым"
  {
    ManRule6HardRoute(w);
    Rule603Forms(w);
  }

  /** The route to rule 603, kept apart from the forms it produces. */
  lemma ManRule6HardRoute(w: string)
    requires In(Last(w, 1), Consonant) && Last(w, 1) != "ч" && Last(w, 2) != "ец" && !In(Last(w, 1), "цсршмхт")
    ensures ManRule6(w) == Decline(603, w, ["а", "у", "а", "ым", "е"], 0)
  {
  }

  /** Rule 603 keeps the whole word as its stem. */
  lemma Rule603Forms(w: string)
    ensures var r := Decline(603, w, ["а", "у", "а", "ым", "е"], 0);
      r.Declined? && r.rule == Some(603) && SlotsStartWith(r, w) && r.forms[4] == w + "ым"
  {
    assert w[..|w| - 0] == w;
  }

  /** Rule 6 applies exactly to the words ending in a consonant: its first
      three tests only pick out consonants. */
  lemma {:induction false} ManRule6Applies(w: string)
    ensures ManRule6(w).NoMatch? <==> !In(Last(w, 1), Consonant)
  {
    if |w| >= 1 {
      var c := w[|w| - 1];
      LastOne(w);
      InOneLetter(c, Consonant);
      InOneLetter(c, "цсршмхт");
      if Last(w, 2) == "ец" {
        LastLetters(w);
        assert c == 'ц';
      }
    }
  }

  /** Men's surnames ending in а or я. */
  function ManRule7(w: string): (r: Outcome)
    ensures r.NoMatch? <==> Last(w, 1) != "а" && Last(w, 1) != "я"
    ensures r.Crash? ==> r.fault == TrimTooLong && |w| == 1
    ensures r.Crash? <==> w == "я"
    ensures KeepsWord(r, w, CaseCount)
    ensures r.Declined? && Last(w, 1) == "я" ==> |w| >= 2 && r.rule == Some(704) && r.forms[1] == w[..|w| - 2] + "ой"
    ensures r.Declined? && Last(w, 1) == "а" ==> SlotsStartWith(r, w[..|w| - 1])
    ensures r.Declined? && Last(w, 1) == "а" ==> r.rule == Some(
      if LastAt(w, 2, 1) == "ш" then 701 else if In(LastAt(w, 2, 1), "хкг") then 702 else 703)
    ensures r.Declined? && r.rule == Some(701) ==>
      |w| >= 1 && var s := w[..|w| - 1]; r.forms == [w, s + "и", s + "е", s + "у", s + "ей", s + "е"]
    ensures r.Declined? && r.rule == Some(702) ==>
      |w| >= 1 && var s := w[..|w| - 1]; r.forms == [w, s + "и", s + "е", s + "у", s + "ой", s + "е"]
    ensures r.Declined? && r.rule == Some(703) ==>
      |w| >= 1 && var s := w[..|w| - 1]; r.forms == [w, s + "ы", s + "е", s + "у", s + "ой", s + "е"]
    ensures r.Declined? && r.rule == Some(704) ==>
      |w| >= 2 && var s := w[..|w| - 2]; r.forms == [w, s + "ой", s + "ой", s + "ую", s + "ой", s + "ой"]
  {
    if Last(w, 1) == "а" then
      if LastAt(w, 2, 1) == "ш" then Decline(701, w, ["и", "е", "у", "ей", "е"], 1)
      else if In(LastAt(w, 2, 1), "хкг") then Decline(702, w, ["и", "е", "у", "ой", "е"], 1)
      else Decline(703, w, ["ы", "е", "у", "ой", "е"], 1)
    else if Last(w, 1) == "я" then Decline(704, w, ["ой", "ой", "ую", "ой", "ой"], 2)
    else NoMatch
  }

  /** The surnames that do not decline: the same text in every case. */
  function ManRule8(w: string): (r: Outcome)
    ensures r.NoMatch? <==> !(InList(Last(w, 3), Ovo) || InList(Last(w, 2), Ih))
    ensures !r.Crash?
    ensures r.Declined? ==> r.rule == Some(8) && |r.forms| == CaseCount
    ensures r.Declined? ==> forall i :: 0 <= i < CaseCount ==> r.forms[i] == w
  {
    if InList(Last(w, 3), Ovo) || InList(Last(w, 2), Ih) then Declined(Some(8), MakeResultTheSame(w, CaseCount))
    else NoMatch
  }

  /** Women's names ending in а, unless и stands before it. */
  function WomanRule1(w: string): (r: Outcome)
    ensures r.NoMatch? <==> !(Last(w, 1) == "а" && LastAt(w, 2, 1) != "и")
    ensures !r.Crash? && KeepsWord(r, w, CaseCount)
    ensures r.Declined? ==> |w| >= 1 && SlotsStartWith(r, w[..|w| - 1])
    ensures r.Declined? ==> r.rule == Some(
      if !In(LastAt(w, 2, 1), "шхкг") then 101 else if LastAt(w, 2, 1) == "ш" then 102 else 103)
    ensures r.Declined? && r.rule == Some(101) ==>
      |w| >= 1 && var s := w[..|w| - 1]; r.forms == [w, s + "ы", s + "е", s + "у", s + "ой", s + "е"]
    ensures r.Declined? && r.rule == Some(102) ==>
      |w| >= 1 && var s := w[..|w| - 1]; r.forms == [w, s + "и", s + "е", s + "у", s + "ей", s + "е"]
    ensures r.Declined? && r.rule == Some(103) ==>
      |w| >= 1 && var s := w[..|w| - 1]; r.forms == [w, s + "и", s + "е", s + "у", s + "ой", s + "е"]
  {
    if Last(w, 1) == "а" && LastAt(w, 2, 1) != "и" then
      if !In(LastAt(w, 2, 1), "шхкг") then Decline(101, w, ["ы", "е", "у", "ой", "е"], 1)
      else if LastAt(w, 2, 1) == "ш" then Decline(102, w, ["и", "е", "у", "ей", "е"], 1)
      else Decline(103, w, ["и", "е", "у", "ой", "е"], 1)
    else NoMatch
  }

  /** Women's names ending in я; after и the endings are и, и, ю, ей, и. */
  function WomanRule2(w: string): (r: Outcome)
    ensures r.NoMatch? <==> Last(w, 1) != "я"
    ensures !r.Crash? && KeepsWord(r, w, CaseCount)
    ensures r.Declined? ==> r.rule == Some(if LastAt(w, 2, 1) != "и" then 201 else 202)
    ensures r.Declined? ==> |w| >= 1 && SlotsStartWith(r, w[..|w| - 1])
    ensures r.Declined? && LastAt(w, 2, 1) == "и" ==> r.forms[2] == w[..|w| - 1] + "и" && r.forms[5] == w[..|w| - 1] + "и"
    ensures r.Declined? && r.rule == Some(201) ==>
      |w| >= 1 && var s := w[..|w| - 1]; r.forms == [w, s + "и", s + "е", s + "ю", s + "ей", s + "е"]
    ensures r.Declined? && r.rule == Some(202) ==>
      |w| >= 1 && var s := w[..|w| - 1]; r.forms == [w, s + "и", s + "и", s + "ю", s + "ей", s + "и"]
  {
    if Last(w, 1) == "я" then
      if LastAt(w, 2, 1) != "и" then Decline(201, w, ["и", "е", "ю", "ей", "е"], 1)
      else Decline(202, w, ["и", "и", "ю", "ей", "и"], 1)
    else NoMatch
  }

  /** Women's names ending in the soft sign, declined like дочь. */
  function WomanRule3(w: string): (r: Outcome)
    ensures r.NoMatch? <==> Last(w, 1) != "ь"
    ensures !r.Crash? && KeepsWord(r, w, CaseCount)
    ensures r.Declined? ==> r.rule == Some(3) && r.forms[3] == w && r.forms[4] == w + "ю"
    ensures r.Declined? ==>
      |w| >= 1 && var s := w[..|w| - 1]; r.forms == [w, s + "и", s + "и", w, w + "ю", s + "и"]
  {
    if Last(w, 1) == "ь" then
      SplitLast(w);
      assert w[..|w| - 1] + "ь" == w;
      assert w[..|w| - 1] + "ью" == w + "ю";
      Decline(3, w, ["и", "и", "ь", "ью", "и"], 1)
    else NoMatch
  }

  /** Women's surnames ending in а or я. */
  function WomanRule4(w: string): (r: Outcome)
    ensures r.NoMatch? <==> Last(w, 1) != "а" && Last(w, 1) != "я"
    ensures r.Crash? ==> r.fault == TrimTooLong && |w| == 1
    ensures r.Crash? <==> w == "я"
    ensures KeepsWord(r, w, CaseCount)
    ensures r.Declined? && Last(w, 1) == "а" && !In(LastAt(w, 2, 1), "гк") && !In(LastAt(w, 2, 1), "ш") ==>
      r.rule == Some(403) && r.forms[1] == w[..|w| - 1] + "ой"
    ensures r.Declined? && Last(w, 1) == "я" ==> |w| >= 2 && r.rule == Some(404) && r.forms[3] == w[..|w| - 2] + "ую"
    ensures r.Declined? && Last(w, 1) == "а" ==> r.rule == Some(
      if In(LastAt(w, 2, 1), "гк") then 401 else if In(LastAt(w, 2, 1), "ш") then 402 else 403)
    ensures r.Declined? && r.rule == Some(401) ==>
      |w| >= 1 && var s := w[..|w| - 1]; r.forms == [w, s + "и", s + "е", s + "у", s + "ой", s + "е"]
    ensures r.Declined? && r.rule == Some(402) ==>
      |w| >= 1 && var s := w[..|w| - 1]; r.forms == [w, s + "и", s + "е", s + "у", s + "ей", s + "е"]
    ensures r.Declined? && r.rule == Some(403) ==>
      |w| >= 1 && var s := w[..|w| - 1]; r.forms == [w, s + "ой", s + "ой", s + "у", s + "ой", s + "ой"]
    ensures r.Declined? && r.rule == Some(404) ==>
      |w| >= 2 && var s := w[..|w| - 2]; r.forms == [w, s + "ой", s + "ой", s + "ую", s + "ой", s + "ой"]
  {
    if Last(w, 1) == "а" then
      if In(LastAt(w, 2, 1), "гк") then Decline(401, w, ["и", "е", "у", "ой", "е"], 1)
      else if In(LastAt(w, 2, 1), "ш") then Decline(402, w, ["и", "е", "у", "ей", "е"], 1)
      else Decline(403, w, ["ой", "ой", "у", "ой", "ой"], 1)
    else if Last(w, 1) == "я" then Decline(404, w, ["ой", "ой", "ую", "ой", "ой"], 2)
    else NoMatch
  }

  /** The Russian rules by name, as the engine calls them. */
  datatype RuleName = Man1 | Man2 | Man3 | Man4 | Man5 | Man6 | Man7 | Man8
                    | Woman1 | Woman2 | Woman3 | Woman4

  function Select(name: RuleName, w: string): Outcome {
    match name
    case Man1 => ManRule1(w)
    case Man2 => ManRule2(w)
    case Man3 => ManRule3(w)
    case Man4 => ManRule4(w)
    case Man5 => ManRule5(w)
    case Man6 => ManRule6(w)
    case Man7 => ManRule7(w)
    case Man8 => ManRule8(w)
    case Woman1 => WomanRule1(w)
    case Woman2 => WomanRule2(w)
    case Woman3 => WomanRule3(w)
    case Woman4 => WomanRule4(w)
  }

  /** Every Russian rule fills exactly six slots, and slot 0 is the word up to
      letter case. */
  lemma SixSlots(name: RuleName, w: string)
    ensures Select(name, w).Declined? ==>
      |Select(name, w).forms| == CaseCount && ToLower(Select(name, w).forms[0]) == ToLower(w)
  {
    if name == Man2 {
      InOneName(w, "Павел");
      InOneName(w, "Лев");
    }
  }

  /** Runs one rule on the engine's working word. */
  method Run(core: Core, name: RuleName) returns (r: Result<bool>)
    modifies core`lastRule, core`lastResult
    ensures Applied(Select(name, core.workingWord), r, old(core.lastRule), old(core.lastResult), core.lastRule, core.lastResult)
  {
    r := core.Apply(Select(name, core.workingWord));
  }

  /** Three rules written separately agree: for a word ending in а after a
      letter other than и, ш, х, к, г, the first-name rule 3, the surname
      rule 7 and the women's rule 1 give the same forms. */
  lemma {:induction false} AFinalRulesAgree(w: string)
    requires Last(w, 1) == "а" && |w| >= 2 && !(w[|w| - 2] in "ишхкг")
    ensures ManRule3(w).Declined? && ManRule7(w).Declined? && WomanRule1(w).Declined?
    ensures ManRule3(w).forms == ManRule7(w).forms == WomanRule1(w).forms
  {
    assert LastAt(w, 2, 1) == [w[|w| - 2]];
    InOneLetter(w[|w| - 2], "кшгх");
    InOneLetter(w[|w| - 2], "хкг");
    InOneLetter(w[|w| - 2], "шхкг");
  }

  /** A final в passes none of rule 6's earlier tests and is a consonant. */
  lemma VIsPlainConsonant(w: string)
    requires |w| >= 1 && w[|w| - 1] == 'в'
    ensures In(Last(w, 1), Consonant) && Last(w, 1) != "ч" && Last(w, 2) != "ец" && !In(Last(w, 1), "цсршмхт")
  {
    LastIsV(w);
    VLetter();
    NotEts(w);
  }

  /** The last letter of a word ending in в. */
  lemma LastIsV(w: string)
    requires |w| >= 1 && w[|w| - 1] == 'в'
    ensures Last(w, 1) == "в"
  {
    LastOne(w);
  }

  /** в is a consonant outside ц, с, р, ш, м, х, т. */
  lemma VLetter()
    ensures In("в", Consonant) && !In("в", "цсршмхт")
  {
    InOneLetter('в', Consonant);
    InOneLetter('в', "цсршмхт");
  }

  /** A word ending in в does not end in -ец. */
  lemma NotEts(w: string)
    requires |w| >= 1 && w[|w| - 1] == 'в'
    ensures Last(w, 2) != "ец"
  {
    if |w| >= 2 {
      assert Last(w, 2)[1] == 'в';
    } else {
      assert |Last(w, 2)| == 1;
    }
  }

  /** Rule 6 on a surname ending in в, such as Иванов: the instrumental
      takes -ым (Ивановым). */
  lemma {:induction false} InstrumentalOfOvSurname(w: string)
    requires |w| >= 1 && w[|w| - 1] == 'в'
    ensures ManRule6(w).Declined? && ManRule6(w).rule == Some(603)
    ensures ManRule6(w).forms[4] == w + "ым"
  {
    VIsPlainConsonant(w);
    ManRule6Hard(w);
  }
}
