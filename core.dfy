/** The engine state of Core.cs and the helpers every rule is written with:
    suffix access, letter-set and list membership, name comparison, and the
    suffix synthesiser WordForms. */
module Core {
  import opened Wrappers
  import opened NCLStr
  import opened WordArrays

  /** The last n characters of w, or all of w when it is shorter. */
  function Last(w: string, n: nat): (r: string)
    ensures |r| == if n <= |w| then n else |w|
  {
    if n > |w| then w else w[|w| - n..]
  }

  /** k characters starting n from the end of w, or all of w when w is shorter than n. */
  function LastAt(w: string, n: nat, k: nat): (r: string)
    requires k <= n
  {
    if n > |w| then w else w[|w| - n..|w| - n + k]
  }

  /** What the suffix helpers hold: Last(w, n) is the end of w, and
      LastAt(w, n, k) is the first k letters of it, or all of w when w is
      shorter than n. Kept apart from the functions so that the rules, which
      mostly compare suffixes with literals, do not carry it. */
  lemma LastMeans(w: string, n: nat, k: nat)
    requires k <= n
    ensures Last(w, n) == w[|w| - |Last(w, n)|..]
    ensures LastAt(w, n, k) == if n <= |w| then Last(w, n)[..k] else w
  {
  }

  /** A shorter suffix of a suffix is a suffix of the word. */
  lemma LastOfLast(w: string, m: nat, n: nat)
    requires n <= m
    ensures Last(Last(w, m), n) == Last(w, n)
  {
  }

  /** The short suffixes the rules test, letter by letter. */
  lemma LastLetters(w: string)
    ensures |w| >= 1 ==> Last(w, 1) == [w[|w| - 1]]
    ensures |w| >= 2 ==> Last(w, 2) == [w[|w| - 2], w[|w| - 1]] && LastAt(w, 2, 1) == [w[|w| - 2]]
    ensures |w| >= 3 ==> Last(w, 3) == [w[|w| - 3], w[|w| - 2], w[|w| - 1]] && LastAt(w, 3, 1) == [w[|w| - 3]]
  {
  }

  /** The last letter alone. */
  lemma LastOne(w: string)
    requires |w| >= 1
    ensures Last(w, 1) == [w[|w| - 1]] == w[|w| - 1..]
  {
  }

  /** A word is its last letter appended to the rest. */
  lemma SplitLast(w: string)
    requires |w| >= 1
    ensures w == w[..|w| - 1] + [w[|w| - 1]]
  {
  }

  /** s occurs in t as a contiguous piece. */
  predicate Occurs(s: string, t: string)
    decreases |t|
  {
    |s| <= |t| && (t[..|s|] == s || (t != [] && Occurs(s, t[1..])))
  }

  /** The letter-set test In(letter, letters): a non-empty piece of letters. */
  predicate In(letter: string, letters: string) {
    letter != [] && Occurs(letter, letters)
  }

  /** For one character In is membership in the letter set. */
  lemma {:induction false} InOneLetter(c: char, letters: string)
    ensures In([c], letters) <==> c in letters
  {
    if letters != [] {
      InOneLetter(c, letters[1..]);
      assert letters == [letters[0]] + letters[1..];
    }
  }

  /** The list test In(needle, haystack): equal to one of the entries. */
  predicate InList(s: string, list: seq<string>) {
    s in list
  }

  /** InNames: equal to one of the names, ignoring letter case. */
  predicate InNames(w: string, names: seq<string>) {
    |names| > 0 && (ToLower(w) == ToLower(names[0]) || InNames(w, names[1..]))
  }

  lemma {:induction false} InNamesMeans(w: string, names: seq<string>)
    ensures InNames(w, names) <==> exists i :: 0 <= i < |names| && ToLower(w) == ToLower(names[i])
  {
    if |names| > 0 {
      InNamesMeans(w, names[1..]);
      if InNames(w, names[1..]) {
        var i :| 0 <= i < |names[1..]| && ToLower(w) == ToLower(names[1..][i]);
        assert ToLower(w) == ToLower(names[i + 1]);
      }
      if exists i :: 0 <= i < |names| && ToLower(w) == ToLower(names[i]) {
        var i :| 0 <= i < |names| && ToLower(w) == ToLower(names[i]);
        if i > 0 {
          assert ToLower(w) == ToLower(names[1..][i - 1]);
        }
      }
    }
  }

  /** The prefix p followed by each ending in turn. */
  function Suffixed(p: string, endings: seq<string>): (r: seq<string>)
    ensures |r| == |endings|
    ensures forall i :: 0 <= i < |r| ==> r[i] == p + endings[i] && p <= r[i]
  {
    if endings == [] then [] else [p + endings[0]] + Suffixed(p, endings[1..])
  }

  /** The suffix synthesiser: slot 0 is the working word; slot i is the stem
      with its last k letters cut, followed by ending i-1. */
  function WordForms(working: string, stem: string, endings: seq<string>, k: nat): (r: seq<string>)
    requires k <= |stem|
    ensures |r| == |endings| + 1 && r[0] == working
    ensures forall i :: 1 <= i < |r| ==> r[i] == stem[..|stem| - k] + endings[i - 1]
    ensures forall i :: 1 <= i < |r| ==> stem[..|stem| - k] <= r[i]
  {
    [working] + Suffixed(stem[..|stem| - k], endings)
  }

  /** Every slot holds the working word. */
  function MakeResultTheSame(working: string, caseCount: nat): (r: seq<string>)
    ensures |r| == caseCount && forall i :: 0 <= i < caseCount ==> r[i] == working
  {
    seq(caseCount, _ => working)
  }

  /** What one rule does to the working word: it does not apply, or it declines
      the word (recording its rule id, when it has one), or the library throws. */
  datatype Outcome =
    | NoMatch
    | Declined(rule: Option<int>, forms: seq<string>)
    | Crash(fault: Fault)

  /** A rule that ends in WordForms: cutting more letters than the stem has throws. */
  function Forms(rule: int, working: string, stem: string, endings: seq<string>, k: nat): (r: Outcome)
    ensures r.NoMatch? == false
    ensures r.Declined? <==> k <= |stem|
    ensures r.Crash? ==> r.fault == TrimTooLong
    ensures r.Declined? ==> r.rule == Some(rule) && |r.forms| == |endings| + 1 && r.forms[0] == working
    ensures r.Declined? ==> forall i :: 1 <= i < |r.forms| ==> r.forms[i] == stem[..|stem| - k] + endings[i - 1]
    ensures r.Declined? ==> forall i :: 1 <= i < |r.forms| ==> stem[..|stem| - k] <= r.forms[i]
    ensures r.Declined? && k == 0 ==> forall i :: 1 <= i < |r.forms| ==> r.forms[i] == stem + endings[i - 1]
  {
    if k <= |stem| then Declined(Some(rule), WordForms(working, stem, endings, k)) else Crash(TrimTooLong)
  }

  /** Within the stem, Forms declines with the synthesised forms. */
  lemma FormsDeclines(rule: int, working: string, stem: string, endings: seq<string>, k: nat)
    requires k <= |stem|
    ensures Forms(rule, working, stem, endings, k) == Declined(Some(rule), WordForms(working, stem, endings, k))
  {
  }

  /** Five endings, as the Russian rules give them, spelled out slot by slot. */
  lemma FormsOf5(rule: int, working: string, stem: string, endings: seq<string>, k: nat)
    requires |endings| == 5
    ensures k <= |stem| ==> var s := stem[..|stem| - k];
      Forms(rule, working, stem, endings, k) ==
        Declined(Some(rule), [working, s + endings[0], s + endings[1], s + endings[2], s + endings[3], s + endings[4]])
  {
  }

  /** Six endings, as the Ukrainian rules give them, spelled out slot by slot. */
  lemma FormsOf6(rule: int, working: string, stem: string, endings: seq<string>, k: nat)
    requires |endings| == 6
    ensures k <= |stem| ==> var s := stem[..|stem| - k];
      Forms(rule, working, stem, endings, k) ==
        Declined(Some(rule), [working, s + endings[0], s + endings[1], s + endings[2], s + endings[3], s + endings[4], s + endings[5]])
  {
  }

  /** A declension of w with n case slots whose slot 0 is w itself. */
  predicate KeepsWord(o: Outcome, w: string, n: nat) {
    o.Declined? ==> |o.forms| == n && 0 < n && o.forms[0] == w
  }

  /** Every form of a declension after slot 0 begins with p. */
  predicate SlotsStartWith(o: Outcome, p: string) {
    o.Declined? ==> forall i :: 1 <= i < |o.forms| ==> p <= o.forms[i]
  }

  /** What running one outcome through the engine does: a declining rule
      stores its forms and, when it has one, its rule id, and reports true;
      a rule that does not apply reports false; a throwing rule reports its
      fault; in the last two cases nothing is stored. */
  predicate Applied(o: Outcome, r: Result<bool>, rule0: int, result0: seq<string>, rule1: int, result1: seq<string>) {
    && (o.NoMatch? ==> r == Ok(false) && rule1 == rule0 && result1 == result0)
    && (o.Crash? ==> r == Throws(o.fault) && rule1 == rule0 && result1 == result0)
    && (o.Declined? ==> r == Ok(true) && result1 == o.forms && rule1 == if o.rule.Some? then o.rule.value else rule0)
  }

  class Core {
    var ready: bool
    var finished: bool
    /** Null until the first FullReset. */
    var words: WordArray?
    var workingWord: string
    var lastRule: int
    /** Null entries of the library's arrays are "" here. */
    var lastResult: seq<string>
    const caseCount: nat

    constructor (caseCount: nat)
      ensures this.caseCount == caseCount
      ensures !ready && !finished && words == null
      ensures workingWord == "" && lastRule == 0 && lastResult == []
    {
      this.caseCount := caseCount;
      ready := false;
      finished := false;
      words := null;
      workingWord := "";
      lastRule := 0;
      lastResult := [];
    }

    /** Clears the result of the last declension. */
    method Reset()
      modifies this`lastRule, this`lastResult
      ensures lastRule == 0 && lastResult == seq(caseCount, _ => "")
    {
      lastRule := 0;
      lastResult := seq(caseCount, _ => "");
    }

    /** Marks the words as not classified and not declined. */
    method NotReady()
      modifies this`ready, this`finished
      ensures !ready && !finished
    {
      ready := false;
      finished := false;
    }

    /** Forgets every word and result; returns the engine itself. */
    method FullReset() returns (self: Core)
      modifies this`words, this`lastRule, this`lastResult, this`ready, this`finished
      ensures self == this
      ensures words != null && fresh(words) && words.Valid() && words.Elements == [] && words.length == 0
      ensures !ready && !finished
      ensures lastRule == 0 && lastResult == seq(caseCount, _ => "")
    {
      words := new WordArray();
      Reset();
      NotReady();
      return this;
    }

    /** The Rule property, read side. */
    function Rule(): int
      reads this
    {
      lastRule
    }

    /** The Rule property, write side. */
    method SetRule(value: int)
      modifies this`lastRule
      ensures Rule() == value
    {
      lastRule := value;
    }

    /** Makes w the word the rules look at. */
    method SetWorkingWord(w: string)
      modifies this`workingWord
      ensures workingWord == w
    {
      workingWord := w;
    }

    /** Runs one rule outcome against the engine: a declining rule writes its
        forms and its rule id and reports true; a rule that does not apply
        reports false and changes nothing; a throwing rule changes nothing. */
    method Apply(o: Outcome) returns (r: Result<bool>)
      modifies this`lastRule, this`lastResult
      ensures o.NoMatch? ==> r == Ok(false) && lastRule == old(lastRule) && lastResult == old(lastResult)
      ensures o.Crash? ==> r == Throws(o.fault) && lastRule == old(lastRule) && lastResult == old(lastResult)
      ensures o.Declined? ==> r == Ok(true) && lastResult == o.forms
      ensures o.Declined? ==> lastRule == (if o.rule.Some? then o.rule.value else old(lastRule))
      ensures Applied(o, r, old(lastRule), old(lastResult), lastRule, lastResult)
    {
      match o
      case NoMatch =>
        r := Ok(false);
      case Crash(f) =>
        r := Throws(f);
      case Declined(rule, forms) =>
        if rule.Some? {
          SetRule(rule.value);
        }
        lastResult := forms;
        r := Ok(true);
    }
  }
}
