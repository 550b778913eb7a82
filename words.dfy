/** One name token: its lower-cased text, the capitalisation mask of the
    original, the name-part and gender evidence, and its case forms. */
module Words {
  import opened Wrappers
  import opened NCL
  import opened NCLStr

  /** One mark per letter of the original word: x for lower case, X for upper case. */
  datatype LettersMask = x | X

  /** The mark GenerateMask gives one character. */
  function MarkOf(c: char): LettersMask {
    if IsLowerCase(c) then x else X
  }

  /** The mask of a whole word, one mark per character. */
  function MaskOf(s: string): (m: seq<LettersMask>)
    ensures |m| == |s|
    ensures forall i :: 0 <= i < |s| ==> m[i] == MarkOf(s[i])
  {
    seq(|s|, i requires 0 <= i < |s| => MarkOf(s[i]))
  }

  /** The whole-word flag: no character of the word is lower case (so the
      empty word counts as upper case). */
  predicate AllUpper(s: string) {
    forall i :: 0 <= i < |s| ==> !IsLowerCase(s[i])
  }

  /** One character of a form after the mask is reapplied: upper-cased when the
      original had a capital at that position, unchanged otherwise. */
  function RestoreChar(c: char, i: nat, mask: seq<LettersMask>): char {
    if i < |mask| && mask[i] == X then UpperChar(c) else c
  }

  /** One case form after ReturnMask. */
  function RestoreMask(form: string, mask: seq<LettersMask>, upper: bool): (r: string)
    ensures |r| == |form|
  {
    if upper then ToUpper(form)
    else seq(|form|, i requires 0 <= i < |form| => RestoreChar(form[i], i, mask))
  }

  /** All case forms after ReturnMask. */
  function RestoreAll(forms: seq<string>, mask: seq<LettersMask>, upper: bool): (r: seq<string>)
    ensures |r| == |forms|
    ensures forall i :: 0 <= i < |forms| ==> r[i] == RestoreMask(forms[i], mask, upper)
  {
    seq(|forms|, i requires 0 <= i < |forms| => RestoreMask(forms[i], mask, upper))
  }

  /** Reapplying the mask of a word to its lower-cased text gives back the word
      exactly: slot 0 of a declension shows the original capitalisation. */
  lemma {:induction false} RestoreUndoesLower(w: string)
    ensures RestoreMask(ToLower(w), MaskOf(w), AllUpper(w)) == w
  {
    var r := RestoreMask(ToLower(w), MaskOf(w), AllUpper(w));
    forall i | 0 <= i < |w| ensures r[i] == w[i] {
      UpperUndoesLower(w[i]);
    }
  }

  /** A word given in upper case comes out in upper case in every form:
      no character of any restored form changes when upper-cased again. */
  lemma {:induction false} UpperWordGivesUpperForms(w: string, form: string)
    requires AllUpper(w)
    ensures forall i :: 0 <= i < |form| ==>
      UpperChar(RestoreMask(form, MaskOf(w), AllUpper(w))[i]) == RestoreMask(form, MaskOf(w), AllUpper(w))[i]
  {
    forall i | 0 <= i < |form|
      ensures UpperChar(RestoreMask(form, MaskOf(w), true)[i]) == RestoreMask(form, MaskOf(w), true)[i]
    {
      UpperCharIdempotent(form[i]);
    }
  }

  /** A mixed-case word: a form made of the lower-cased word's first k letters and
      any ending shows the original capitalisation on those k letters, and its
      ending stays exactly as generated wherever it lies past the original word. */
  lemma {:induction false} RestoreKeepsPrefix(w: string, k: nat, ending: string)
    requires k <= |w| && !AllUpper(w)
    ensures var r := RestoreMask(ToLower(w)[..k] + ending, MaskOf(w), false);
      r[..k] == w[..k] &&
      forall i :: |w| <= i < |r| ==> r[i] == (ToLower(w)[..k] + ending)[i]
  {
    var form := ToLower(w)[..k] + ending;
    var r := RestoreMask(form, MaskOf(w), false);
    forall i | 0 <= i < k ensures r[i] == w[i] {
      UpperUndoesLower(w[i]);
    }
  }

  class Word {
    /** The word in lower case. */
    var word: string
    var namePart: NamePart
    /** Unset (null) until a classifier assigns it. */
    var manOrWoman: GenderProbability?
    var genderSolved: Gender
    var letterMask: array<LettersMask>
    var isUpperCase: bool
    /** Null in the library until assigned; modelled as an empty array. */
    var nameCases: array<string>
    var rule: int

    constructor (w: string)
      ensures word == ToLower(w)
      ensures letterMask[..] == MaskOf(w) && isUpperCase == AllUpper(w)
      ensures namePart == NamePart.Null && genderSolved == Gender.Null && manOrWoman == null
      ensures nameCases.Length == 0 && rule == 0
      ensures fresh(letterMask) && fresh(nameCases)
    {
      word := "";
      namePart := NamePart.Null;
      manOrWoman := null;
      genderSolved := Gender.Null;
      letterMask := new LettersMask[0];
      isUpperCase := false;
      nameCases := new string[0];
      rule := 0;
      new;
      GenerateMask(w);
      word := ToLower(w);
    }

    /** Fills a fresh mask with one mark per character of w and sets the
        whole-word flag. */
    method GenerateMask(w: string)
      modifies this`letterMask, this`isUpperCase
      ensures fresh(letterMask)
      ensures letterMask[..] == MaskOf(w) && isUpperCase == AllUpper(w)
    {
      isUpperCase := true;
      var length := |w|;
      var mask := new LettersMask[length];
      for i := 0 to length
        invariant forall j :: 0 <= j < i ==> mask[j] == MarkOf(w[j])
        invariant isUpperCase == (forall j :: 0 <= j < i ==> !IsLowerCase(w[j]))
      {
        if IsLowerCase(w[i]) {
          isUpperCase := false;
          mask[i] := x;
        } else {
          mask[i] := X;
        }
      }
      letterMask := mask;
    }

    /** Rewrites every case form in place with the original capitalisation. */
    method ReturnMask()
      modifies nameCases
      ensures nameCases[..] == RestoreAll(old(nameCases[..]), letterMask[..], isUpperCase)
    {
      var wordCount := nameCases.Length;
      if isUpperCase {
        for i := 0 to wordCount
          invariant forall j :: 0 <= j < i ==> nameCases[j] == ToUpper(old(nameCases[j]))
          invariant forall j :: i <= j < wordCount ==> nameCases[j] == old(nameCases[j])
        {
          nameCases[i] := ToUpper(nameCases[i]);
        }
      } else {
        for i := 0 to wordCount
          invariant forall j :: 0 <= j < i ==> nameCases[j] == RestoreMask(old(nameCases[j]), letterMask[..], false)
          invariant forall j :: i <= j < wordCount ==> nameCases[j] == old(nameCases[j])
        {
          var form := nameCases[i];
          var lettersCount := |form|;
          var maskLength := letterMask.Length;
          var newStr := "";
          for letter := 0 to lettersCount
            invariant |newStr| == letter
            invariant forall k :: 0 <= k < letter ==> newStr[k] == RestoreChar(form[k], k, letterMask[..])
          {
            if letter < maskLength && letterMask[letter] == X {
              newStr := newStr + [UpperChar(form[letter])];
            } else {
              newStr := newStr + [form[letter]];
            }
          }
          assert newStr == RestoreMask(form, letterMask[..], false);
          nameCases[i] := newStr;
        }
      }
    }

    /** The NameCases setter: stores the given array and rewrites it with the mask. */
    method SetNameCases(value: array<string>)
      modifies this`nameCases, value
      ensures nameCases == value
      ensures value[..] == RestoreAll(old(value[..]), letterMask[..], isUpperCase)
    {
      nameCases := value;
      ReturnMask();
    }

    function NameCases(): array<string>
      reads this
    {
      nameCases
    }

    function Name(): string
      reads this
    {
      word
    }

    /** The Gender getter. An undecided word decides from its evidence, Man only
        on a strictly higher man score, and keeps the decision. If no evidence
        was ever assigned the library dereferences null. */
    method GetGender() returns (r: Result<Gender>)
      modifies this`genderSolved
      ensures old(genderSolved) != Gender.Null ==> r == Ok(genderSolved) && genderSolved == old(genderSolved)
      ensures old(genderSolved) == Gender.Null && manOrWoman == null ==>
        r == Throws(NullProbability) && genderSolved == Gender.Null
      ensures old(genderSolved) == Gender.Null && manOrWoman != null ==>
        r == Ok(genderSolved) &&
        genderSolved == (if manOrWoman.manProbability > manOrWoman.womanProbability then Man else Woman)
      ensures r.Ok? ==> IsGenderSolved() && r.value != Gender.Null
    {
      if genderSolved == Gender.Null {
        if manOrWoman == null {
          return Throws(NullProbability);
        }
        if manOrWoman.Man() > manOrWoman.Woman() {
          genderSolved := Man;
        } else {
          genderSolved := Woman;
        }
      }
      r := Ok(genderSolved);
    }

    /** The Gender setter: an explicit gender overrides any decision. */
    method SetGender(g: Gender)
      modifies this`genderSolved
      ensures genderSolved == g
      ensures IsGenderSolved() <==> g != Gender.Null
    {
      genderSolved := g;
    }

    /** Whether the gender is decided, by the getter or the setter. */
    predicate IsGenderSolved()
      reads this
    {
      genderSolved != Gender.Null
    }

    /** The form for one case; an index outside the stored forms is a caller error. */
    function GetNameCase(p: Padeg): (r: string)
      reads this, nameCases
      requires p.Index() < nameCases.Length
      ensures r == nameCases[..][p.Index()]
    {
      nameCases[p.Index()]
    }

    method SetGenderProbability(p: GenderProbability?)
      modifies this`manOrWoman
      ensures manOrWoman == p
    {
      manOrWoman := p;
    }

    method SetNamePart(p: NamePart)
      modifies this`namePart
      ensures namePart == p
    {
      namePart := p;
    }

    method SetRule(v: int)
      modifies this`rule
      ensures rule == v
    {
      rule := v;
    }
  }
}
