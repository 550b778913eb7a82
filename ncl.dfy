/** The library's vocabulary (gender, name part, grammatical case) and the
    mutable gender-evidence accumulator. */
module NCL {

  /** Gender of a person; Null while it is not decided. */
  datatype Gender = Null | Man | Woman

  /** Which part of a full name a word is; Null while it is not decided. */
  datatype NamePart = Null | FirstName | SecondName | FatherName

  /** Case indices. The Russian names cover 0..5, the Ukrainian ones 0..6;
      both sets share the numbering, so IMENITLN and UaNazyvnyi are both 0. */
  datatype Padeg =
    | IMENITLN | RODITLN | DATELN | VINITELN | TVORITELN | PREDLOGN
    | UaNazyvnyi | UaRodovyi | UaDavalnyi | UaZnahidnyi | UaOrudnyi | UaMiszevyi | UaKlychnyi
  {
    function Index(): nat {
      match this
      case IMENITLN => 0
      case RODITLN => 1
      case DATELN => 2
      case VINITELN => 3
      case TVORITELN => 4
      case PREDLOGN => 5
      case UaNazyvnyi => 0
      case UaRodovyi => 1
      case UaDavalnyi => 2
      case UaZnahidnyi => 3
      case UaOrudnyi => 4
      case UaMiszevyi => 5
      case UaKlychnyi => 6
    }
  }

  /** Evidence that a word belongs to a man or to a woman. Scores are kept in
      exact hundredths (the library uses single-precision floats whose every
      constant is a multiple of 0.01). */
  class GenderProbability {
    var manProbability: int
    var womanProbability: int

    constructor (man: int, woman: int)
      ensures manProbability == man && womanProbability == woman
    {
      manProbability := man;
      womanProbability := woman;
    }

    /** The empty accumulator. */
    constructor Empty()
      ensures manProbability == 0 && womanProbability == 0
    {
      manProbability := 0;
      womanProbability := 0;
    }

    function Man(): int
      reads this
    {
      manProbability
    }

    function Woman(): int
      reads this
    {
      womanProbability
    }

    method SetMan(value: int)
      modifies this
      ensures manProbability == value && womanProbability == old(womanProbability)
    {
      manProbability := value;
    }

    method SetWoman(value: int)
      modifies this
      ensures womanProbability == value && manProbability == old(manProbability)
    {
      womanProbability := value;
    }

    /** The `+` operator: a new accumulator holding the component-wise sum;
        both operands stay as they were (the method modifies nothing). */
    static method Plus(number: GenderProbability, add: GenderProbability) returns (result: GenderProbability)
      ensures fresh(result)
      ensures result.manProbability == number.manProbability + add.manProbability
      ensures result.womanProbability == number.womanProbability + add.womanProbability
    {
      result := new GenderProbability(0, 0);
      result.SetMan(number.Man() + add.Man());
      result.SetWoman(number.Woman() + add.Woman());
    }
  }
}
