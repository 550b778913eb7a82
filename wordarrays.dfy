/** The append-only, growing array of the words of one query. */
module WordArrays {
  import opened NCL
  import opened Words

  class WordArray {
    /** The words added so far, in insertion order. */
    ghost var Elements: seq<Word>

    var length: nat
    var capacity: nat
    var words: array<Word?>

    ghost predicate Valid()
      reads this, words
    {
      && words.Length == capacity
      && 0 < capacity
      && length <= capacity
      && |Elements| == length
      && forall i :: 0 <= i < length ==> words[i] == Elements[i]
    }

    /** A new array is empty and has room for four words. */
    constructor ()
      ensures Valid() && fresh(words)
      ensures Elements == [] && length == 0 && capacity == 4
    {
      length := 0;
      capacity := 4;
      words := new Word?[4];
      Elements := [];
    }

    /** The id-th word added; ids beyond the added words are a caller error. */
    method GetWord(id: nat) returns (w: Word)
      requires Valid() && id < length
      ensures w == Elements[id]
    {
      w := words[id];
    }

    /** Moves the words into an array twice as large. */
    method EnlargeArray()
      requires Valid()
      modifies this`words, this`capacity
      ensures Valid() && fresh(words)
      ensures capacity == 2 * old(capacity)
      ensures words[..length] == old(words[..length])
    {
      var tmp := new Word?[capacity * 2];
      for i := 0 to length
        modifies tmp
        invariant forall j :: 0 <= j < i ==> tmp[j] == words[j]
      {
        tmp[i] := words[i];
      }
      words := tmp;
      capacity := capacity * 2;
    }

    /** Appends a word, doubling the storage first when it is full. */
    method AddWord(word: Word)
      requires Valid()
      modifies this, words
      ensures Valid()
      ensures Elements == old(Elements) + [word]
      ensures length == old(length) + 1 && Length() == |Elements|
      ensures capacity == if old(length) >= old(capacity) then 2 * old(capacity) else old(capacity)
      ensures old(length) < old(capacity) ==> words == old(words)
      ensures old(length) >= old(capacity) ==> fresh(words)
    {
      if length >= capacity {
        EnlargeArray();
      }
      words[length] := word;
      length := length + 1;
      Elements := Elements + [word];
    }

    function Length(): nat
      reads this
    {
      length
    }

    /** The first word, in insertion order, of the given name part, or a new
        empty word when there is none. */
    method GetByNamePart(namePart: NamePart) returns (w: Word)
      requires Valid()
      ensures (exists i :: 0 <= i < |Elements| && Elements[i].namePart == namePart) ==>
        exists i :: 0 <= i < |Elements| && w == Elements[i] && w.namePart == namePart &&
          forall j :: 0 <= j < i ==> Elements[j].namePart != namePart
      ensures (forall i :: 0 <= i < |Elements| ==> Elements[i].namePart != namePart) ==>
        fresh(w) && w.word == "" && w.nameCases.Length == 0
    {
      for i := 0 to length
        invariant forall j :: 0 <= j < i ==> Elements[j].namePart != namePart
      {
        if words[i].namePart == namePart {
          return words[i];
        }
      }
      w := new Word("");
    }
  }
}
