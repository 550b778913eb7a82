/** Small value types shared by every module: an optional value, and the
    exceptions the library throws on some inputs, modelled as values. */
module Wrappers {

  datatype Option<+T> = None | Some(value: T)

  /** The runtime exceptions of the library that the model makes explicit. */
  datatype Fault =
    | EmptyStem         // a stem with no consonant left is indexed at -1 (Ua.cs detect2Group)
    | SubstringOverrun  // the е-dropping Substring of Ua.cs ManRule3 reads one letter too many
    | TrimTooLong       // WordForms asked to cut more letters than the stem holds
    | NullProbability   // the Gender getter reads a gender probability that was never set

  /** A value, or the exception that was thrown instead of producing it. */
  datatype Result<+T> = Ok(value: T) | Throws(fault: Fault)
}
