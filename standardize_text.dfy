/** The default export of src/api/helpers/standardize-text-input.ts. */
module StandardizeText {
  import opened Strings
  import FormatText

  /**
    Lower-cases, then trims: a slice of the lower-cased text with only white
    space around it, no white space at either end, never longer than the input.
   */
  function StandardizeTextInput(t: string): (r: string)
    ensures exists a, b :: SliceBetweenSpaces(ToLower(t), r, a, b)
    ensures r == [] || (!IsSpace(r[0]) && !IsSpace(r[|r| - 1]))
    ensures |r| <= |t|
  {
    Trim(ToLower(t))
  }

  lemma Idempotent(t: string)
    ensures StandardizeTextInput(StandardizeTextInput(t)) == StandardizeTextInput(t)
  {
    FormatText.StandardizeIdempotent(t);
  }

  /** This helper and formatText's standardizeTextInput agree on every input. */
  lemma AgreesWithFormatText(t: string)
    ensures StandardizeTextInput(t) == FormatText.StandardizeTextInput(t)
  {
  }
}
