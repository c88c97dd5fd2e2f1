/**
  The text helpers of src/api/helpers/formatText.ts. lodash's startCase has no
  visible definition here, so the callers pass it in as `startCase`.
 */
module FormatText {
  import opened Strings

  /**
    Lower-cases, then trims. The result is a slice of the lower-cased text
    with only white space around it, has no white space at either end and no
    upper-case ASCII letter, and is no longer than the input.
   */
  function StandardizeTextInput(v: string): (r: string)
    ensures exists a, b :: SliceBetweenSpaces(ToLower(v), r, a, b)
    ensures r == [] || (!IsSpace(r[0]) && !IsSpace(r[|r| - 1]))
    ensures forall i :: 0 <= i < |r| ==> !IsUpper(r[i])
    ensures |r| <= |v|
  {
    var l := ToLower(v);
    assert forall c :: c in l ==> !IsUpper(c) by {
      forall c | c in l ensures !IsUpper(c) {
        var j :| 0 <= j < |l| && l[j] == c;
        assert c == LowerChar(v[j]);
      }
    }
    Trim(l)
  }

  /** Standardizing a standardized text changes nothing. */
  lemma StandardizeIdempotent(v: string)
    ensures StandardizeTextInput(StandardizeTextInput(v)) == StandardizeTextInput(v)
  {
    var l := ToLower(v);
    LowerTrim(l);
    LowerIdempotent(v);
    TrimIdempotent(l);
  }

  /** titleCase: startCase of the standardized text. */
  function TitleCase(startCase: string -> string, v: string): string {
    startCase(StandardizeTextInput(v))
  }

  /** titleCase does not see whether its input was standardized first. */
  lemma TitleCaseAbsorbsStandardize(startCase: string -> string, v: string)
    ensures TitleCase(startCase, StandardizeTextInput(v)) == TitleCase(startCase, v)
  {
    StandardizeIdempotent(v);
  }

  function MapText(f: string -> string, xs: seq<string>): (ys: seq<string>) {
    seq(|xs|, i requires 0 <= i < |xs| => f(xs[i]))
  }

  /** sentenceCase: the standardized text cut at every '.', each piece start-cased, joined with ". ". */
  function SentenceCase(startCase: string -> string, v: string): string {
    Join(MapText(startCase, Split(StandardizeTextInput(v), '.')), ". ")
  }

  /**
    sentenceCase start-cases one piece per '.' plus one, each piece free of
    '.', and the pieces are exactly the text between the dots.
   */
  lemma SentenceCasePieces(startCase: string -> string, v: string)
    ensures var s := StandardizeTextInput(v);
      && |Split(s, '.')| == Count(s, '.') + 1
      && Join(Split(s, '.'), ".") == s
      && SentenceCase(startCase, v) == Join(MapText(startCase, Split(s, '.')), ". ")
  {
    SplitJoinRoundTrip(StandardizeTextInput(v), '.');
  }

  /**
    With a startCase that changes nothing, sentenceCase is the standardized
    text with every '.' widened to ". ".
   */
  lemma SentenceCaseSpacesDots(v: string)
    ensures SentenceCase(s => s, v) == ReplaceAll(StandardizeTextInput(v), '.', ". ")
  {
    var pieces := Split(StandardizeTextInput(v), '.');
    assert MapText(s => s, pieces) == pieces;
    JoinSplit(StandardizeTextInput(v), '.', ". ");
  }
}
