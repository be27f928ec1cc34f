/** What the three IMDb loaders share: the column separator, the absent-value sentinel, skip reasons. */
module Tsv {
  import opened Optional
  import opened JavaText

  const Tab: char := '\t'

  /** IMDb's `\N`: the field has no value. */
  const Sentinel: string := "\\N"

  /** Why a data line buffered nothing. The loaders count all three alike, in linesSkipped. */
  datatype SkipReason =
    | MalformedLine      // too few tab-separated fields
    | FilteredOut        // a row of a kind the loader does not keep
    | DanglingReference  // a cast row naming a movie or star the store does not hold

  /**
   * A numeric column as the loaders read it: `\N` is absent, and so is anything
   * `Integer.parseInt` rejects; the value is never defaulted to 0. The sentinel test
   * is subsumed by the parse, which rejects `\N` on its own.
   */
  function OptionalInt(field: string): (r: Option<int>)
    ensures field == Sentinel ==> r == None
    ensures r == ParseInt(field)
  {
    if field == Sentinel then None else ParseInt(field)
  }

  /** The data lines of a file: every line but the header. */
  function DataLines(lines: seq<string>): (body: seq<string>)
    ensures |body| == if lines == [] then 0 else |lines| - 1
    ensures forall i :: 0 <= i < |body| ==> body[i] == lines[i + 1]
  {
    if lines == [] then [] else lines[1..]
  }

  /** Reading one more line past the header adds it to the data lines. */
  lemma DataLinesSnoc(lines: seq<string>, i: nat)
    requires 0 < i < |lines|
    ensures DataLines(lines[..i + 1]) == DataLines(lines[..i]) + [lines[i]]
  {
    assert lines[..i + 1][1..] == lines[..i][1..] + [lines[i]];
  }
}
