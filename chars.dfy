/**
 The character-level vocabulary of the converter: the CJK presence check used
 as a cheap short-circuit, the conversion oracle and the test that decides
 whether a character is rewritten, and the records the scan reports.
 */
module Chars {

  /** The simplified-to-traditional conversion oracle: one character in, a string out. */
  type Oracle = char -> string

  /** The oracle never changes the number of characters. */
  ghost predicate SingleChar(convert: Oracle)
  {
    forall c :: |convert(c)| == 1
  }

  /** Converting a converted character changes nothing more. */
  ghost predicate Idempotent(convert: Oracle)
    requires SingleChar(convert)
  {
    forall c :: convert(convert(c)[0]) == convert(c)
  }

  /** A character in the range U+4E00..U+9FA5 searched for by the presence check. */
  predicate IsCjkIdeograph(c: char)
  {
    '\U{4E00}' <= c <= '\U{9FA5}'
  }

  /** True iff some character of the text is a CJK ideograph. */
  function HasSimplifiedChinese(content: string): (r: bool)
    ensures r <==> exists i :: 0 <= i < |content| && IsCjkIdeograph(content[i])
  {
    if content == [] then false
    else if IsCjkIdeograph(content[0]) then true
    else
      var rest := HasSimplifiedChinese(content[1..]);
      assert forall i :: 1 <= i < |content| ==> content[1..][i - 1] == content[i];
      rest
  }

  /**
   The per-character test of the scan. Its name in the source suggests the
   opposite: it holds of the characters the oracle would change, i.e. those
   that are not yet traditional.
   */
  predicate NeedsConversion(c: char, convert: Oracle): (r: bool)
    ensures r <==> |convert(c)| != 1 || convert(c)[0] != c
  {
    assert |convert(c)| == 1 && convert(c)[0] == c ==> convert(c) == [c];
    convert(c) != [c]
  }

  /** With a one-character oracle the test compares the converted character itself. */
  lemma NeedsConversionSingle(c: char, convert: Oracle)
    requires SingleChar(convert)
    ensures NeedsConversion(c, convert) <==> convert(c)[0] != c
    ensures !NeedsConversion(c, convert) ==> convert(c) == [c]
  {
    assert |convert(c)| == 1;
    if convert(c)[0] == c {
      assert convert(c) == [convert(c)[0]];
    }
  }

  /** One suggested replacement: the converted text and the column it belongs at. */
  datatype Suggestion = Suggestion(text: string, index: nat)

  /** Identity of a reported line: the file, its 1-based line number and its text before rewriting. */
  datatype ResultKey = ResultKey(path: string, lineNum: nat, content: string)

  /** The four counters returned for a file and summed for a directory. */
  datatype Counts = Counts(totalChars: nat, totalFiles: nat, totalCharsModified: nat, totalFilesModified: nat)

  function Zero(): Counts
  {
    Counts(0, 0, 0, 0)
  }

  /** Component-wise sum of two counter tuples. */
  function Add(a: Counts, b: Counts): (r: Counts)
  {
    Counts(a.totalChars + b.totalChars, a.totalFiles + b.totalFiles,
           a.totalCharsModified + b.totalCharsModified, a.totalFilesModified + b.totalFilesModified)
  }

  /** The text the scan reads: the lines of the file one after another. */
  function Concat(lines: seq<string>): string
  {
    if lines == [] then [] else Concat(lines[..|lines| - 1]) + lines[|lines| - 1]
  }

  /** The whole-file presence check fires iff some line holds a CJK ideograph. */
  lemma {:induction false} HasSimplifiedInLines(lines: seq<string>)
    ensures HasSimplifiedChinese(Concat(lines))
        <==> exists l, i :: 0 <= l < |lines| && 0 <= i < |lines[l]| && IsCjkIdeograph(lines[l][i])
  {
    if lines != [] {
      var init := lines[..|lines| - 1];
      var last := lines[|lines| - 1];
      HasSimplifiedInLines(init);
      var whole := Concat(init) + last;
      assert Concat(lines) == whole;
      if HasSimplifiedChinese(whole) {
        var i :| 0 <= i < |whole| && IsCjkIdeograph(whole[i]);
        if i < |Concat(init)| {
          assert whole[i] == Concat(init)[i];
          var l, j :| 0 <= l < |init| && 0 <= j < |init[l]| && IsCjkIdeograph(init[l][j]);
          assert lines[l] == init[l];
        } else {
          assert whole[i] == last[i - |Concat(init)|];
          assert IsCjkIdeograph(lines[|lines| - 1][i - |Concat(init)|]);
        }
      }
      if exists l, i :: 0 <= l < |lines| && 0 <= i < |lines[l]| && IsCjkIdeograph(lines[l][i]) {
        var l, i :| 0 <= l < |lines| && 0 <= i < |lines[l]| && IsCjkIdeograph(lines[l][i]);
        if l < |init| {
          assert init[l] == lines[l];
          assert HasSimplifiedChinese(Concat(init));
          var k :| 0 <= k < |Concat(init)| && IsCjkIdeograph(Concat(init)[k]);
          assert whole[k] == Concat(init)[k];
        } else {
          assert whole[|Concat(init)| + i] == last[i];
        }
      }
    }
  }
}
