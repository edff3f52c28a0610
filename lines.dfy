/**
 What processing one line means, stated on values: which columns qualify, the
 suggestion set and its column-ordered list, and the text the line has on disk
 after every qualifying column has been spliced in order.
 */
module Lines {
  import opened Chars

  function Min(a: int, b: int): int
  {
    if a <= b then a else b
  }

  /**
   One replacement step: `line[:index] + s + line[index+1:]` with the slice
   bounds clamped to the line as slicing a string does.
   */
  function Splice(line: string, index: nat, s: string): (r: string)
    ensures index < |line| ==>
      |r| == |line| - 1 + |s| && r[..index] == line[..index] &&
      r[index..index + |s|] == s && r[index + |s|..] == line[index + 1..]
    ensures index >= |line| ==> r == line + s
  {
    line[..Min(index, |line|)] + s + line[Min(index + 1, |line|)..]
  }

  /** A one-character replacement keeps the length and changes the one column only. */
  lemma SpliceSingle(line: string, index: nat, s: string)
    requires index < |line| && |s| == 1
    ensures |Splice(line, index, s)| == |line|
    ensures Splice(line, index, s)[index] == s[0]
    ensures forall j :: 0 <= j < |line| && j != index ==> Splice(line, index, s)[j] == line[j]
  {
    var r := Splice(line, index, s);
    assert r[index..index + 1] == s;
    forall j | 0 <= j < |line| && j != index
      ensures r[j] == line[j]
    {
      if j < index {
        assert r[..index][j] == line[..index][j];
      } else {
        assert r[index + 1..][j - index - 1] == line[index + 1..][j - index - 1];
      }
    }
  }

  /** Number of qualifying columns among the first k characters. */
  function CountQualifying(chars: string, convert: Oracle, k: nat): nat
    requires k <= |chars|
  {
    if k == 0 then 0
    else CountQualifying(chars, convert, k - 1) + (if NeedsConversion(chars[k - 1], convert) then 1 else 0)
  }

  /** The suggestion set a line accumulates over its first k characters. */
  function SuggestionsUpTo(chars: string, convert: Oracle, k: nat): set<Suggestion>
    requires k <= |chars|
  {
    if k == 0 then {}
    else if NeedsConversion(chars[k - 1], convert)
    then SuggestionsUpTo(chars, convert, k - 1) + {Suggestion(convert(chars[k - 1]), k - 1)}
    else SuggestionsUpTo(chars, convert, k - 1)
  }

  /** The suggestions of the first k characters, column by column. */
  function SuggestionList(chars: string, convert: Oracle, k: nat): seq<Suggestion>
    requires k <= |chars|
  {
    if k == 0 then []
    else if NeedsConversion(chars[k - 1], convert)
    then SuggestionList(chars, convert, k - 1) + [Suggestion(convert(chars[k - 1]), k - 1)]
    else SuggestionList(chars, convert, k - 1)
  }

  /** The disk line after the qualifying columns among the first k have been spliced, in order. */
  function Rewrite(disk: string, chars: string, convert: Oracle, k: nat): string
    requires k <= |chars|
  {
    if k == 0 then disk
    else
      var r := Rewrite(disk, chars, convert, k - 1);
      if NeedsConversion(chars[k - 1], convert) then Splice(r, k - 1, convert(chars[k - 1])) else r
  }

  /** A line after it has been processed, when the disk still holds its original text. */
  function ConvertedLine(chars: string, convert: Oracle): string
  {
    Rewrite(chars, chars, convert, |chars|)
  }

  function FirstFrom(chars: string, convert: Oracle, i: nat): (r: nat)
    requires i <= |chars|
    ensures i <= r <= |chars|
    ensures forall j :: i <= j < r ==> !NeedsConversion(chars[j], convert)
    ensures r < |chars| ==> NeedsConversion(chars[r], convert)
    decreases |chars| - i
  {
    if i == |chars| then i
    else if NeedsConversion(chars[i], convert) then i
    else FirstFrom(chars, convert, i + 1)
  }

  /** The column of the first qualifying character, or the line length when there is none. */
  function FirstQualifying(chars: string, convert: Oracle): (r: nat)
    ensures r <= |chars|
    ensures forall j :: 0 <= j < r ==> !NeedsConversion(chars[j], convert)
    ensures r < |chars| ==> NeedsConversion(chars[r], convert)
  {
    FirstFrom(chars, convert, 0)
  }

  lemma {:induction false} CountQualifyingZero(chars: string, convert: Oracle, k: nat)
    requires k <= |chars|
    ensures CountQualifying(chars, convert, k) == 0
        <==> forall i :: 0 <= i < k ==> !NeedsConversion(chars[i], convert)
  {
    if k > 0 {
      CountQualifyingZero(chars, convert, k - 1);
    }
  }

  /** The first k characters hold a qualifying one exactly when the first qualifying column is below k. */
  lemma CountQualifyingPositive(chars: string, convert: Oracle, k: nat)
    requires k <= |chars|
    ensures CountQualifying(chars, convert, k) > 0 <==> FirstQualifying(chars, convert) < k
  {
    CountQualifyingZero(chars, convert, k);
  }

  /** A qualifying column with none before it is the first qualifying column. */
  lemma FirstQualifyingIs(chars: string, convert: Oracle, k: nat)
    requires k < |chars| && NeedsConversion(chars[k], convert)
    requires CountQualifying(chars, convert, k) == 0
    ensures FirstQualifying(chars, convert) == k
    ensures CountQualifying(chars, convert, |chars|) > 0
  {
    CountQualifyingZero(chars, convert, k);
    CountQualifyingPositive(chars, convert, |chars|);
  }

  /** The suggestion set is exactly the pairs (convert(c), i) over the qualifying columns i < k. */
  lemma {:induction false} SuggestionsUpToMembers(chars: string, convert: Oracle, k: nat)
    requires k <= |chars|
    ensures forall x :: x in SuggestionsUpTo(chars, convert, k) <==>
      x.index < k && NeedsConversion(chars[x.index], convert) && x.text == convert(chars[x.index])
  {
    if k > 0 {
      SuggestionsUpToMembers(chars, convert, k - 1);
    }
  }

  /** The suggestion set has one member per qualifying column. */
  lemma {:induction false} SuggestionsUpToSize(chars: string, convert: Oracle, k: nat)
    requires k <= |chars|
    ensures |SuggestionsUpTo(chars, convert, k)| == CountQualifying(chars, convert, k)
  {
    if k > 0 {
      SuggestionsUpToSize(chars, convert, k - 1);
      SuggestionsUpToMembers(chars, convert, k - 1);
      assert Suggestion(convert(chars[k - 1]), k - 1) !in SuggestionsUpTo(chars, convert, k - 1);
    }
  }

  /** Two members of a line's suggestion set with the same column are the same suggestion. */
  lemma SuggestionsUpToColumns(chars: string, convert: Oracle, k: nat)
    requires k <= |chars|
    ensures forall x, y :: (x in SuggestionsUpTo(chars, convert, k) && y in SuggestionsUpTo(chars, convert, k)
      && x.index == y.index) ==> x == y
  {
    SuggestionsUpToMembers(chars, convert, k);
  }

  /** Columns strictly ascending along a suggestion sequence. */
  predicate StrictlyByColumn(s: seq<Suggestion>)
  {
    forall i, j :: 0 <= i < j < |s| ==> s[i].index < s[j].index
  }

  /** The column-ordered list holds exactly the suggestion set, in strictly ascending columns. */
  lemma {:induction false} SuggestionListOrdered(chars: string, convert: Oracle, k: nat)
    requires k <= |chars|
    ensures StrictlyByColumn(SuggestionList(chars, convert, k))
    ensures forall x :: x in SuggestionList(chars, convert, k) <==> x in SuggestionsUpTo(chars, convert, k)
    ensures |SuggestionList(chars, convert, k)| == CountQualifying(chars, convert, k)
    ensures forall x :: x in SuggestionList(chars, convert, k) ==> x.index < k
  {
    if k > 0 {
      SuggestionListOrdered(chars, convert, k - 1);
    }
  }

  /** The tail of a strictly column-ordered sequence is strictly ordered and holds every member but the head. */
  lemma StrictlyByColumnTail(s: seq<Suggestion>)
    requires StrictlyByColumn(s) && s != []
    ensures StrictlyByColumn(s[1..])
    ensures forall x :: x in s[1..] <==> x in s && x != s[0]
  {
    forall i, j | 0 <= i < j < |s[1..]| ensures s[1..][i].index < s[1..][j].index {
      assert s[1..][i] == s[i + 1] && s[1..][j] == s[j + 1];
    }
    forall x | x in s && x != s[0] ensures x in s[1..] {
      var i :| 0 <= i < |s| && s[i] == x;
      assert s[1..][i - 1] == x;
    }
  }

  /** Two strictly column-ordered sequences with the same members start with the same member. */
  lemma StrictlyByColumnHead(a: seq<Suggestion>, b: seq<Suggestion>)
    requires StrictlyByColumn(a) && StrictlyByColumn(b) && a != [] && b != []
    requires forall x :: x in a <==> x in b
    ensures a[0] == b[0]
  {
    assert a[0] in b;
    var k :| 0 <= k < |b| && b[k] == a[0];
    assert b[0] in a;
    var m :| 0 <= m < |a| && a[m] == b[0];
    assert a[0].index <= a[m].index && b[0].index <= b[k].index;
    assert k == 0;
  }

  /** Two strictly column-ordered sequences of one length with the same members are equal. */
  lemma {:induction false} StrictlyByColumnUnique(a: seq<Suggestion>, b: seq<Suggestion>)
    requires StrictlyByColumn(a) && StrictlyByColumn(b)
    requires |a| == |b|
    requires forall x :: x in a <==> x in b
    ensures a == b
  {
    if a != [] {
      StrictlyByColumnHead(a, b);
      StrictlyByColumnTail(a);
      StrictlyByColumnTail(b);
      StrictlyByColumnUnique(a[1..], b[1..]);
      assert a == [a[0]] + a[1..] && b == [b[0]] + b[1..];
    }
  }

  /** With no qualifying column among the first k, the disk line is left as it was. */
  lemma {:induction false} RewriteNoQualifying(disk: string, chars: string, convert: Oracle, k: nat)
    requires k <= |chars|
    requires CountQualifying(chars, convert, k) == 0
    ensures Rewrite(disk, chars, convert, k) == disk
  {
    if k > 0 {
      RewriteNoQualifying(disk, chars, convert, k - 1);
    }
  }

  /** With a one-character oracle every splice keeps the disk line's length. */
  lemma {:induction false} RewriteLength(disk: string, chars: string, convert: Oracle, k: nat)
    requires SingleChar(convert)
    requires k <= |chars| && |disk| == |chars|
    ensures |Rewrite(disk, chars, convert, k)| == |disk|
  {
    if k > 0 {
      RewriteLength(disk, chars, convert, k - 1);
      if NeedsConversion(chars[k - 1], convert) {
        assert |convert(chars[k - 1])| == 1;
      }
    }
  }

  /** With a one-character oracle column i holds its conversion once spliced, and its old character otherwise. */
  lemma {:induction false} RewriteAt(disk: string, chars: string, convert: Oracle, k: nat, i: nat)
    requires SingleChar(convert)
    requires k <= |chars| && |disk| == |chars| && i < |disk|
    ensures |Rewrite(disk, chars, convert, k)| == |disk|
    ensures Rewrite(disk, chars, convert, k)[i] ==
      if i < k && NeedsConversion(chars[i], convert) then convert(chars[i])[0] else disk[i]
  {
    if k > 0 {
      RewriteAt(disk, chars, convert, k - 1, i);
      var r := Rewrite(disk, chars, convert, k - 1);
      if NeedsConversion(chars[k - 1], convert) {
        assert |convert(chars[k - 1])| == 1;
        SpliceSingle(r, k - 1, convert(chars[k - 1]));
      }
    }
  }

  /**
   With a one-character oracle and a disk line as long as the character list,
   the splices never drift: each qualifying column among the first k holds its
   conversion and every other column is untouched.
   */
  lemma RewritePointwise(disk: string, chars: string, convert: Oracle, k: nat)
    requires SingleChar(convert)
    requires k <= |chars| && |disk| == |chars|
    ensures |Rewrite(disk, chars, convert, k)| == |disk|
    ensures forall i :: 0 <= i < |disk| ==> (Rewrite(disk, chars, convert, k)[i] ==
      if i < k && NeedsConversion(chars[i], convert) then convert(chars[i])[0] else disk[i])
  {
    RewriteLength(disk, chars, convert, k);
    forall i | 0 <= i < |disk|
      ensures Rewrite(disk, chars, convert, k)[i] ==
        if i < k && NeedsConversion(chars[i], convert) then convert(chars[i])[0] else disk[i]
    {
      RewriteAt(disk, chars, convert, k, i);
    }
  }

  /**
   A processed line keeps its length; its qualifying characters become their
   conversions and every other character stays.
   */
  lemma ConvertedLinePointwise(chars: string, convert: Oracle)
    requires SingleChar(convert)
    ensures |ConvertedLine(chars, convert)| == |chars|
    ensures forall i :: 0 <= i < |chars| ==> (ConvertedLine(chars, convert)[i] ==
      if NeedsConversion(chars[i], convert) then convert(chars[i])[0] else chars[i])
  {
    RewritePointwise(chars, chars, convert, |chars|);
  }

  /** A line with nothing to convert is written back unchanged, whatever the oracle. */
  lemma ConvertedLineUnchanged(chars: string, convert: Oracle)
    requires CountQualifying(chars, convert, |chars|) == 0
    ensures ConvertedLine(chars, convert) == chars
  {
    RewriteNoQualifying(chars, chars, convert, |chars|);
  }

  /** With an idempotent one-character oracle a processed line has nothing left to convert. */
  lemma ConvertedLineClean(chars: string, convert: Oracle)
    requires SingleChar(convert) && Idempotent(convert)
    ensures CountQualifying(ConvertedLine(chars, convert), convert, |ConvertedLine(chars, convert)|) == 0
  {
    var r := ConvertedLine(chars, convert);
    ConvertedLinePointwise(chars, convert);
    forall i | 0 <= i < |r|
      ensures !NeedsConversion(r[i], convert)
    {
      if NeedsConversion(chars[i], convert) {
        assert convert(r[i]) == convert(chars[i]);
        assert convert(chars[i]) == [convert(chars[i])[0]];
      } else {
        NeedsConversionSingle(chars[i], convert);
      }
    }
    CountQualifyingZero(r, convert, |r|);
  }
}
