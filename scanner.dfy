/**
 The file scanner: the CJK short-circuit, every line processed in order, the
 per-line report with its suggestions in column order and the four counters.
 */
module Scanner {
  import opened Chars
  import opened Lines
  import opened Processor

  /** One line of the report: its key and its suggestions in column order. */
  datatype ReportEntry = ReportEntry(key: ResultKey, suggestions: seq<Suggestion>)

  /** Qualifying characters in the first n lines. */
  function TotalQualifying(lines: seq<string>, convert: Oracle, n: nat): nat
    requires n <= |lines|
  {
    if n == 0 then 0
    else TotalQualifying(lines, convert, n - 1) + CountQualifying(lines[n - 1], convert, |lines[n - 1]|)
  }

  /** The keys registered by the first n lines, in line order. */
  function Registered(path: string, lines: seq<string>, convert: Oracle, n: nat): seq<ResultKey>
    requires n <= |lines|
  {
    if n == 0 then []
    else
      var line := lines[n - 1];
      Registered(path, lines, convert, n - 1)
        + (if CountQualifying(line, convert, |line|) > 0 then [ResultKey(path, n, line)] else [])
  }

  /** The suggestion map built by the first n lines. */
  function SuggestionMap(path: string, lines: seq<string>, convert: Oracle, n: nat): map<ResultKey, set<Suggestion>>
    requires n <= |lines|
  {
    if n == 0 then map[]
    else
      var m := SuggestionMap(path, lines, convert, n - 1);
      var line := lines[n - 1];
      if CountQualifying(line, convert, |line|) > 0
      then m[ResultKey(path, n, line) := SuggestionsUpTo(line, convert, |line|)]
      else m
  }

  /** The file once its first n lines have been processed. */
  function ProcessedUpTo(lines: seq<string>, convert: Oracle, n: nat): (r: seq<string>)
    ensures |r| == |lines|
  {
    seq(|lines|, i requires 0 <= i < |lines| => if i < n then ConvertedLine(lines[i], convert) else lines[i])
  }

  /** The file after a scan: untouched when the presence check fails, else every line processed. */
  function ScannedLines(lines: seq<string>, convert: Oracle): (r: seq<string>)
    ensures |r| == |lines|
    ensures !HasSimplifiedChinese(Concat(lines)) ==> r == lines
  {
    if HasSimplifiedChinese(Concat(lines)) then ProcessedUpTo(lines, convert, |lines|) else lines
  }

  /** The counters of one file scan. */
  function ScanCounts(lines: seq<string>, convert: Oracle): Counts
  {
    if !HasSimplifiedChinese(Concat(lines)) then Zero()
    else
      var c := TotalQualifying(lines, convert, |lines|);
      Counts(c, if c > 0 then 1 else 0, c, if c > 0 then 1 else 0)
  }

  /** Report entries for registered keys, in the given order. */
  function Report(keys: seq<ResultKey>, convert: Oracle): seq<ReportEntry>
  {
    if keys == [] then []
    else
      var k := keys[|keys| - 1];
      Report(keys[..|keys| - 1], convert) + [ReportEntry(k, SuggestionList(k.content, convert, |k.content|))]
  }

  /** The report of one file scan. */
  function ScanReport(path: string, lines: seq<string>, convert: Oracle): seq<ReportEntry>
  {
    if HasSimplifiedChinese(Concat(lines)) then Report(Registered(path, lines, convert, |lines|), convert) else []
  }

  /** Total size of the suggestion sets of a map, over its keys in any order. */
  ghost function SumSizes(m: map<ResultKey, set<Suggestion>>): nat
    decreases m.Keys
  {
    if m == map[] then 0
    else
      var k :| k in m;
      |m[k]| + SumSizes(m - {k})
  }

  /** The sum does not depend on which key is taken first. */
  lemma SumSizesRemove(m: map<ResultKey, set<Suggestion>>, k: ResultKey)
    requires k in m
    ensures SumSizes(m) == |m[k]| + SumSizes(m - {k})
    decreases m.Keys
  {
    var j :| j in m && SumSizes(m) == |m[j]| + SumSizes(m - {j});
    if j != k {
      SumSizesRemove(m - {j}, k);
      SumSizesRemove(m - {k}, j);
      assert m - {j} - {k} == m - {k} - {j};
    }
  }

  lemma SumSizesInsert(m: map<ResultKey, set<Suggestion>>, k: ResultKey, v: set<Suggestion>)
    requires k !in m
    ensures SumSizes(m[k := v]) == SumSizes(m) + |v|
  {
    SumSizesRemove(m[k := v], k);
    assert m[k := v] - {k} == m;
  }

  /**
   Every registered key names this file, a line at or below n with a
   qualifying character, and that line's text; line numbers strictly
   increase along the sequence, so no line is registered twice.
   */
  lemma {:induction false} RegisteredShape(path: string, lines: seq<string>, convert: Oracle, n: nat)
    requires n <= |lines|
    ensures forall i :: 0 <= i < |Registered(path, lines, convert, n)| ==>
      var k := Registered(path, lines, convert, n)[i];
      k.path == path && 1 <= k.lineNum <= n && k.content == lines[k.lineNum - 1] &&
      CountQualifying(k.content, convert, |k.content|) > 0
    ensures forall i, j :: 0 <= i < j < |Registered(path, lines, convert, n)| ==>
      Registered(path, lines, convert, n)[i].lineNum < Registered(path, lines, convert, n)[j].lineNum
    ensures |Registered(path, lines, convert, n)| > 0 <==> TotalQualifying(lines, convert, n) > 0
  {
    if n > 0 {
      RegisteredShape(path, lines, convert, n - 1);
    }
  }

  /** The suggestion map is keyed by exactly the registered keys, each mapped to its line's suggestion set. */
  lemma {:induction false} SuggestionMapShape(path: string, lines: seq<string>, convert: Oracle, n: nat)
    requires n <= |lines|
    ensures forall k :: k in SuggestionMap(path, lines, convert, n) <==> k in Registered(path, lines, convert, n)
    ensures forall k :: k in SuggestionMap(path, lines, convert, n) ==>
      1 <= k.lineNum <= n && k.content == lines[k.lineNum - 1] &&
      SuggestionMap(path, lines, convert, n)[k] == SuggestionsUpTo(k.content, convert, |k.content|)
  {
    if n > 0 {
      SuggestionMapShape(path, lines, convert, n - 1);
    }
  }

  /** The suggestion sets together hold one member per qualifying character. */
  lemma {:induction false} SuggestionMapTotal(path: string, lines: seq<string>, convert: Oracle, n: nat)
    requires n <= |lines|
    ensures SumSizes(SuggestionMap(path, lines, convert, n)) == TotalQualifying(lines, convert, n)
  {
    if n > 0 {
      SuggestionMapTotal(path, lines, convert, n - 1);
      var line := lines[n - 1];
      if CountQualifying(line, convert, |line|) > 0 {
        SuggestionMapShape(path, lines, convert, n - 1);
        SumSizesInsert(SuggestionMap(path, lines, convert, n - 1), ResultKey(path, n, line),
                       SuggestionsUpTo(line, convert, |line|));
        SuggestionsUpToSize(line, convert, |line|);
      }
    }
  }

  /** Counter consistency of one file scan. */
  lemma ScanCountsConsistent(lines: seq<string>, convert: Oracle)
    ensures var r := ScanCounts(lines, convert);
      r.totalCharsModified == r.totalChars && r.totalFilesModified == r.totalFiles &&
      r.totalFiles == (if r.totalChars > 0 then 1 else 0) && r.totalFiles <= 1
    ensures !HasSimplifiedChinese(Concat(lines)) ==> ScanCounts(lines, convert) == Zero()
  {
  }

  lemma {:induction false} TotalQualifyingZero(lines: seq<string>, convert: Oracle, n: nat)
    requires n <= |lines|
    requires forall l :: 0 <= l < n ==> CountQualifying(lines[l], convert, |lines[l]|) == 0
    ensures TotalQualifying(lines, convert, n) == 0
  {
    if n > 0 {
      TotalQualifyingZero(lines, convert, n - 1);
    }
  }

  /**
   After a scan with a one-character oracle the file has as many lines as
   before, each as long as before; a character changes only when the presence
   check fired and it qualifies, and then it becomes its conversion.
   */
  lemma ScannedLinesPointwise(lines: seq<string>, convert: Oracle)
    requires SingleChar(convert)
    ensures |ScannedLines(lines, convert)| == |lines|
    ensures forall l :: 0 <= l < |lines| ==> |ScannedLines(lines, convert)[l]| == |lines[l]|
    ensures forall l, i :: 0 <= l < |lines| && 0 <= i < |lines[l]| ==>
      ScannedLines(lines, convert)[l][i] ==
        if HasSimplifiedChinese(Concat(lines)) && NeedsConversion(lines[l][i], convert)
        then convert(lines[l][i])[0] else lines[l][i]
  {
    forall l | 0 <= l < |lines| {
      ConvertedLinePointwise(lines[l], convert);
    }
  }

  /** Scanning a scanned file again finds nothing, for an idempotent one-character oracle. */
  lemma ScanIdempotent(lines: seq<string>, convert: Oracle)
    requires SingleChar(convert) && Idempotent(convert)
    ensures ScanCounts(ScannedLines(lines, convert), convert) == Zero()
  {
    var after := ScannedLines(lines, convert);
    if HasSimplifiedChinese(Concat(lines)) {
      forall l | 0 <= l < |after|
        ensures CountQualifying(after[l], convert, |after[l]|) == 0
      {
        ConvertedLineClean(lines[l], convert);
      }
      TotalQualifyingZero(after, convert, |after|);
    }
  }

  /**
   A report entry that lists exactly its line's suggestion set, in strictly
   ascending columns, one suggestion per qualifying character.
   */
  ghost predicate EntryOrdered(e: ReportEntry, convert: Oracle)
  {
    var line := e.key.content;
    StrictlyByColumn(e.suggestions) && |e.suggestions| == CountQualifying(line, convert, |line|) &&
    forall x :: x in e.suggestions <==> x in SuggestionsUpTo(line, convert, |line|)
  }

  /** The report has one entry per key, in key order, and every entry is ordered. */
  lemma {:induction false} ReportOrdered(keys: seq<ResultKey>, convert: Oracle)
    ensures |Report(keys, convert)| == |keys|
    ensures forall i :: 0 <= i < |keys| ==>
      Report(keys, convert)[i].key == keys[i] && EntryOrdered(Report(keys, convert)[i], convert)
  {
    if keys != [] {
      var init := keys[..|keys| - 1];
      var k := keys[|keys| - 1];
      ReportOrdered(init, convert);
      SuggestionListOrdered(k.content, convert, |k.content|);
      var e := ReportEntry(k, SuggestionList(k.content, convert, |k.content|));
      assert EntryOrdered(e, convert);
      assert Report(keys, convert) == Report(init, convert) + [e];
    }
  }

  /** Some suggestion has the smallest column. */
  lemma {:induction false} MinColumnExists(s: set<Suggestion>)
    requires s != {}
    ensures exists m :: m in s && forall y :: y in s ==> m.index <= y.index
    decreases s
  {
    var x :| x in s;
    var rest := s - {x};
    if rest != {} {
      MinColumnExists(rest);
      var m :| m in rest && forall y :: y in rest ==> m.index <= y.index;
      var best := if x.index < m.index then x else m;
      forall y | y in s
        ensures best.index <= y.index
      {
        if y != x {
          assert y in rest;
        }
      }
      assert best in s;
    } else {
      assert s == {x};
    }
  }

  /** A line's suggestions sorted by column: every member once, columns never decreasing. */
  method SortByColumn(s: set<Suggestion>) returns (r: seq<Suggestion>)
    ensures forall x :: x in r <==> x in s
    ensures |r| == |s|
    ensures forall i, j :: 0 <= i < j < |r| ==> r[i].index <= r[j].index
    ensures forall i, j :: 0 <= i < j < |r| ==> r[i] != r[j]
  {
    r := [];
    var rest := s;
    while rest != {}
      invariant forall x :: x in s <==> x in r || x in rest
      invariant forall x :: x in r ==> x !in rest
      invariant |r| + |rest| == |s|
      invariant forall i, j :: 0 <= i < j < |r| ==> r[i].index <= r[j].index
      invariant forall i, y :: 0 <= i < |r| && y in rest ==> r[i].index <= y.index
      invariant forall i, j :: 0 <= i < j < |r| ==> r[i] != r[j]
      decreases rest
    {
      MinColumnExists(rest);
      var m :| m in rest && forall y :: y in rest ==> m.index <= y.index;
      r := r + [m];
      rest := rest - {m};
    }
  }

  /** Sum of the sizes of the suggestion sets, taken key by key. */
  method TotalChars(m: map<ResultKey, set<Suggestion>>) returns (total: nat)
    ensures total == SumSizes(m)
  {
    total := 0;
    var rest := m;
    while rest != map[]
      invariant total + SumSizes(rest) == SumSizes(m)
      decreases rest.Keys
    {
      var k :| k in rest;
      SumSizesRemove(rest, k);
      total := total + |rest[k]|;
      rest := rest - {k};
    }
  }

  /** Processing line n + 1 turns the file with n lines processed into the file with n + 1. */
  lemma FilesStep(files: map<string, seq<string>>, path: string, lines: seq<string>, convert: Oracle, n: nat)
    requires n < |lines|
    requires path in files && files[path] == ProcessedUpTo(lines, convert, n)
    ensures FilesAfter(files, path, n + 1, lines[n], convert, |lines[n]|)
      == files[path := ProcessedUpTo(lines, convert, n + 1)]
  {
    var line := lines[n];
    assert files[path][n] == line;
    assert files[path][n := ConvertedLine(line, convert)] == ProcessedUpTo(lines, convert, n + 1);
    if CountQualifying(line, convert, |line|) == 0 {
      ConvertedLineUnchanged(line, convert);
      assert files[path][n := line] == files[path];
      assert files[path := files[path]] == files;
    }
  }

  /** Processing line n + 1 adds its key, new to the map, with the line's whole suggestion set. */
  lemma SuggestionsStep(path: string, lines: seq<string>, convert: Oracle, n: nat)
    requires n < |lines|
    ensures ResultKey(path, n + 1, lines[n]) !in SuggestionMap(path, lines, convert, n)
    ensures SuggestionsAfter(SuggestionMap(path, lines, convert, n), ResultKey(path, n + 1, lines[n]), {},
                             convert, |lines[n]|)
      == SuggestionMap(path, lines, convert, n + 1)
  {
    SuggestionMapShape(path, lines, convert, n);
    var line := lines[n];
    assert {} + SuggestionsUpTo(line, convert, |line|) == SuggestionsUpTo(line, convert, |line|);
  }

  /**
   The task of line n + 1, run after the tasks of lines 1 to n: it registers
   the line when it has a qualifying character, adds its suggestion set and
   rewrites it on disk.
   */
  method LineTask(fs: FileSystem, state: ScanState, path: string, lines: seq<string>, convert: Oracle, n: nat)
    requires n < |lines|
    requires path in fs.files && fs.files[path] == ProcessedUpTo(lines, convert, n)
    requires state.results == Registered(path, lines, convert, n)
    requires state.suggestions == SuggestionMap(path, lines, convert, n)
    requires forall l :: l in state.PrintedIn(path) ==> l <= n
    modifies fs, state
    ensures state.results == Registered(path, lines, convert, n + 1)
    ensures state.suggestions == SuggestionMap(path, lines, convert, n + 1)
    ensures forall l :: l in state.PrintedIn(path) ==> l <= n + 1
    ensures fs.files == old(fs.files)[path := ProcessedUpTo(lines, convert, n + 1)]
  {
    var line := lines[n];
    SuggestionsStep(path, lines, convert, n);
    FilesStep(fs.files, path, lines, convert, n);
    assert fs.HasLine(path, n + 1) && n + 1 !in state.PrintedIn(path);
    var ok := state.ProcessLine(fs, path, n + 1, line, convert);
    assert ok;
  }

  /** The line tasks of one scan, run one after another in line order. */
  method ProcessAllLines(fs: FileSystem, state: ScanState, path: string, lines: seq<string>, convert: Oracle)
    requires path in fs.files && fs.files[path] == lines
    requires state.results == [] && state.suggestions == map[] && state.printedLines == map[]
    modifies fs, state
    ensures state.results == Registered(path, lines, convert, |lines|)
    ensures state.suggestions == SuggestionMap(path, lines, convert, |lines|)
    ensures fs.files == old(fs.files)[path := ProcessedUpTo(lines, convert, |lines|)]
  {
    var n := 0;
    assert ProcessedUpTo(lines, convert, 0) == lines;
    while n < |lines|
      invariant n <= |lines|
      invariant state.results == Registered(path, lines, convert, n)
      invariant state.suggestions == SuggestionMap(path, lines, convert, n)
      invariant forall l :: l in state.PrintedIn(path) ==> l <= n
      invariant fs.files == old(fs.files)[path := ProcessedUpTo(lines, convert, n)]
    {
      LineTask(fs, state, path, lines, convert, n);
      n := n + 1;
    }
  }

  /** A registered key is in the suggestion map with its line's whole, non-empty suggestion set. */
  lemma RegisteredLookup(path: string, lines: seq<string>, convert: Oracle, j: nat)
    requires j < |Registered(path, lines, convert, |lines|)|
    ensures var key := Registered(path, lines, convert, |lines|)[j];
      key in SuggestionMap(path, lines, convert, |lines|) &&
      SuggestionMap(path, lines, convert, |lines|)[key] == SuggestionsUpTo(key.content, convert, |key.content|) &&
      SuggestionsUpTo(key.content, convert, |key.content|) != {}
  {
    var key := Registered(path, lines, convert, |lines|)[j];
    RegisteredShape(path, lines, convert, |lines|);
    SuggestionMapShape(path, lines, convert, |lines|);
    SuggestionsUpToSize(key.content, convert, |key.content|);
  }

  /**
   Any sequence holding each member of a line's suggestion set once, in
   non-decreasing columns, is the line's column-ordered list.
   */
  lemma SortedIsSuggestionList(line: string, convert: Oracle, r: seq<Suggestion>)
    requires forall x :: x in r <==> x in SuggestionsUpTo(line, convert, |line|)
    requires |r| == |SuggestionsUpTo(line, convert, |line|)|
    requires forall i, j :: 0 <= i < j < |r| ==> r[i].index <= r[j].index
    requires forall i, j :: 0 <= i < j < |r| ==> r[i] != r[j]
    ensures r == SuggestionList(line, convert, |line|)
  {
    SuggestionsUpToColumns(line, convert, |line|);
    SuggestionsUpToSize(line, convert, |line|);
    SuggestionListOrdered(line, convert, |line|);
    assert StrictlyByColumn(r) by {
      forall i, j | 0 <= i < j < |r|
        ensures r[i].index < r[j].index
      {
        assert r[i] in SuggestionsUpTo(line, convert, |line|);
        assert r[j] in SuggestionsUpTo(line, convert, |line|);
      }
    }
    StrictlyByColumnUnique(r, SuggestionList(line, convert, |line|));
  }

  /**
   The report: for each registered key in registration order, its suggestion
   set sorted by column.
   */
  method BuildReport(path: string, lines: seq<string>, convert: Oracle,
                     results: seq<ResultKey>, suggestions: map<ResultKey, set<Suggestion>>)
    returns (report: seq<ReportEntry>)
    requires results == Registered(path, lines, convert, |lines|)
    requires suggestions == SuggestionMap(path, lines, convert, |lines|)
    ensures report == Report(results, convert)
  {
    report := [];
    var j := 0;
    while j < |results|
      invariant j <= |results|
      invariant report == Report(results[..j], convert)
    {
      var key := results[j];
      RegisteredLookup(path, lines, convert, j);
      var forLine := if key in suggestions then suggestions[key] else {};
      if forLine != {} {
        var sorted := SortByColumn(forLine);
        SortedIsSuggestionList(key.content, convert, sorted);
        report := report + [ReportEntry(key, sorted)];
      }
      assert results[..j + 1][..j] == results[..j];
      j := j + 1;
    }
    assert results[..|results|] == results;
  }

  /**
   The four counters: the total size of the suggestion sets, the number of
   distinct files among the registered keys, and the two modified counters
   derived from the total.
   */
  method DeriveCounts(path: string, lines: seq<string>, convert: Oracle,
                      results: seq<ResultKey>, suggestions: map<ResultKey, set<Suggestion>>)
    returns (counts: Counts)
    requires HasSimplifiedChinese(Concat(lines))
    requires results == Registered(path, lines, convert, |lines|)
    requires suggestions == SuggestionMap(path, lines, convert, |lines|)
    ensures counts == ScanCounts(lines, convert)
  {
    var totalChars := TotalChars(suggestions);
    SuggestionMapTotal(path, lines, convert, |lines|);
    RegisteredShape(path, lines, convert, |lines|);
    var totalFiles := |set k | k in results :: k.path|;
    if results != [] {
      assert results[0].path == path;
      assert (set k | k in results :: k.path) == {path};
    } else {
      assert (set k | k in results :: k.path) == {};
    }
    var totalCharsModified := if totalChars > 0 then totalChars else 0;
    var totalFilesModified := if totalChars > 0 then 1 else 0;
    counts := Counts(totalChars, totalFiles, totalCharsModified, totalFilesModified);
  }

  /**
   Scan one file: when it holds no CJK ideograph return zeros and write
   nothing; otherwise process every line in order, then build the report of
   the registered lines with their suggestions in column order and derive the
   four counters. The source builds that report and discards it; it is
   returned here only so that its contents can be stated.
   */
  method FindInFile(fs: FileSystem, path: string, convert: Oracle) returns (counts: Counts, report: seq<ReportEntry>)
    requires path in fs.files
    modifies fs
    ensures fs.files == old(fs.files)[path := ScannedLines(old(fs.files[path]), convert)]
    ensures counts == ScanCounts(old(fs.files[path]), convert)
    ensures report == ScanReport(path, old(fs.files[path]), convert)
  {
    var lines := fs.files[path];
    var content := Concat(lines);
    if !HasSimplifiedChinese(content) {
      assert fs.files == fs.files[path := lines];
      return Zero(), [];
    }
    var state := new ScanState();
    ProcessAllLines(fs, state, path, lines, convert);
    report := BuildReport(path, lines, convert, state.results, state.suggestions);
    counts := DeriveCounts(path, lines, convert, state.results, state.suggestions);
  }
}
