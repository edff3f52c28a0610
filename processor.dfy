/**
 The per-line processor: the files it rewrites in place and the bookkeeping
 one file scan shares between its lines (the registered lines, the suggestion
 sets and the line numbers already registered).
 */
module Processor {
  import opened Chars
  import opened Lines

  /** The files on disk, each a sequence of lines (without their terminators). */
  class FileSystem {
    var files: map<string, seq<string>>

    constructor (initial: map<string, seq<string>>)
      ensures files == initial
    {
      files := initial;
    }

    /** The file exists and has a line with this 1-based number. */
    predicate HasLine(path: string, lineNum: nat)
      reads this
    {
      path in files && 1 <= lineNum <= |files[path]|
    }

    /**
     The locked read-modify-write of one character: read every line of the
     file, splice the suggestion into the line at the column, write every line
     back. A missing file or line raises in the source; here it returns false
     and writes nothing.
     */
    method RewriteChar(path: string, lineNum: nat, index: nat, suggestion: string) returns (ok: bool)
      requires lineNum >= 1
      modifies this
      ensures ok == old(HasLine(path, lineNum))
      ensures ok ==> files == old(files)[path := old(files[path])[lineNum - 1 :=
        Splice(old(files[path][lineNum - 1]), index, suggestion)]]
      ensures !ok ==> files == old(files)
    {
      if path !in files {
        return false;
      }
      var lines := files[path];
      if lineNum - 1 >= |lines| {
        return false;
      }
      var lineToModify := lines[lineNum - 1];
      lineToModify := Splice(lineToModify, index, suggestion);
      lines := lines[lineNum - 1 := lineToModify];
      files := files[path := lines];
      ok := true;
    }
  }

  /** The files once the first k characters of the line have been processed without a failed write. */
  function FilesAfter(files: map<string, seq<string>>, path: string, lineNum: nat, chars: string,
                      convert: Oracle, k: nat): map<string, seq<string>>
    requires k <= |chars|
  {
    if CountQualifying(chars, convert, k) > 0 && path in files && 1 <= lineNum <= |files[path]|
    then files[path := files[path][lineNum - 1 := Rewrite(files[path][lineNum - 1], chars, convert, k)]]
    else files
  }

  /** The suggestion map once the first k characters of the line have been processed. */
  function SuggestionsAfter(suggestions: map<ResultKey, set<Suggestion>>, key: ResultKey, before: set<Suggestion>,
                            convert: Oracle, k: nat): map<ResultKey, set<Suggestion>>
    requires k <= |key.content|
  {
    if CountQualifying(key.content, convert, k) > 0
    then suggestions[key := before + SuggestionsUpTo(key.content, convert, k)]
    else suggestions
  }

  /** A qualifying character splices its conversion into the line as the disk holds it so far. */
  lemma FilesAfterStep(files: map<string, seq<string>>, path: string, lineNum: nat, chars: string,
                       convert: Oracle, k: nat)
    requires k < |chars| && NeedsConversion(chars[k], convert)
    requires path in files && 1 <= lineNum <= |files[path]|
    ensures var cur := FilesAfter(files, path, lineNum, chars, convert, k);
      path in cur && lineNum <= |cur[path]| &&
      FilesAfter(files, path, lineNum, chars, convert, k + 1)
        == cur[path := cur[path][lineNum - 1 := Splice(cur[path][lineNum - 1], k, convert(chars[k]))]]
  {
    var line := files[path][lineNum - 1];
    if CountQualifying(chars, convert, k) == 0 {
      RewriteNoQualifying(line, chars, convert, k);
    }
    var done := Rewrite(line, chars, convert, k);
    assert files[path][lineNum - 1 := done][lineNum - 1 := Splice(done, k, convert(chars[k]))]
        == files[path][lineNum - 1 := Splice(done, k, convert(chars[k]))];
  }

  /** A qualifying character adds its suggestion to the key's set. */
  lemma SuggestionsAfterStep(suggestions: map<ResultKey, set<Suggestion>>, key: ResultKey, before: set<Suggestion>,
                             convert: Oracle, k: nat)
    requires k < |key.content| && NeedsConversion(key.content[k], convert)
    requires before == if key in suggestions then suggestions[key] else {}
    ensures var cur := SuggestionsAfter(suggestions, key, before, convert, k);
      (if key in cur then cur[key] else {}) == before + SuggestionsUpTo(key.content, convert, k)
    ensures SuggestionsAfter(suggestions, key, before, convert, k + 1)
      == suggestions[key := before + SuggestionsUpTo(key.content, convert, k) + {Suggestion(convert(key.content[k]), k)}]
  {
    var s := Suggestion(convert(key.content[k]), k);
    var upTo := SuggestionsUpTo(key.content, convert, k);
    assert SuggestionsUpTo(key.content, convert, k + 1) == upTo + {s};
    assert CountQualifying(key.content, convert, k + 1) > 0;
    assert SuggestionsAfter(suggestions, key, before, convert, k + 1) == suggestions[key := before + (upTo + {s})];
    assert before + upTo + {s} == before + (upTo + {s});
    if CountQualifying(key.content, convert, k) == 0 {
      SuggestionsUpToSize(key.content, convert, k);
      assert upTo == {};
      assert before + upTo == before;
    }
  }

  /** The state one file scan shares between its lines. */
  class ScanState {
    /** Registered lines, in registration order. */
    var results: seq<ResultKey>
    /** Suggestion set of each registered line. */
    var suggestions: map<ResultKey, set<Suggestion>>
    /** Line numbers already registered, per file. */
    var printedLines: map<string, set<nat>>

    constructor ()
      ensures results == [] && suggestions == map[] && printedLines == map[]
    {
      results, suggestions, printedLines := [], map[], map[];
    }

    /** The suggestion set of a key, empty when it has none yet. */
    function SuggestionsFor(key: ResultKey): set<Suggestion>
      reads this
    {
      if key in suggestions then suggestions[key] else {}
    }

    /** The line numbers of a file registered so far, empty when there are none. */
    function PrintedIn(path: string): set<nat>
      reads this
    {
      if path in printedLines then printedLines[path] else {}
    }

    /**
     Record one qualifying character: register the key unless its line number
     is already registered, and add the suggestion to the key's set.
     */
    method Record(key: ResultKey, index: nat, suggestion: string)
      modifies this
      ensures results == old(results) + (if key.lineNum !in old(PrintedIn(key.path)) then [key] else [])
      ensures printedLines == old(printedLines)[key.path := old(PrintedIn(key.path)) + {key.lineNum}]
      ensures suggestions == old(suggestions)[key := old(SuggestionsFor(key)) + {Suggestion(suggestion, index)}]
    {
      if key.lineNum !in PrintedIn(key.path) {
        results := results + [key];
        printedLines := printedLines[key.path := PrintedIn(key.path) + {key.lineNum}];
      } else {
        assert PrintedIn(key.path) + {key.lineNum} == PrintedIn(key.path);
      }
      suggestions := suggestions[key := SuggestionsFor(key) + {Suggestion(suggestion, index)}];
    }

    /**
     Process one line of a file. Every qualifying character registers the key
     (the file, the line number and the line's text as given, before any
     rewrite) unless the line number is already registered, adds its
     suggestion to the key's set and rewrites its column on disk. When the
     file or line is missing the first qualifying character's write fails and
     the line is abandoned: ok is false, that one suggestion is recorded and
     nothing is written.
     */
    method ProcessLine(fs: FileSystem, path: string, lineNum: nat, chars: string, convert: Oracle)
      returns (ok: bool)
      requires lineNum >= 1
      modifies this, fs
      ensures ok <==> CountQualifying(chars, convert, |chars|) == 0 || old(fs.HasLine(path, lineNum))
      ensures var found := CountQualifying(chars, convert, |chars|) > 0;
        results == old(results) + (if found && lineNum !in old(PrintedIn(path)) then [ResultKey(path, lineNum, chars)] else [])
      ensures var found := CountQualifying(chars, convert, |chars|) > 0;
        printedLines == if found then old(printedLines)[path := old(PrintedIn(path)) + {lineNum}]
                        else old(printedLines)
      ensures var stop := if ok then |chars| else FirstQualifying(chars, convert) + 1;
        var key := ResultKey(path, lineNum, chars);
        stop <= |chars| && suggestions == SuggestionsAfter(old(suggestions), key, old(SuggestionsFor(key)), convert, stop)
      ensures fs.files == if ok then FilesAfter(old(fs.files), path, lineNum, chars, convert, |chars|) else old(fs.files)
    {
      ghost var key := ResultKey(path, lineNum, chars);
      ghost var oldPrinted := PrintedIn(path);
      ghost var oldSuggestions := SuggestionsFor(key);
      ghost var results0, printed0, suggestions0 := results, printedLines, suggestions;
      ghost var files0, hasLine := fs.files, fs.HasLine(path, lineNum);
      ok := true;
      var index := 0;
      while index < |chars|
        invariant index <= |chars|
        invariant var found := CountQualifying(chars, convert, index) > 0;
          results == results0 + (if found && lineNum !in oldPrinted then [key] else [])
        invariant var found := CountQualifying(chars, convert, index) > 0;
          printedLines == if found then printed0[path := oldPrinted + {lineNum}] else printed0
        invariant suggestions == SuggestionsAfter(suggestions0, key, oldSuggestions, convert, index)
        invariant CountQualifying(chars, convert, index) > 0 ==> hasLine
        invariant fs.files == FilesAfter(files0, path, lineNum, chars, convert, index)
      {
        var c := chars[index];
        if NeedsConversion(c, convert) {
          var lineContent := chars;
          var k := ResultKey(path, lineNum, lineContent);
          var suggestion := convert(c);
          SuggestionsAfterStep(suggestions0, key, oldSuggestions, convert, index);
          Record(k, index, suggestion);
          var written := fs.RewriteChar(path, lineNum, index, suggestion);
          if !written {
            FirstQualifyingIs(chars, convert, index);
            ok := false;
            return;
          }
          FilesAfterStep(files0, path, lineNum, chars, convert, index);
        }
        index := index + 1;
      }
    }
  }
}
