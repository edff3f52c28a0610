/**
 The directory aggregator: select the walked paths by a case-insensitive
 suffix test, scan each selected file and sum the four counters.
 */
module Directory {
  import opened Chars
  import opened Processor
  import opened Scanner

  /** ASCII lower-casing of one character: an upper-case letter becomes its lower-case letter. */
  function LowerChar(c: char): (r: char)
    ensures 'A' <= c <= 'Z' ==> 'a' <= r <= 'z' && r as int == c as int + 32
    ensures !('A' <= c <= 'Z') ==> r == c
  {
    if 'A' <= c <= 'Z' then (c as int + 32) as char else c
  }

  /** ASCII lower-casing of a path: same length, no upper-case letter left. */
  function Lower(s: string): (r: string)
    ensures |r| == |s|
    ensures forall i :: 0 <= i < |r| ==> r[i] == LowerChar(s[i]) && !('A' <= r[i] <= 'Z')
  {
    seq(|s|, i requires 0 <= i < |s| => LowerChar(s[i]))
  }

  /** The text ends with the suffix: it is some prefix followed by the suffix. */
  predicate EndsWith(s: string, suffix: string): (r: bool)
    ensures r <==> exists p: string :: s == p + suffix
  {
    if |suffix| <= |s| && s[|s| - |suffix|..] == suffix then
      assert s == s[..|s| - |suffix|] + suffix;
      true
    else
      assert forall p: string :: s == p + suffix ==> (p + suffix)[|p|..] == suffix;
      false
  }

  /**
   A path is scanned iff its lower-cased form ends with one of the listed
   suffixes; the suffixes themselves are compared as given.
   */
  function Selected(path: string, fileTypes: seq<string>): (r: bool)
    ensures r <==> exists i :: 0 <= i < |fileTypes| && EndsWith(Lower(path), fileTypes[i])
  {
    if fileTypes == [] then false
    else
      var rest := Selected(path, fileTypes[1..]);
      assert forall i :: 1 <= i < |fileTypes| ==> fileTypes[1..][i - 1] == fileTypes[i];
      EndsWith(Lower(path), fileTypes[0]) || rest
  }

  /** The selection lower-cases the path and not the suffix. */
  lemma SelectedCaseExample()
    ensures Selected("A.VUE", [".vue"])
    ensures !Selected("a.vue", [".VUE"])
  {
    assert Lower("A.VUE") == "a.vue";
    assert Lower("a.vue") == "a.vue";
    assert !EndsWith("a.vue", ".VUE") by {
      assert "a.vue"[1..] == ".vue";
    }
  }

  /** The counters summed over the selected paths, in walk order. */
  function DirectoryTotals(paths: seq<string>, fileTypes: seq<string>, files: map<string, seq<string>>,
                           convert: Oracle): Counts
    requires forall p :: p in paths ==> p in files
  {
    if paths == [] then Zero()
    else
      var p := paths[|paths| - 1];
      Add(DirectoryTotals(paths[..|paths| - 1], fileTypes, files, convert),
          if Selected(p, fileTypes) then ScanCounts(files[p], convert) else Zero())
  }

  /**
   Counters whose modified parts equal the found ones, that count at most
   bound files, and that count a file exactly when they count a character.
   */
  predicate Balanced(r: Counts, bound: nat)
  {
    r.totalCharsModified == r.totalChars && r.totalFilesModified == r.totalFiles &&
    r.totalFiles <= bound && (r.totalFiles == 0 <==> r.totalChars == 0)
  }

  /** Adding the counters of one more path keeps a sum balanced. */
  lemma AddBalanced(a: Counts, b: Counts, bound: nat)
    requires Balanced(a, bound) && Balanced(b, 1)
    ensures Balanced(Add(a, b), bound + 1)
  {
  }

  /**
   Directory totals keep the modified counters equal to the found ones,
   count at most one file per selected path, and count a file exactly when
   some character was found.
   */
  lemma {:induction false} DirectoryTotalsConsistent(paths: seq<string>, fileTypes: seq<string>,
                                                     files: map<string, seq<string>>, convert: Oracle)
    requires forall p :: p in paths ==> p in files
    ensures Balanced(DirectoryTotals(paths, fileTypes, files, convert), |paths|)
  {
    if paths != [] {
      var p := paths[|paths| - 1];
      var init := paths[..|paths| - 1];
      assert forall q :: q in init ==> q in paths;
      DirectoryTotalsConsistent(init, fileTypes, files, convert);
      if Selected(p, fileTypes) {
        ScanCountsConsistent(files[p], convert);
        AddBalanced(DirectoryTotals(init, fileTypes, files, convert), ScanCounts(files[p], convert), |init|);
      } else {
        AddBalanced(DirectoryTotals(init, fileTypes, files, convert), Zero(), |init|);
      }
    }
  }

  /** The files after scanning the selected paths, in walk order. */
  function DirectoryFiles(paths: seq<string>, fileTypes: seq<string>, files: map<string, seq<string>>,
                          convert: Oracle): map<string, seq<string>>
    requires forall p :: p in paths ==> p in files
  {
    if paths == [] then files
    else
      var p := paths[|paths| - 1];
      var before := DirectoryFiles(paths[..|paths| - 1], fileTypes, files, convert);
      if Selected(p, fileTypes) then before[p := ScannedLines(files[p], convert)] else before
  }

  /**
   Scanning distinct paths rewrites each selected file once, as a scan of its
   original text rewrites it, and leaves every other file as it was.
   */
  lemma {:induction false} DirectoryFilesShape(paths: seq<string>, fileTypes: seq<string>,
                                               files: map<string, seq<string>>, convert: Oracle)
    requires forall p :: p in paths ==> p in files
    ensures DirectoryFiles(paths, fileTypes, files, convert).Keys == files.Keys
    ensures forall p :: p in files ==> (DirectoryFiles(paths, fileTypes, files, convert)[p] ==
      if p in paths && Selected(p, fileTypes) then ScannedLines(files[p], convert) else files[p])
  {
    if paths != [] {
      var init := paths[..|paths| - 1];
      assert forall q :: q in init ==> q in paths;
      assert forall q :: q in paths <==> q in init || q == paths[|paths| - 1];
      DirectoryFilesShape(init, fileTypes, files, convert);
    }
  }

  /** One more path: the totals add its counters and the files its rewrite, when it is selected. */
  lemma DirectoryStep(paths: seq<string>, fileTypes: seq<string>, files: map<string, seq<string>>,
                      convert: Oracle, i: nat)
    requires i < |paths|
    requires forall p :: p in paths ==> p in files
    requires forall a, b :: 0 <= a < b < |paths| ==> paths[a] != paths[b]
    ensures forall p :: p in paths[..i] ==> p in files
    ensures forall p :: p in paths[..i + 1] ==> p in files
    ensures var before := DirectoryFiles(paths[..i], fileTypes, files, convert);
      paths[i] in before && before[paths[i]] == files[paths[i]]
    ensures DirectoryTotals(paths[..i + 1], fileTypes, files, convert)
      == Add(DirectoryTotals(paths[..i], fileTypes, files, convert),
             if Selected(paths[i], fileTypes) then ScanCounts(files[paths[i]], convert) else Zero())
    ensures var before := DirectoryFiles(paths[..i], fileTypes, files, convert);
      DirectoryFiles(paths[..i + 1], fileTypes, files, convert)
        == if Selected(paths[i], fileTypes) then before[paths[i] := ScannedLines(files[paths[i]], convert)] else before
  {
    assert forall p :: p in paths[..i + 1] ==> p in paths;
    assert forall p :: p in paths[..i] ==> p in paths;
    assert paths[..i + 1][..i] == paths[..i];
    assert paths[i] !in paths[..i];
    DirectoryFilesShape(paths[..i], fileTypes, files, convert);
  }

  /**
   Visit path i of the walk: scan it when it is selected. Its counters are
   returned (zeros when it is not selected) and only its file is rewritten.
   */
  method VisitPath(fs: FileSystem, paths: seq<string>, fileTypes: seq<string>, convert: Oracle,
                   ghost files0: map<string, seq<string>>, i: nat)
    returns (counts: Counts)
    requires i < |paths|
    requires forall p :: p in paths ==> p in files0
    requires forall a, b :: 0 <= a < b < |paths| ==> paths[a] != paths[b]
    requires forall p :: p in paths[..i] ==> p in files0
    requires fs.files == DirectoryFiles(paths[..i], fileTypes, files0, convert)
    modifies fs
    ensures forall p :: p in paths[..i + 1] ==> p in files0
    ensures fs.files == DirectoryFiles(paths[..i + 1], fileTypes, files0, convert)
    ensures DirectoryTotals(paths[..i + 1], fileTypes, files0, convert)
      == Add(DirectoryTotals(paths[..i], fileTypes, files0, convert), counts)
  {
    var filePath := paths[i];
    DirectoryStep(paths, fileTypes, files0, convert, i);
    if Selected(filePath, fileTypes) {
      var report;
      counts, report := FindInFile(fs, filePath, convert);
    } else {
      counts := Zero();
    }
  }

  /**
   Scan every selected path in walk order and return the summed counters.
   Each selected file is rewritten as its own scan rewrites it; every other
   file is left as it was.
   */
  method FindInDirectory(fs: FileSystem, paths: seq<string>, fileTypes: seq<string>, convert: Oracle)
    returns (totals: Counts)
    requires forall p :: p in paths ==> p in fs.files
    requires forall i, j :: 0 <= i < j < |paths| ==> paths[i] != paths[j]
    modifies fs
    ensures totals == DirectoryTotals(paths, fileTypes, old(fs.files), convert)
    ensures fs.files.Keys == old(fs.files).Keys
    ensures forall p :: p in old(fs.files) ==> (fs.files[p] ==
      if p in paths && Selected(p, fileTypes) then ScannedLines(old(fs.files)[p], convert) else old(fs.files)[p])
  {
    var totalChars: nat, totalFiles: nat, totalCharsModified: nat, totalFilesModified: nat := 0, 0, 0, 0;
    var i := 0;
    while i < |paths|
      invariant i <= |paths|
      invariant forall p :: p in paths[..i] ==> p in old(fs.files)
      invariant Counts(totalChars, totalFiles, totalCharsModified, totalFilesModified)
        == DirectoryTotals(paths[..i], fileTypes, old(fs.files), convert)
      invariant fs.files == DirectoryFiles(paths[..i], fileTypes, old(fs.files), convert)
    {
      var counts := VisitPath(fs, paths, fileTypes, convert, old(fs.files), i);
      totalChars := totalChars + counts.totalChars;
      totalFiles := totalFiles + counts.totalFiles;
      totalCharsModified := totalCharsModified + counts.totalCharsModified;
      totalFilesModified := totalFilesModified + counts.totalFilesModified;
      i := i + 1;
    }
    assert paths[..|paths|] == paths;
    DirectoryFilesShape(paths, fileTypes, old(fs.files), convert);
    totals := Counts(totalChars, totalFiles, totalCharsModified, totalFilesModified);
  }
}
