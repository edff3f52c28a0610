# Simplified-to-traditional converter, modelled in Dafny

The script `fanti1.083.py` walks a directory and selects files by suffix. It converts
simplified Chinese characters to traditional ones, character by character, and rewrites
each file in place. It counts the characters and files that needed a change and that
were changed, and prints the directory totals. For each changed line it also formats a
line of text with the suggested replacements in column order. It collects these lines in
an ordered dictionary, and then neither prints nor returns them.

This project models the sequential core of that script:

- `Chars` (`chars.dfy`) covers the CJK presence check (U+4E00..U+9FA5), the per-character test
  `convert(c) != c` and the records the scan produces.
  - The conversion library is the parameter `convert: char -> string`.
  - The lemmas that need a one-character oracle assume it with `SingleChar`.
  - Idempotence, where needed, is assumed with `Idempotent`.
- `Lines` (`lines.dfy`) says on values what processing one line means:
  - the qualifying columns;
  - the suggestion set and its column-ordered list;
  - the text the line has on disk after each qualifying column has been spliced in, in order.

  The splice clamps its slice bounds the way string slicing does. Because of that, the model
  also says what happens with an oracle that returns longer strings: the columns drift.
- `Processor` (`processor.dfy`) has two classes:
  - `FileSystem`: the files as maps from path to lines. `RewriteChar` is the locked
    read-modify-write of one character.
  - `ScanState`: the scan's shared `results` list, the `suggestions` map and the
    `printed_lines` map. `ProcessLine` loops over a line's characters exactly as
    `process_line` does.

  A missing file or line makes the first write of the line fail. In the source this raises
  and leaves the loop. In the model `ok` comes back false: the key and that one suggestion are
  already recorded, and nothing is written.
- `Scanner` (`scanner.dfy`) is the file scan:
  - the short-circuit to zeros;
  - the lines processed one after another in line order;
  - the report the source builds and discards, with each registered line's suggestion set sorted by column;
  - the four counters, derived as the source derives them: the sum of the suggestion-set
    sizes over the map, and the number of distinct paths among the keys.

  Each of these is proved equal to an independent definition on the initial lines
  (`ScannedLines`, `ScanReport`, `ScanCounts`).
- `Directory` (`directory.dfy`) is the suffix filter on the lower-cased path and the summing
  of the four counters over the selected files, in walk order.

The concurrent fan-out of `find_non_traditional_chinese_characters_in_file` is modelled as
running the line tasks one after another, in line order. Every task writes only its own
line, and with a one-character oracle every write keeps the line's length. So this
ordering gives the same final file and the same counters as any interleaving of the
serialised writes.

## Model

| member | source | states |
|---|---|---|
| `Chars.HasSimplifiedChinese` | fanti1.083.py:12-14 | true iff some character of the text lies in U+4E00..U+9FA5 |
| `Chars.HasSimplifiedInLines` | fanti1.083.py:45-49 | the presence check on the whole text fires iff some line holds such a character |
| `Chars.NeedsConversion` | fanti1.083.py:17-19 | A character qualifies exactly when its conversion is not the one-character string holding that same character. |
| `Chars.NeedsConversionSingle` | fanti1.083.py:17-19 | For an oracle that always returns one character, a character qualifies exactly when that character differs from it, and a character that does not qualify converts to itself. |
| `Lines.Splice` | fanti1.083.py:37 | `line[:index] + s + line[index+1:]`: a column inside the line is replaced by `s` with prefix and suffix kept; past the end `s` is appended |
| `Lines.CountQualifying` | fanti1.083.py:23-24 | Definition: how many of the first k characters satisfy `convert(c) != c`. |
| `Lines.SuggestionsUpTo` | fanti1.083.py:30-31 | Definition: the set of pairs `(convert(c), i)` that the first k characters add to the key's set. |
| `Lines.SuggestionList` | fanti1.083.py:77-79 | Definition: the same pairs as a sequence, in ascending column order. |
| `Lines.ConvertedLine` | fanti1.083.py:22-41 | Definition: a line after processing, when the disk still held its original text. |
| `Lines.SpliceSingle` | fanti1.083.py:35-38 | a one-character replacement keeps the line length, puts the suggestion at the column and leaves every other column as it was |
| `Lines.FirstQualifying` | fanti1.083.py:23-24 | the first column whose character qualifies (the line length when none does): no earlier column qualifies |
| `Lines.CountQualifyingZero` | fanti1.083.py:23-24 | a prefix has no qualifying column iff none of its characters satisfies `convert(c) != c` |
| `Lines.CountQualifyingPositive` | fanti1.083.py:23-27 | a prefix holds a qualifying column iff the first qualifying column lies inside it |
| `Lines.FirstQualifyingIs` | fanti1.083.py:23-24 | a qualifying column with no qualifying column before it is the first one, and then the line has a qualifying character |
| `Lines.SuggestionsUpToMembers` | fanti1.083.py:23-31 | a line's suggestion set is exactly the pairs `(convert(c), i)` over the qualifying columns `i` |
| `Lines.SuggestionsUpToSize` | fanti1.083.py:30-31 | the suggestion set has as many members as the line has qualifying characters |
| `Lines.SuggestionsUpToColumns` | fanti1.083.py:31 | no two members of a line's suggestion set share a column |
| `Lines.SuggestionListOrdered` | fanti1.083.py:77-79 | the column-ordered list has exactly the members of the set, in strictly ascending columns, one per qualifying character |
| `Lines.StrictlyByColumnUnique` | fanti1.083.py:78 | two strictly column-ordered sequences of one length with the same members are equal, so sorting a line's set by column has one result |
| `Lines.RewriteNoQualifying` | fanti1.083.py:22-41 | a line without a qualifying character is not written |
| `Lines.Rewrite` | fanti1.083.py:34-38 | Definition: the disk line after the splices, in column order, of every qualifying column among the first k, each spliced into the line as the earlier splices left it. |
| `Lines.RewriteLength` | fanti1.083.py:37 | with a one-character oracle the splices keep the disk line's length |
| `Lines.RewriteAt` | fanti1.083.py:23-38 | with a one-character oracle a column holds its conversion once it has been spliced, and its old character otherwise |
| `Lines.RewritePointwise` | fanti1.083.py:22-41 | with a one-character oracle the splices of one line never drift: each qualifying column holds its conversion, every other column is untouched, the length is kept |
| `Lines.ConvertedLinePointwise` | fanti1.083.py:22-41 | a processed line keeps its length; its qualifying characters become their conversions and the others stay |
| `Lines.ConvertedLineUnchanged` | fanti1.083.py:22-41 | a line with nothing to convert is written back unchanged, whatever the oracle returns |
| `Lines.ConvertedLineClean` | fanti1.083.py:17-19 | with an idempotent one-character oracle a processed line has no qualifying character left |
| `Processor.FileSystem.RewriteChar` | fanti1.083.py:33-41 | the read-modify-write replaces only line `line_num - 1` of the file by its splice; it fails, writing nothing, when the file or the line does not exist |
| `Processor.FileSystem.HasLine` | fanti1.083.py:34-36 | Definition: the file exists and has a line with this 1-based number, which is when opening it and indexing `lines[line_num - 1]` do not raise. |
| `Processor.FilesAfter` | fanti1.083.py:33-41 | Definition: the file map after the first k characters of a line have been processed, with the line rewritten only when one of them qualifies and the line exists. |
| `Processor.SuggestionsAfter` | fanti1.083.py:30-31 | Definition: the suggestion map after the first k characters of a line, the key's set grown by their suggestions only when one of them qualifies. |
| `Processor.FilesAfterStep` | fanti1.083.py:34-38 | a qualifying character splices its conversion into the line as the disk holds it after the earlier columns |
| `Processor.SuggestionsAfterStep` | fanti1.083.py:30-31 | a qualifying character adds `(convert(c), index)` to its key's set |
| `Processor.ScanState.constructor` | fanti1.083.py:55-57 | a scan starts with no results, no suggestions and no registered lines |
| `Processor.ScanState.Record` | fanti1.083.py:25-31 | one qualifying character appends the key only when its line number is not yet registered, registers the line number, and adds `(suggestion, index)` to the key's set |
| `Processor.ScanState.ProcessLine` | fanti1.083.py:22-41 | the key (path, line number, text before any rewrite) is appended once, only if some character qualifies and the line was not registered before; the line number is registered; the set grows by the line's suggestions (by the first one only when the write fails); the disk line becomes the ordered splice of every qualifying column, and nothing else changes |
| `Scanner.SumSizesRemove` | fanti1.083.py:83 | the sum of the set sizes does not depend on the order in which the keys are taken |
| `Scanner.SumSizesInsert` | fanti1.083.py:83 | adding a new key adds the size of its set to the sum |
| `Scanner.SumSizes` | fanti1.083.py:83 | Definition: the total size of the suggestion sets over all keys of the map. |
| `Scanner.TotalQualifying` | fanti1.083.py:83 | Definition: the number of qualifying characters in the first n lines. |
| `Scanner.Registered` | fanti1.083.py:24-29 | Definition: the keys the first n line tasks append, in line order: one per line with a qualifying character. |
| `Scanner.SuggestionMap` | fanti1.083.py:26-31 | Definition: the suggestion map after the first n line tasks, each registered key mapped to its line's whole set. |
| `Scanner.ProcessedUpTo` | fanti1.083.py:60-63 | Definition: the file with its first n lines processed and the rest untouched, with as many lines as before. |
| `Scanner.Report` | fanti1.083.py:73-81 | Definition: one entry per key, in the given order, holding the key and its line's column-ordered suggestion list. |
| `Scanner.ScannedLines` | fanti1.083.py:44-70 | The scanned file has as many lines as before and is the original when the presence check fails; otherwise every line is processed from its original text. |
| `Scanner.ScanCounts` | fanti1.083.py:48-50 | Definition: zeros when the presence check fails, otherwise (total, 1 if total > 0 else 0, total, 1 if total > 0 else 0) over the file's qualifying characters. |
| `Scanner.ScanReport` | fanti1.083.py:72-81 | Definition: no entries when the presence check fails, otherwise one entry per registered line in line order, with its suggestions in column order. |
| `Scanner.RegisteredShape` | fanti1.083.py:24-29 | every registered key names the file, a line with a qualifying character and that line's original text; line numbers strictly increase, so no line is registered twice; some key is registered iff some character qualifies |
| `Scanner.SuggestionMapShape` | fanti1.083.py:26-31 | the suggestion map is keyed by exactly the registered keys, each mapped to the whole suggestion set of its line |
| `Scanner.SuggestionMapTotal` | fanti1.083.py:83 | the suggestion sets together have one member per qualifying character of the file |
| `Scanner.ScanCountsConsistent` | fanti1.083.py:83-86 | the modified counters equal the found ones; the file counter is 1 iff some character was found and at most 1; without a CJK ideograph all four are 0 |
| `Scanner.TotalQualifyingZero` | fanti1.083.py:83 | a file whose lines have no qualifying character has a total of 0 |
| `Scanner.ScannedLinesPointwise` | fanti1.083.py:60-63 | after a scan with a one-character oracle the line count and every line length are kept; a character changes iff the presence check fired and it qualifies, and then it becomes its conversion |
| `Scanner.ScanIdempotent` | fanti1.083.py:44-88 | with an idempotent one-character oracle, scanning a scanned file again returns (0,0,0,0) |
| `Scanner.ReportOrdered` | fanti1.083.py:73-81 | the report has one entry per key, in key order, and every entry lists exactly its line's suggestion set, in strictly ascending columns, one entry per qualifying character |
| `Scanner.MinColumnExists` | fanti1.083.py:78 | a non-empty suggestion set has a member with the smallest column |
| `Scanner.SortByColumn` | fanti1.083.py:78 | sorting a set by column returns every member exactly once, in non-decreasing columns |
| `Scanner.TotalChars` | fanti1.083.py:83 | the loop over the map returns the sum of the sizes of its suggestion sets |
| `Scanner.FilesStep` | fanti1.083.py:60-63 | processing line n + 1 turns the file with n lines processed into the file with n + 1 lines processed |
| `Scanner.SuggestionsStep` | fanti1.083.py:26-31 | processing line n + 1 adds its key, new to the map, with the line's whole suggestion set |
| `Scanner.LineTask` | fanti1.083.py:61-63 | the task of line n + 1, after lines 1 to n, keeps the registered keys, the suggestion map and the file equal to their definitions for n + 1 lines |
| `Scanner.ProcessAllLines` | fanti1.083.py:59-70 | running every line task in order registers exactly the lines with a qualifying character, builds their suggestion sets and rewrites every line |
| `Scanner.RegisteredLookup` | fanti1.083.py:74-77 | a registered key is in the suggestion map with its line's whole, non-empty suggestion set |
| `Scanner.SortedIsSuggestionList` | fanti1.083.py:77-78 | any sequence that holds each member of a line's set once, in non-decreasing columns, is the line's column-ordered list |
| `Scanner.BuildReport` | fanti1.083.py:72-81 | the report the source builds in `ordered_results` lists the registered keys in registration order, each with its suggestions in ascending columns |
| `Scanner.DeriveCounts` | fanti1.083.py:83-88 | the counters derived from the suggestion map and the distinct paths equal (total, 1 if total > 0 else 0, total, 1 if total > 0 else 0), where total is the number of qualifying characters |
| `Scanner.FindInFile` | fanti1.083.py:44-88 | without a CJK ideograph the scan returns zeros and nothing is written; otherwise the file becomes its processed lines, and the counters and the report, which the source discards, are those of the initial text |
| `Directory.Selected` | fanti1.083.py:101 | a path is scanned iff its lower-cased form ends with one of the listed suffixes, the suffixes compared as given |
| `Directory.SelectedCaseExample` | fanti1.083.py:101 | `A.VUE` is selected by `.vue`, but `a.vue` is not selected by `.VUE` |
| `Directory.LowerChar` | fanti1.083.py:101 | An ASCII upper-case letter becomes the lower-case letter 32 code points above it, and every other character is kept. |
| `Directory.Lower` | fanti1.083.py:101 | The lower-cased path has the same length, lower-cases each character, and holds no ASCII upper-case letter. |
| `Directory.EndsWith` | fanti1.083.py:101 | A text ends with a suffix exactly when it is some prefix followed by that suffix. |
| `Directory.DirectoryTotals` | fanti1.083.py:92-107 | Definition: the component-wise sum, in walk order, of the counters of the selected paths, starting from four zeros. |
| `Directory.DirectoryFiles` | fanti1.083.py:98-103 | Definition: the files after each selected path, in walk order, has been replaced by its scanned lines. |
| `Directory.DirectoryTotalsConsistent` | fanti1.083.py:104-107 | summed over a directory, the modified counters equal the found ones, at most one file is counted per path, and a file is counted iff a character is |
| `Directory.AddBalanced` | fanti1.083.py:104-107 | adding one file's counters to a balanced sum keeps it balanced, with one more file allowed |
| `Directory.DirectoryFilesShape` | fanti1.083.py:98-103 | scanning distinct paths rewrites each selected file once, as a scan of its own original text does, and leaves every other file as it was |
| `Directory.DirectoryStep` | fanti1.083.py:101-107 | one more path adds its counters, and its rewrite, only when it is selected, and its file has not been touched before |
| `Directory.VisitPath` | fanti1.083.py:100-107 | Visiting path i of the walk takes the files and the totals from their definitions over the first i paths to their definitions over the first i + 1; a path that is not selected adds zeros and writes nothing. |
| `Directory.FindInDirectory` | fanti1.083.py:91-108 | the totals are the component-wise sums of the per-file counters over exactly the selected paths; selected files are rewritten and every other file is unchanged |

## Left out

- The conversion library is the parameter `convert`. Its thread safety and internal tables are not modelled.
- The thread pool, `as_completed`, the lock and the per-task exception logging are left out. Line tasks run one after another, in line order.
  - A failed write is visible as `ProcessLine` returning false. In a scan this never happens, because every line number the scan passes exists.
- File I/O is modelled on an in-memory map from path to lines: `open`, `read`, `readlines`, `seek`, `writelines` and `truncate`.
  - Line terminators are not part of the lines. The lines written back are the lines read. An oracle whose output holds a line terminator would make the next `readlines` split that line and shift the line numbers of later tasks. An oracle that returns the empty string shortens the text on disk. A later splice at the line's end would then overwrite the terminator, which is still part of the line in the source, and join the line with the next one. The model keeps the line whole in both cases, and the conversion library does neither.
  - `splitlines` and `readlines` are assumed to give the same lines. Real files can split differently, for example at `\x0c` or `\u2028`.
  - Encoding errors and unreadable files are not modelled.
- The presence check runs on the lines one after another, not on the raw text. Line terminators are never CJK ideographs, so this gives the same answer.
- `os.walk` and `os.path.join` are not modelled. The walked paths come in as a sequence of distinct existing paths.
- The `processed_files` set and all printing are left out: the progress bar, the per-task exception message, "contains no simplified characters", the final totals and the list of processed files.
  - The directory function prints its totals. The model returns them instead.
- The report's entry order is line order in the model. In the source it is the order in which the worker threads first append to `results`, which depends on thread scheduling. `RegisteredShape`'s strictly increasing line numbers hold of the model only.
- Scanner.FindInFile: it returns the per-line report as a second result, which the source does not. In the source, lines 73-81 fill `ordered_results`, and then the function returns only the four counters. The model returns the report only so that its order and contents can be stated.
- The formatted report text and the line-number alignment are left out. A report entry is the key with its column-ordered suggestions.
  - The source's `OrderedDict` removes repeated keys. The model appends one entry per registered key, and registered keys never repeat (`RegisteredShape`).
- `str.lower` is modelled as ASCII lower-casing only.
- The `__main__` entry point and its hard-coded directory and suffix list are left out.
- Scanner.SortByColumn: it sorts by repeatedly taking a member with the smallest column.
  - The source's `sorted` is stable over the set's iteration order, which is not modelled. Ties are only possible between members with the same column.
  - Within one line's set no two members share a column (`SuggestionsUpToColumns`). So both sorts give the same list there.
- A failed write ends the rest of its line: the exception leaves the loop in `process_line`. It does not skip just one character, and the model follows the code here.
