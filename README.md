# Docket Socket — a model of the download pipeline in views.py

Docket Socket is a Django application. It downloads every document of a regulations.gov docket
for a GAO requester and writes one folder per requested category (primary documents, supporting
documents, public comments). It also writes an Excel directory with one row per downloaded
record, a concatenated HTML file of all comments and a log. It scans the folder with clamAV,
zips it and mails the requester. This project models the decision and string-shaping logic of
views.py. Every contact with the outside world is replaced by an input:

- **Registry responses.** A `Response<T>(remaining, body)` holds the successive
  `X-RateLimit-Remaining` values the registry returns for one URL, and the body of the response
  finally accepted.
- **World.** A `World` bundles the listing pages (by offset), the document details (by document
  ID) and the file downloads (by format URL). It also holds a `canWrite` predicate that stands
  for the disk.
- **Directories.** The directories already present before a run are a set of paths. The root
  folder's content after the record loop is a listing of `DirEntry` values.
- **Virus scan.** Only its outcome is modelled: the top-level file counts before and after, and
  the list of quarantined files.

The outer `try … except Exception` of `docket_socket` ends the run at the first exception.
Every exception the code can raise is therefore a `Fault`, and operations return
`Result<T> = Ok(T) | Err(Fault)`. `Stalled` stands for a run that never ends: the quota loop
waiting forever, or pagination requesting the same page forever. The latter happens exactly
when a page comes back empty while the list already holds `record_count` records.

Modules:

- **Text** — Python's `lower`, `strip`, `replace(p, "")`, `str(int)` and `int(str)` on ASCII text.
- **Json** — decoded JSON bodies, `getvalue`, `str()`, `int()`, the `not in {0, '0', ''}` test and
  what a `for` loop visits.
- **Faults** — the ways a run ends early.
- **Quota** — `check_quota_and_get` as a loop over the oracle's quota values. It returns the
  accepted position and the trace of requests and sleeps.
- **Workspace** — `makefolders`: the root folder's name, the per-category paths and the
  folder-exists failure.
- **FileNames** — the three regular-expression extractions of `dlfiles`, written out as searches:
  - the extension from `Content-Disposition`;
  - the lazy document-ID group;
  - the greedy attachment number.
- **Download** — `dlfiles` as a loop over format URLs. The extension and document ID carry over
  from earlier iterations. The attachment loop shared by `dlcontent` and `dlcomments` is here too.
- **Content** — `dlcontent` and `dlcomments`: the restricted and abstract branches, the
  triviality filter and the append-only comments document.
- **Links** — `getLinks`: links made relative to the run's root.
- **Records** — the three-way dispatch on document type, the sort by `documentId`, and the
  manifest row (columns 0–8, the date cell, the hyperlink cells).
- **DocketSocket** — the driver `docket_socket`:
  - the class `DocketRun` holds `list_of_records`, the sorted records, `row`, the manifest rows,
    `all_html_comments` and the last `document_ID`;
  - its methods are proved equal to specification functions (`SortedRecords`, `RowCells`,
    `Gathered`, `Filed`, `Requested`, `RecordStep`, `ProcessAll`);
  - the module also holds pruning of empty folders, the post-scan decision, the mails and the
    whole run (`Run` against `Outcome`).
- **Access** — the requester check in the `home` view.

Behaviour of the code that the model reproduces, and that the lemmas make explicit:

- **Abstract.** A document with a non-empty `abstract` always ends the run (`AbstractFails`).
  The log line's format string `%_abstract.html` is not a valid `%` format, so it raises after
  the abstract is written.
- **Restricted document.** A restricted document also ends the run (`RestrictedFails`):
  `file_links` is never bound.
- **Failed download of the main file.** It gives the list `["N/A"]`, which fails `getLinks`'s
  `isinstance(..., str)` assertion.
- **Trivial comments.** `getLinks` turns "See attached" into "". The manifest test for
  "See attached" therefore never holds, and trivial comments get `=HYPERLINK("")`
  (`TrivialCommentFiled`; `CommentTrivial` gives such a comment the link "See attached").
- **Stale names in dlfiles.** A header with no extension, or a URL with no document ID, reuses the
  value from an earlier file of the same batch (`StaleExtension`).
- **Pagination offsets.** Pagination always asks for offset 1000 first, so the records between a
  short first page and 1000 are never requested (`ShortFirstPage`). An empty page while the
  list already holds `record_count` records is requested again forever (`EmptyPageStalls`). A
  page that brings a shorter list up to exactly `record_count` makes the loop request that
  offset a second time, and the run can still pass the count check with duplicated records
  (`RepeatedOffset`).
- **Long docket IDs.** The manifest's worksheet is named `<docket ID> Directory`. xlsxwriter
  refuses names over 31 characters, so a docket ID over 21 characters ends the run after the
  listing is paged in (`LongDocketIdFails`).
- **Comments with every record withdrawn.** The comments file is written, then the log line
  names `document_ID`, which was never bound (`SavedComments`).
- **Rerun.** A second run of a multi-category request that includes primary documents fails:
  the `Primary_Documents` folder is created without `exist_ok` (`RerunWithPrimaryFails`).
- **Email check.** The check accepts any address ending in "gao.gov", such as "x@notgao.gov"
  (`AnyPrefixAccepted`).
- **Round trip of `getLinks`.** It recovers `rest` from `path + "/" + rest` only when `path` does
  not occur in `"/" + rest`. A path that reappears across the separator is deleted there too
  (`BoundaryMatters`).

## Model

| member | source | states |
|---|---|---|
| Text.Lower | views.py:65 | `lower()` keeps the length and lower-cases each character in place |
| Text.StripLeft | views.py:310 | the result is a suffix of the text, starts with no whitespace, and only whitespace was removed |
| Text.StripRight | views.py:310 | the result is a prefix of the text, ends with no whitespace, and only whitespace was removed |
| Text.DeleteAll | views.py:345 | `replace(path, "")` never lengthens the text |
| Text.ParseInt | views.py:473 | `int(s)` succeeds only on text that is not blank after stripping |
| Text.ParseDigits | views.py:473 | a digit string parses to its value |
| Text.ParseDecimal | views.py:473 | `int(str(n)) == n` for every count |
| Json.GetValue | views.py:180-194 | a missing key, or a key holding anything but an object, reads as ""; any other result is a value stored inside the key's object |
| Json.GetValueOtherKey | views.py:180-194 | changing any other entry of the object leaves the value read under the key unchanged |
| Json.GetValueOfField | views.py:180-194 | reading back a registry field `{"label": …, "value": v}` gives `v`, whatever its label |
| Json.IntOf | views.py:473 | numbers convert to themselves; `int()` fails only with a type error or a malformed string |
| Json.IntOfDecimal | views.py:473 | an attachment count sent as a decimal string converts to its value |
| Json.CountIsZero | views.py:277 | attachments are skipped only for a count that converts to 0 or is ""; a count converting to any other number is never skipped; the test raises only where `int()` also raises a TypeError |
| Json.PaddedZeroNotSkipped | views.py:277 | a count of two or more zeros, such as "00", converts to 0, yet the test does not skip its attachments |
| Json.Iterate | views.py:279 | a list is visited item by item; a string, character by character |
| Quota.CheckQuotaAndGet | views.py:156-178 | the accepted response is the first with positive quota, and every one before it had 0. A negative value fails the assertion. The trace holds one request and one 600 s sleep per 0, then the final request |
| Quota.ZeroThenRetry | views.py:172-174 | a response with quota 0 costs exactly one request and one 600 s backoff, then the same URL is requested again |
| Quota.AcceptedAtOnce | views.py:175-176 | a first response with quota left is accepted with no wait |
| Quota.ZeroThenPositive | views.py:166-176 | the rate-limited case: request, sleep 600, request again, accept |
| Workspace.Join | views.py:116 | joining a non-empty name never gives the empty path |
| Workspace.MakeFolders | views.py:112-139 | no category fails with the ValueError. Any other failure is the primary subfolder already existing in a multi-category run. Each category's path is non-empty exactly when requested. With one category, the root is that category's path |
| Workspace.SuffixTable | views.py:115-118 | the root-name suffixes: "" for all three categories, "_Primary_Supporting", "_Primary_Comments" and "_Supporting_Comments" for two |
| Workspace.SingleSuffixes | views.py:119-120 | the root-name suffixes for one category: "_Primary", "_Supporting", "_Comments" |
| Workspace.AllThreeCategories | views.py:115-116 | all three categories: root = docket number, with the three subfolders |
| Workspace.TwoCategories | views.py:117-118 | two categories: root `<docket>_Primary_Supporting` / `_Primary_Comments` / `_Supporting_Comments`, subfolders only for the two requested |
| Workspace.OneCategory | views.py:119-123 | one category: root `<docket>_<Type>`, which is that category's own path; the others are "" |
| Workspace.RerunWithPrimaryFails | views.py:130-131 | a multi-category request including primary fails when `Primary_Documents` already exists |
| Workspace.RootsDistinct | views.py:115-120 | different category selections never share a root folder |
| FileNames.LastDot | views.py:224 | the position found holds a '.' and no later character is a '.'; None means no '.' at all |
| FileNames.ExtractExtension | views.py:224 | an extension found matches `(\.[^.]+)"$` in the header |
| FileNames.ExtensionUnique | views.py:224 | a header that matches the pattern with group `e` yields exactly `e` |
| FileNames.HeaderRoundTrip | views.py:224 | writing an extension into a header and extracting it gives it back |
| FileNames.ExampleHeader | views.py:224 | `attachment; filename="OCC-2013-0003-0062-1.pdf"` yields ".pdf" |
| FileNames.LazyEnd | views.py:228 | the lazy `.*?\d&`: the first digit-then-'&' with no newline before it, or none |
| FileNames.SearchDocId | views.py:228 | `re.search`: the leftmost match start and its lazy end, or no match anywhere |
| FileNames.ExtractDocumentId | views.py:228 | an ID is found exactly when the pattern matches somewhere, and it ends in a digit |
| FileNames.DigitRunEnd | views.py:232 | the greedy `[0-9]+` stops at the first non-digit |
| FileNames.SearchAttach | views.py:232 | the leftmost `attachmentNumber=` followed by a digit, or none anywhere |
| FileNames.ExtractAttachmentNumber | views.py:232 | a number is found exactly when the pattern matches, and it is all digits |
| FileNames.NumSuffix | views.py:231-234 | `file_num` is "" or "_" followed by at least one digit |
| Download.Kept | views.py:220 | the number of entries dlfiles produces is at most the number of URLs |
| Download.Batch | views.py:211-244 | a completed batch has one entry per URL whose header is not the string 'None' |
| Download.DownloadFiles | views.py:196-244 | the loop over format URLs computes `Batch` from an empty carry |
| Download.BatchUnfold | views.py:212-243 | one iteration appends its entry before the rest of the batch |
| Download.LastDotOfExtension | views.py:224 | the last '.' of a name followed by an extension is the extension's own |
| Download.EntryShape | views.py:235-243 | an entry built from extracted names is "N/A" or starts with `PATH/` and ends in a real extension that holds the last '.' |
| Download.NextWellFormed | views.py:223-230 | the carried extension and document ID are always values the extractions produced |
| Download.BatchEntries | views.py:211-244 | every entry of a batch is "N/A" or a path under the folder ending in an extension, whatever the carried names |
| Download.BatchInOrder | views.py:211-244 | when every URL holds a document ID, every header an extension and every file can be written, entry k is the k-th URL's own `PATH/<ID><file_num><ext>`, in input order, one per URL |
| Download.StaleExtension | views.py:223-236 | a file whose header has no extension is saved under the extension of the previous file |
| Download.FirstWithoutExtension | views.py:223-243 | a first file with no extension and no earlier one to reuse gives "N/A" |
| Download.PrependAppend | views.py:240-243 | appending entries one after another is appending their concatenation |
| Download.ConcatAssoc | views.py:281 | extending the attachment links is associative, the first failure winning |
| Download.AttachmentFilesUnfold | views.py:279-281 | each attachment's batch is appended before the rest |
| Download.AttachmentFilesAppend | views.py:279-281 | the links of two runs of attachments are the links of the first followed by those of the second |
| Download.DownloadAttachments | views.py:275-281 | the attachment loop computes `Attachments`: nothing when the count is 0, '0' or ''; otherwise the batches in order |
| Content.DownloadContent | views.py:246-282 | dlcontent computes `ContentLinks` |
| Content.RestrictedFails | views.py:262-282 | a restricted document never completes |
| Content.AbstractFails | views.py:269-273 | a document with a non-empty abstract never completes |
| Content.ContentShape | views.py:262-282 | a completed dlcontent had no restriction and no abstract. Its link is the first file of its own batch, or the list ["N/A"]. Its attachments are those of the attachment loop |
| Content.FragmentFrame | views.py:308 | the fragment opens with the document ID as a heading and ends with the comment text |
| Content.Accumulated | views.py:310-311 | the comments document after a comment always has the old document as a prefix |
| Content.DownloadComment | views.py:284-326 | dlcomments computes `CommentResult` |
| Content.SeeAttachedIsTrivial | views.py:310-318 | the link "See attached" is itself trivial when checked again |
| Content.CommentTrivial | views.py:310-325 | a trivial comment leaves the document unchanged, links to "See attached" and still fetches attachments |
| Content.CommentAppends | views.py:308-325 | any other comment makes the document exactly `old + "\n" + fragment`, where the fragment is the comment's heading, title, submitter, organization and text, so the old one is a prefix. The result ends with the comment, links to `PATH/<ID>.html` and fetches attachments |
| Links.GetLinks | views.py:328-348 | fails exactly on a list-valued link; otherwise keeps the number of attachments |
| Links.GetLinksMapsEach | views.py:342-347 | "See attached" becomes ""; any other link and every attachment, in order, is relativised |
| Links.DeleteAbsent | views.py:345 | `replace` of a pattern that does not occur changes nothing |
| Links.RoundTrip | views.py:345 | `path + "/" + getLinks(path + "/" + rest)` is the link again when `path` does not occur in "/" + rest |
| Links.BoundaryMatters | views.py:345 | with path "/a" and rest "ab", the link comes back as "", not "ab" |
| Links.NotAvailableLink | views.py:345 | "N/A" becomes "/A" |
| Records.Dispatch | views.py:436-450 | the type test raises exactly when primary is requested and the type is unhashable |
| Records.DispatchExclusive | views.py:436-454 | the three conditions are pairwise exclusive, each branch is taken exactly when its condition holds, and a row is written exactly when one holds |
| Records.Summaries | views.py:402-430 | each listed record is an object with its `documentId`, in order |
| Records.BelowTotal | views.py:402 | the string order on IDs is total |
| Records.BelowTrans | views.py:402 | the string order on IDs is transitive |
| Records.BelowAntisymmetric | views.py:402 | the string order on IDs is antisymmetric |
| Records.BelowReflexive | views.py:402 | the string order on IDs is reflexive |
| Records.Insert | views.py:402 | insertion adds exactly the one record |
| Records.SortById | views.py:402 | sorting is a permutation |
| Records.InsertSorted | views.py:402 | inserting into a sorted list keeps it sorted |
| Records.SortByIdSorted | views.py:402 | the sorted records are ascending by `documentId` and a permutation of the input |
| Records.SortedHead | views.py:402 | two sorted permutations with distinct IDs have the same first record |
| Records.SortedUnique | views.py:402 | with distinct IDs the sorted order is unique |
| Records.HeaderRow | views.py:405-415 | the header occupies columns 0–8 |
| Records.FirstT00 | views.py:463 | the first occurrence of "T00" from a position, or none after it |
| Records.LineStart | views.py:463 | the start of the line holding a position |
| Records.LineStartNoNewline | views.py:463 | on a single line the match starts at 0 |
| Records.BeforeT00 | views.py:463 | the group exists exactly when "T00" occurs, and holds no newline |
| Records.ParseYmd | views.py:465 | a parsed date is a real calendar date |
| Records.DateCell | views.py:458-468 | the date column is left out exactly for an empty `postedDate`; when written it is a date or "" |
| Records.DateChars | views.py:465 | a written-out date consists of digits and dashes |
| Records.PostedDate | views.py:458-466 | `YYYY-MM-DDT00…` gives the date cell for that day |
| Records.AttachmentCells | views.py:480-483 | attachment links occupy columns 8, 9, … one per attachment |
| Records.FixedCells | views.py:471-478 | the fixed cells are columns 0–5 and 7, plus 6 when a date is written |
| Records.RowKeys | views.py:458-483 | a row's columns are 0–5, 7, 6 when dated, and 8 onwards for the attachments |
| Records.RowLinkCells | views.py:475-483 | column 1 holds the link cell; column `8 + i` holds `=HYPERLINK("…")` of the i-th attachment |
| Records.TrivialCommentCell | views.py:475-478 | the link cell of an empty link is `=HYPERLINK("")`, not the text "See attached" |
| DocketSocket.Fetch | views.py:392-398 | the records already listed stay at the front, and a finished loop holds at least the total |
| DocketSocket.Listing | views.py:384-400 | a completed listing has exactly the positive total of records and starts with the first page's |
| DocketSocket.SortedListing | views.py:384-402 | the records visited are sorted ascending by ID, are exactly the records paged in, and number the total |
| DocketSocket.OnePage | views.py:392 | up to 1000 records no further page is requested |
| DocketSocket.ShortFirstPage | views.py:392-398 | the first extra page is at offset 1000 even after a short first page |
| DocketSocket.EmptyPageStalls | views.py:394-398 | an empty page while the length equals the offset is requested again forever |
| DocketSocket.RepeatedOffset | views.py:392-400 | 990 first-page records out of 1020: offset 1000 is requested twice, and the listing reaches 1020 entries with the first extra page duplicated |
| DocketSocket.RecordStep | views.py:424-427 | a withdrawn record changes nothing |
| DocketSocket.GatheredHtml | views.py:436-450 | whichever branch is taken, `all_html_comments` only grows at its end |
| DocketSocket.FiledRow | views.py:451-484 | filing a record appends exactly one row and advances `row` by one |
| DocketSocket.TrivialCommentFiled | views.py:344-478 | a record filed with the link "See attached", as a trivial comment is, gets exactly one new row whose link cell (column 1) is `=HYPERLINK("")`: getLinks empties the link, so the "See attached" test never holds |
| DocketSocket.RequestedRows | views.py:436-484 | a record whose category is known adds a row exactly when the category is requested |
| DocketSocket.RecordStepRows | views.py:424-484 | one record adds one row exactly when it is written, keeps the earlier rows, and only appends to the comments document |
| DocketSocket.ProcessAllRows | views.py:416-484 | over the loop, earlier rows stay and one row is added per record written. `row` numbers the rows consecutively under the header, and the comments document only grows at its end |
| DocketSocket.SavedComments | views.py:489-493 | the comments file holds the running document and is written only when comments were requested |
| DocketSocket.Survivors | views.py:496-499 | pruning never adds entries |
| DocketSocket.RemovedNames | views.py:496-499 | pruning removes no more entries than listed |
| DocketSocket.SurvivorsExactly | views.py:496-499 | an entry survives exactly when it is not an empty folder; each entry is kept or removed |
| DocketSocket.PruneEmpty | views.py:496-499 | the loop keeps `Survivors` and removes `RemovedNames`, in listing order |
| DocketSocket.ScanMails | views.py:514-519 | with nothing quarantined, fewer files after the scan is fatal. With quarantined files the requester and the operator are mailed and the run goes on |
| DocketSocket.CompletedRun | views.py:415-529 | a completed run has the header plus one row per record written, and ends with the completion mail. With quarantined files, the first mail went to the requester and the operator |
| DocketSocket.BaseNameAfterSlash | views.py:529 | the last component of a path is the name after its final '/' |
| DocketSocket.ArchiveName | views.py:529 | the completion mail names the archive after the root folder |
| DocketSocket.DocketRun.constructor | views.py:405-421 | the header row written, row 1, empty comments, nothing read yet |
| DocketSocket.DocketRun.Paginate | views.py:384-402 | the method computes `SortedRecords` and stores the paged listing and the sorted records |
| DocketSocket.DocketRun.WriteRow | views.py:455-484 | the row written column by column is `RowCells`, appended under the previous rows with `row` advanced |
| DocketSocket.DocketRun.Gather | views.py:436-450 | the branch taken computes `Gathered` and updates `all_html_comments` |
| DocketSocket.DocketRun.FileRow | views.py:438-484 | relativising the links and writing the row computes `Filed` |
| DocketSocket.DocketRun.AddRow | views.py:436-484 | the record's row once its category is known computes `Requested` |
| DocketSocket.DocketRun.ProcessRecord | views.py:424-484 | one turn of the record loop computes `RecordStep` and keeps the numbering |
| DocketSocket.DocketRun.ProcessRecords | views.py:424-484 | the record loop computes `ProcessAll` over the sorted records |
| DocketSocket.AttachmentCellsSnoc | views.py:480-483 | writing column `8 + i` extends the row by the next attachment link |
| DocketSocket.Run | views.py:369-529 | the whole run computes `Outcome` |
| DocketSocket.Start | views.py:378-407 | the run once the folders exist computes `Started`: the log file must be writable, then the listing is paged in and sorted, then the worksheet is added |
| DocketSocket.SheetTitleExactly | views.py:407 | the worksheet name is accepted exactly when the docket ID has at most 21 characters and none of `[]:*?/\` |
| DocketSocket.LongDocketIdFails | views.py:407 | a docket ID longer than 21 characters ends a run whose listing was paged in, before any record is processed |
| DocketSocket.Conclude | views.py:424-529 | the run from the sorted records computes `Finished`: the record loop, the comments file, pruning, the scan check and the mails |
| Access.LastSeven | views.py:65 | `email[-7:]` is the last seven characters, or the whole of a shorter address |
| Access.GaoEmailExactly | views.py:65 | the check holds exactly when the address has at least seven characters and the last seven, lower-cased, are "gao.gov" |
| Access.AnyPrefixAccepted | views.py:65 | any text followed by "gao.gov" passes, e.g. "x@notgao.gov" |
| Access.UpperCaseAccepted | views.py:65 | the case of the domain does not matter |
| Access.ShortRefused | views.py:65 | an address shorter than seven characters is refused |

## Left out

- I/O and services:
  - HTTP requests, JSON decoding, `time.sleep` and the wall clock (`dtime`) are inputs or steps in a trace.
  - Log-file text, file contents and `os.stat` sizes are left out. Only whether a path can be written matters.
  - The Django view, form, `render` and `messages` are left out except the email check.
  - `send_mail` transport is left out. The model keeps each mail's subject, body, sender and recipients.
  - xlsxwriter formatting (widths, bold, blue underline, the date format) and `close` are left out. A row is a map from column to cell value.
  - `subprocess.run(clamscan)`, `glob`, `os.makedirs` of the quarantine folder, `shutil.make_archive` and `shutil.copy` are left out. The scan is its before/after counts and quarantine list; the archive step cannot fail in the model.
  - `os.listdir`/`os.rmdir`: `PruneEmpty` works on a given listing of the root.
- The hard-coded API key and the exact request URLs are constants with no behaviour. `PageUrl` and `DetailUrl` keep only their variable parts.
- Python semantics:
  - `lower`, `strip` and `int` are modelled on ASCII only. Unicode case mapping, Unicode digits and `int`'s digit-group underscores are not modelled.
  - `str()` of a list or dict is a fixed placeholder. `str(list)` of file names does not model repr escaping of quotes.
  - `datetime.strptime` accepts only zero-padded `YYYY-MM-DD` in the model. Python also accepts one-digit months and days, which the model writes as an empty cell.
  - `os.path.join` and `normpath` are POSIX joins without normalisation.
- Registry data:
  - JSON numbers are integers only (`JNum`). Floats are not represented, so `int(2.5)`, `"%s" % 3.0` and `0.0 in {0, '0', ''}` are not modelled. The registry sends counts and totals as integers or strings.
  - A title, submitter or organization that is a list or dict makes xlsxwriter's `write_row` (views.py:471) raise a TypeError. `FixedCells` stores it as a written cell instead. The registry sends these fields as strings.
  - A non-string `documentId` is reported as a type error. Python's `sorted` would compare mixed types only for some pairs.
  - A `fileFormats` that is a dict is a type error. Python would iterate its keys.
  - A `documents` value that is a string would be concatenated as text by Python. The model stops with a type error at the same concatenation.
- Records.SortById: stability among equal IDs is not proved. Uniqueness of the order is proved for distinct IDs only (`SortedUnique`).
- Text.ParseDecimal: the round trip `int(str(n)) == n` is proved for non-negative `n` only, the counts the registry sends.
- Quota.CheckQuotaAndGet: a registry that answers 0 forever makes the source wait forever. The model ends with `Stalled` once the given quota values run out.
- The `re` patterns of `dlfiles`:
  - `\d` at views.py:228 is read as an ASCII digit. Python's `\d` on a str also matches other Unicode decimal digits.
  - `$` at views.py:224 is read as the end of the header. Python's `$` also matches just before a final "\n", so a header ending in `"` plus a newline yields an extension in Python and none in the model.
- xlsxwriter's worksheet-name check is modelled for the 31-character limit and the characters `[]:*?/\`. The rule of later xlsxwriter versions against a leading apostrophe is not modelled.
- DocketSocket.Fetch: an empty page while the list already holds `record_count` records is reported as `Stalled` rather than looping. That is the only case in which views.py:393-398 repeats forever. The number of requests is not modelled.
- Concurrency between runs (two runs sharing a folder) is not modelled.
