/** The `docket_socket` driver (views.py:350-530): the listing is paged in and sorted, every
    record is dispatched to dlcontent or dlcomments and gets a manifest row, the comments are
    saved, empty subfolders are removed, and the virus scan is checked before delivery. The
    registry, the disk, the folder listing and the scanner are inputs. Every exception inside the
    driver ends the run at its outer `except`, which the model reports as `Err`. */
module DocketSocket {
  import opened Text
  import opened Faults
  import opened Json
  import opened Quota
  import opened Workspace
  import opened Download
  import opened Content
  import opened Links
  import opened Records

  /** What the run reads from outside: listing pages by offset, the detail response of each
      document ID, the downloads, and which files can be written. */
  datatype World = World(pages: int -> Response<Json>, details: string -> Response<Object>,
                         downloads: Downloads, canWrite: string -> bool)

  /** The requested categories and the folders makefolders made for them. */
  datatype Selection = Selection(folders: Folders, primaryOn: bool, supportingOn: bool,
                                 commentsOn: bool)

  /** The variables the record loop updates: `row`, the rows written so far (row 0 the header),
      `all_html_comments` and the last `document_ID` read. */
  datatype RunState = RunState(row: nat, manifest: seq<map<nat, Cell>>, html: string,
                               lastId: Option<string>)

  /** The state before the record loop (views.py:416-421). */
  function Initial(): RunState {
    RunState(1, [HeaderRow()], "", None)
  }

  /** Rows are numbered consecutively under the header: `row` is the next free row. */
  predicate Numbered(st: RunState) {
    st.row == |st.manifest| && st.row >= 1 && st.manifest[0] == HeaderRow()
  }

  const PageSize: int := 1000

  /** The listing request for offset `po` (the API key is not part of this model). */
  function PageUrl(docketId: string, po: int): string {
    "http://api.data.gov:80/regulations/v3/documents.json?countsOnly=0&dktid=" + docketId
      + "&rpp=1000&po=" + Decimal(po)
  }

  /** The detail request for a document ID. */
  function DetailUrl(documentId: string): string {
    "http://api.data.gov:80/regulations/v3/document.json?documentId=" + documentId
  }

  /** `.get("totalNumRecords")` as compared with 0: a number, or a bool counted as 0 or 1;
      None or any other value cannot be compared. */
  function Total(first: Object): (r: Result<int>)
    ensures "totalNumRecords" in first && first["totalNumRecords"].JNum? ==>
      r == Ok(first["totalNumRecords"].n)
  {
    var v := if "totalNumRecords" in first then first["totalNumRecords"] else JNull;
    match v
    case JNum(n) => Ok(n)
    case JBool(b) => Ok(if b then 1 else 0)
    case _ => Err(TypeError)
  }

  /** `request_response.json()["documents"]` of a later page. */
  function PageDocuments(body: Json): Result<Json> {
    if !body.JObj? then Err(TypeError)
    else if "documents" !in body.fields then Err(KeyError("documents"))
    else Ok(body.fields["documents"])
  }

  /** `len()` of the first page's documents. */
  function Size(v: Json): Result<nat> {
    match v
    case JArr(items) => Ok(|items|)
    case JStr(s) => Ok(|s|)
    case JObj(fields) => Ok(|fields|)
    case _ => Err(TypeError)
  }

  /** The pagination loop (views.py:392-398) from `list_of_records` and `record_count`: the page
      at offset `count` is requested and appended, and `count` becomes the new length. Only an
      empty page while the length already equals `count` makes the loop request the same page
      again forever; a page that brings a shorter list up to exactly `count` is followed by a
      second request at that offset, which can still finish (see RepeatedOffset). */
  function Fetch(list: seq<Json>, count: int, total: int, pages: int -> Response<Json>)
    : (r: Result<seq<Json>>)
    ensures r.Ok? ==> list <= r.value
    ensures r.Ok? && count < total ==> |r.value| >= total
    decreases if count == |list| then 0 else 1, total - count
  {
    if count >= total then Ok(list)
    else
      var reply := pages(count);
      match QuotaOutcome(reply.remaining)
      case Err(f) => Err(f)
      case Ok(_) =>
        match PageDocuments(reply.body)
        case Err(f) => Err(f)
        case Ok(docs) =>
          if !docs.JArr? then Err(TypeError)
          else
            var next := list + docs.items;
            if count == |list| && docs.items == [] then Err(Stalled)
            else
              var r := Fetch(next, |next|, total, pages);
              assert r.Ok? ==> list <= next <= r.value;
              r
  }

  /** The listing with every page in (views.py:384-400): the total must be positive, extra pages
      are requested only above 1000 records, and the length must then equal the total. A first
      page whose documents are not a list fails at the count check, at the sort, or at the first
      concatenation. */
  function Listing(first: Object, pages: int -> Response<Json>): (r: Result<seq<Json>>)
    ensures r.Ok? ==> Total(first).Ok? && |r.value| == Total(first).value > 0
    ensures r.Ok? ==>
      "documents" in first && first["documents"].JArr? && first["documents"].items <= r.value
  {
    match Total(first)
    case Err(f) => Err(f)
    case Ok(total) =>
      if total <= 0 then Err(NoRecords)
      else if "documents" !in first then Err(KeyError("documents"))
      else
        var docs := first["documents"];
        if total > PageSize then
          if docs.JArr? then
            match Fetch(docs.items, PageSize, total, pages)
            case Err(f) => Err(f)
            case Ok(list) => if |list| != total then Err(CountMismatch) else Ok(list)
          else
            var reply := pages(PageSize);
            match QuotaOutcome(reply.remaining)
            case Err(f) => Err(f)
            case Ok(_) =>
              match PageDocuments(reply.body)
              case Err(f) => Err(f)
              case Ok(_) => Err(TypeError)
        else
          match Size(docs)
          case Err(f) => Err(f)
          case Ok(n) =>
            if n != total then Err(CountMismatch)
            else if !docs.JArr? then Err(TypeError)
            else Ok(docs.items)
  }

  /** The records in the order the loop visits them (views.py:402). */
  function SortedRecords(first: Object, pages: int -> Response<Json>): Result<seq<Summary>> {
    match Listing(first, pages)
    case Err(f) => Err(f)
    case Ok(list) =>
      match Summaries(list)
      case Err(f) => Err(f)
      case Ok(s) => Ok(SortById(s))
  }

  /** The sorted listing is ascending by document ID and holds exactly the records paged in. */
  lemma SortedListing(first: Object, pages: int -> Response<Json>)
    requires SortedRecords(first, pages).Ok?
    ensures var list := Listing(first, pages).value;
      && Summaries(list).Ok?
      && SortedById(SortedRecords(first, pages).value)
      && multiset(SortedRecords(first, pages).value) == multiset(Summaries(list).value)
      && |SortedRecords(first, pages).value| == Total(first).value
  {
    var s := Summaries(Listing(first, pages).value).value;
    SortByIdSorted(s);
    assert |SortById(s)| == |multiset(SortById(s))| == |multiset(s)| == |s|;
  }

  /** Up to 1000 records no further page is requested: the listing does not depend on them. */
  lemma OnePage(first: Object, pages: int -> Response<Json>, others: int -> Response<Json>)
    requires Total(first).Ok? && Total(first).value <= PageSize
    ensures Listing(first, pages) == Listing(first, others)
  {
  }

  /** The first extra page is requested at offset 1000 even when the first page was short: the
      records between its length and 1000 are never requested, yet a later page that makes up
      the count lets the run go on. */
  lemma ShortFirstPage(first: Object, pages: int -> Response<Json>, docs: seq<Json>,
                       more: seq<Json>)
    requires "documents" in first && first["documents"] == JArr(docs)
    requires Total(first).Ok? && |docs| < PageSize < Total(first).value
    requires QuotaOutcome(pages(PageSize).remaining).Ok?
    requires pages(PageSize).body == JObj(map["documents" := JArr(more)])
    requires |docs| + |more| == Total(first).value
    ensures Listing(first, pages) == Ok(docs + more)
  {
    var total := Total(first).value;
    var next := docs + more;
    assert |next| != PageSize;
    assert Fetch(next, |next|, total, pages) == Ok(next);
    assert Fetch(docs, PageSize, total, pages) == Ok(next);
  }

  /** A page with no documents while the length equals the offset is requested again forever. */
  lemma EmptyPageStalls(list: seq<Json>, total: int, pages: int -> Response<Json>)
    requires |list| < total
    requires QuotaOutcome(pages(|list|).remaining).Ok?
    requires pages(|list|).body == JObj(map["documents" := JArr([])])
    ensures Fetch(list, |list|, total, pages) == Err(Stalled)
  {
    assert list + [] == list;
  }

  /** A first page of 990 records out of 1020 and ten-record pages: the page at offset 1000 brings
      the length to exactly 1000, so offset 1000 is requested a second time and then offset 1010;
      the listing reaches 1020 entries, the first extra page twice, and passes the count check. */
  lemma RepeatedOffset(docs: seq<Json>, page: seq<Json>, pages: int -> Response<Json>)
    requires |docs| == 990 && |page| == 10
    requires forall o :: QuotaOutcome(pages(o).remaining).Ok?
    requires forall o :: pages(o).body == JObj(map["documents" := JArr(page)])
    ensures Fetch(docs, PageSize, 1020, pages) == Ok(docs + page + page + page)
  {
    var body := JObj(map["documents" := JArr(page)]);
    assert PageDocuments(body) == Ok(JArr(page));
    var l1, l2, l3 := docs + page, docs + page + page, docs + page + page + page;
    assert Fetch(l3, 1030, 1020, pages) == Ok(l3);
    assert Fetch(l2, 1010, 1020, pages) == Ok(l3);
    assert Fetch(l1, 1000, 1020, pages) == Ok(l3);
  }

  /** The links of the record and the new `all_html_comments` from the branch taken
      (views.py:436-450). */
  function Gathered(sel: Selection, category: Category, documentId: string, detail: Object,
                    html: string, w: World): Result<(Content.Links, string)>
  {
    match category
    case PrimaryDoc =>
      (match ContentLinks(documentId, detail, sel.folders.primary, w.downloads, w.canWrite)
       case Err(f) => Err(f)
       case Ok(links) => Ok((links, html)))
    case SupportingDoc =>
      (match ContentLinks(documentId, detail, sel.folders.supporting, w.downloads, w.canWrite)
       case Err(f) => Err(f)
       case Ok(links) => Ok((links, html)))
    case CommentDoc =>
      (match CommentResult(documentId, detail, html, sel.folders.comments, w.downloads, w.canWrite)
       case Err(f) => Err(f)
       case Ok(c) => Ok((Links(Single(c.link), c.attachments), c.html)))
    case NotRequested => Ok((Links(Single(""), []), html))
  }

  /** The row of a record whose links are known (views.py:451-484). */
  function Filed(path: string, st: RunState, documentId: string, docType: Json, detail: Object,
                 links: Content.Links): Result<RunState>
  {
    match GetLinks(links, path)
    case Err(f) => Err(f)
    case Ok(rowLinks) =>
      match RowCells(documentId, docType, detail, rowLinks)
      case Err(f) => Err(f)
      case Ok(cells) => Ok(st.(row := st.row + 1, manifest := st.manifest + [cells]))
  }

  /** The record's row once its category is known (views.py:436-484). */
  /** A row filed with the link "See attached": getLinks turns the link into "" (views.py:344),
      so the test for "See attached" at views.py:475 fails and column 1 of the new row is
      `=HYPERLINK("")`. */
  lemma TrivialCommentFiled(path: string, st: RunState, documentId: string, docType: Json,
                            detail: Object, attachments: seq<string>)
    requires Filed(path, st, documentId, docType, detail,
                   Links(Single("See attached"), attachments)).Ok?
    ensures var next := Filed(path, st, documentId, docType, detail,
                              Links(Single("See attached"), attachments)).value;
      && |next.manifest| == |st.manifest| + 1
      && next.manifest[|st.manifest|][1] == Written(JStr("=HYPERLINK(\"\")"))
  {
    var links := Links(Single("See attached"), attachments);
    GetLinksMapsEach(links, path);
    var rowLinks := GetLinks(links, path).value;
    assert rowLinks.link == "";
    RowLinkCells(documentId, docType, detail, rowLinks);
    TrivialCommentCell();
  }

  function Requested(sel: Selection, st: RunState, documentId: string, docType: Json,
                     detail: Object, category: Category, w: World): Result<RunState>
  {
    if category == NotRequested then Ok(st)
    else
      match Gathered(sel, category, documentId, detail, st.html, w)
      case Err(f) => Err(f)
      case Ok((links, html)) =>
        Filed(sel.folders.path, st.(html := html), documentId, docType, detail, links)
  }

  /** One turn of the record loop (views.py:424-484). */
  function RecordStep(sel: Selection, st: RunState, rec: Summary, w: World): (r: Result<RunState>)
    ensures "documentStatus" in rec.fields && rec.fields["documentStatus"] == JStr("Withdrawn")
      ==> r == Ok(st)
  {
    if "documentStatus" !in rec.fields then Err(KeyError("documentStatus"))
    else if rec.fields["documentStatus"] == JStr("Withdrawn") then Ok(st)
    else if "documentType" !in rec.fields then Err(KeyError("documentType"))
    else
      var docType := rec.fields["documentType"];
      var reply := w.details(rec.id);
      match QuotaOutcome(reply.remaining)
      case Err(f) => Err(f)
      case Ok(_) =>
        match Dispatch(sel.primaryOn, sel.supportingOn, sel.commentsOn, docType)
        case Err(f) => Err(f)
        case Ok(category) =>
          Requested(sel, st.(lastId := Some(rec.id)), rec.id, docType, reply.body, category, w)
  }

  /** The record loop over the sorted records; the first exception ends the run. */
  function ProcessAll(sel: Selection, st: RunState, records: seq<Summary>, w: World)
    : Result<RunState>
    decreases |records|
  {
    if records == [] then Ok(st)
    else
      match RecordStep(sel, st, records[0], w)
      case Err(f) => Err(f)
      case Ok(next) => ProcessAll(sel, next, records[1..], w)
  }

  /** The loop from position `i` is the turn for `records[i]`, then the loop from `i + 1`. */
  lemma ProcessAllFrom(sel: Selection, st: RunState, records: seq<Summary>, i: nat, w: World)
    requires i < |records|
    ensures ProcessAll(sel, st, records[i..], w) ==
      match RecordStep(sel, st, records[i], w)
      case Err(f) => Err(f)
      case Ok(next) => ProcessAll(sel, next, records[i + 1..], w)
  {
    assert records[i..][0] == records[i] && records[i..][1..] == records[i + 1..];
  }

  /** The record gets a manifest row: it is not withdrawn and its type is one requested. */
  predicate Writes(sel: Selection, rec: Summary) {
    && "documentStatus" in rec.fields && rec.fields["documentStatus"] != JStr("Withdrawn")
    && "documentType" in rec.fields
    && Dispatch(sel.primaryOn, sel.supportingOn, sel.commentsOn, rec.fields["documentType"])
       != Ok(NotRequested)
  }

  function RowsFor(sel: Selection, records: seq<Summary>): nat {
    if records == [] then 0
    else (if Writes(sel, records[0]) then 1 else 0) + RowsFor(sel, records[1..])
  }

  /** The branch taken only appends to the comments document. */
  lemma GatheredHtml(sel: Selection, category: Category, documentId: string, detail: Object,
                     html: string, w: World)
    requires Gathered(sel, category, documentId, detail, html, w).Ok?
    ensures StartsWith(Gathered(sel, category, documentId, detail, html, w).value.1, html)
  {
  }

  /** Filing a record appends exactly one row and advances `row`. */
  lemma FiledRow(path: string, st: RunState, documentId: string, docType: Json, detail: Object,
                 links: Content.Links)
    requires Filed(path, st, documentId, docType, detail, links).Ok?
    ensures var next := Filed(path, st, documentId, docType, detail, links).value;
      && next.manifest == st.manifest + [next.manifest[|st.manifest|]]
      && next.row == st.row + 1 && next.html == st.html
  {
  }

  /** A record whose category is known adds one row exactly when it is requested. */
  lemma RequestedRows(sel: Selection, st: RunState, documentId: string, docType: Json,
                      detail: Object, category: Category, w: World)
    requires Requested(sel, st, documentId, docType, detail, category, w).Ok?
    ensures var next := Requested(sel, st, documentId, docType, detail, category, w).value;
      && next.manifest == st.manifest
           + (if category != NotRequested then [next.manifest[|st.manifest|]] else [])
      && next.row == st.row + (if category != NotRequested then 1 else 0)
      && StartsWith(next.html, st.html)
  {
    if category != NotRequested {
      var g := Gathered(sel, category, documentId, detail, st.html, w).value;
      GatheredHtml(sel, category, documentId, detail, st.html, w);
      FiledRow(sel.folders.path, st.(html := g.1), documentId, docType, detail, g.0);
    }
  }

  /** One record adds one row exactly when it is written, keeps the earlier rows, and only
      appends to the comments document. */
  lemma RecordStepRows(sel: Selection, st: RunState, rec: Summary, w: World)
    requires RecordStep(sel, st, rec, w).Ok?
    ensures var next := RecordStep(sel, st, rec, w).value;
      && next.manifest == st.manifest + (if Writes(sel, rec) then [next.manifest[|st.manifest|]] else [])
      && next.row == st.row + (if Writes(sel, rec) then 1 else 0)
      && StartsWith(next.html, st.html)
  {
    if rec.fields["documentStatus"] != JStr("Withdrawn") {
      var docType := rec.fields["documentType"];
      var category := Dispatch(sel.primaryOn, sel.supportingOn, sel.commentsOn, docType).value;
      RequestedRows(sel, st.(lastId := Some(rec.id)), rec.id, docType, w.details(rec.id).body,
                    category, w);
    }
  }

  /** Over the whole loop: the rows written so far stay, one row is added per record written,
      `row` keeps numbering them consecutively under the header, and the comments document only
      grows at its end. */
  lemma {:induction false} ProcessAllRows(sel: Selection, st: RunState, records: seq<Summary>,
                                          w: World)
    requires Numbered(st) && ProcessAll(sel, st, records, w).Ok?
    ensures var last := ProcessAll(sel, st, records, w).value;
      && Numbered(last)
      && st.manifest <= last.manifest
      && |last.manifest| == |st.manifest| + RowsFor(sel, records)
      && StartsWith(last.html, st.html)
    decreases |records|
  {
    if records != [] {
      var next := RecordStep(sel, st, records[0], w).value;
      RecordStepRows(sel, st, records[0], w);
      assert next.manifest[0] == st.manifest[0];
      ProcessAllRows(sel, next, records[1..], w);
      var last := ProcessAll(sel, next, records[1..], w).value;
      assert last.html[..|st.html|] == next.html[..|next.html|][..|st.html|];
    }
  }

  /** The comments file written after the loop (views.py:490-494): its path and its text. The
      log line after it names `document_ID`, which is unbound when no record got that far. */
  function SavedComments(sel: Selection, docketId: string, st: RunState, canWrite: string -> bool)
    : (r: Result<Option<(string, string)>>)
    ensures r.Ok? && r.value.Some? ==> sel.commentsOn && r.value.value.1 == st.html
    ensures !sel.commentsOn ==> r == Ok(None)
  {
    if !sel.commentsOn then Ok(None)
    else
      var file := Join(sel.folders.path, docketId + "_all_comments.html");
      if !canWrite(file) then Err(WriteFailed(file))
      else if st.lastId.None? then Err(Unbound("document_ID"))
      else Ok(Some((file, st.html)))
  }

  /** An entry of the run's root folder when the loop is done. */
  datatype DirEntry = DirEntry(name: string, isDir: bool, isEmpty: bool)

  predicate Removable(e: DirEntry) {
    e.isDir && e.isEmpty
  }

  /** The entries left after the empty subfolders are removed, in listing order. */
  function Survivors(listing: seq<DirEntry>): (r: seq<DirEntry>)
    ensures |r| <= |listing|
  {
    if listing == [] then []
    else (if Removable(listing[0]) then [] else [listing[0]]) + Survivors(listing[1..])
  }

  /** The names of the folders removed, in listing order. */
  function RemovedNames(listing: seq<DirEntry>): (r: seq<string>)
    ensures |r| <= |listing|
  {
    if listing == [] then []
    else (if Removable(listing[0]) then [listing[0].name] else []) + RemovedNames(listing[1..])
  }

  /** Pruning keeps exactly the entries that are not empty folders: every file and every
      non-empty folder stays, and every listed entry is either kept or removed. */
  lemma {:induction false} SurvivorsExactly(listing: seq<DirEntry>)
    ensures forall e :: e in Survivors(listing) <==> e in listing && !Removable(e)
    ensures |Survivors(listing)| + |RemovedNames(listing)| == |listing|
    decreases |listing|
  {
    if listing != [] {
      SurvivorsExactly(listing[1..]);
      assert listing == [listing[0]] + listing[1..];
    }
  }

  /** The loop removing empty directories (views.py:496-499), over a listing of the root. */
  method PruneEmpty(listing: seq<DirEntry>) returns (kept: seq<DirEntry>, removed: seq<string>)
    ensures kept == Survivors(listing) && removed == RemovedNames(listing)
  {
    kept := [];
    removed := [];
    var i := 0;
    while i < |listing|
      invariant 0 <= i <= |listing|
      invariant kept + Survivors(listing[i..]) == Survivors(listing)
      invariant removed + RemovedNames(listing[i..]) == RemovedNames(listing)
    {
      assert listing[i..] == [listing[i]] + listing[i + 1..];
      if Removable(listing[i]) {
        removed := removed + [listing[i].name];
      } else {
        kept := kept + [listing[i]];
      }
      i := i + 1;
    }
    assert listing[i..] == [];
  }

  /** What the scan left behind: top-level file counts before and after, and the quarantine. */
  datatype Scan = Scan(original: nat, post: nat, quarantined: seq<string>)

  datatype Mail = Mail(subject: string, body: string, sender: string, recipients: seq<string>)

  /** The operator who is notified and who sends the mails. */
  const Operator: string := "letzlerr@gao.gov"

  /** The last component of a path: `os.path.split(path)[1]`. */
  function BaseName(path: string): string {
    if path == [] || path[|path| - 1] == '/' then []
    else BaseName(path[..|path| - 1]) + [path[|path| - 1]]
  }

  /** `str(list)` for a list of plain file names. */
  function ListText(items: seq<string>): string {
    "[" + Quoted(items) + "]"
  }

  function Quoted(items: seq<string>): string {
    if items == [] then ""
    else if |items| == 1 then "'" + items[0] + "'"
    else "'" + items[0] + "', " + Quoted(items[1..])
  }

  const QuarantineSubject: string := "File(s) in your docket download flagged as potential viruses"
  const QuarantineText: string := "clamAV flagged files in your docket download and moved them to "
  const QuarantineNote: string :=
    "\n Rob Letzler in ARM has been notified and will investigate. The following files were"
    + " quarantined and not included in your ZIP file:  "
  const CompletionSubject: string := "Your docket download is complete"
  const CompletionText: string :=
    "Your docket download is complete and is available from [WEB ADDRESS TBD]/docket/"

  /** The mail to the requester and the operator about quarantined files (views.py:519). */
  function QuarantineMail(email: string, path: string, quarantined: seq<string>): Mail {
    Mail(QuarantineSubject,
         QuarantineText + Join(path, "flagged_by_clam_AV/*") + QuarantineNote + ListText(quarantined),
         Operator, [email, Operator])
  }

  /** The mail that tells the requester where the archive is (views.py:529). */
  function CompletionMail(email: string, path: string): Mail {
    Mail(CompletionSubject, CompletionText + BaseName(path) + ".ZIP", Operator, [email])
  }

  /** The check after the scan (views.py:514-519). */
  function ScanMails(email: string, path: string, scan: Scan): (r: Result<seq<Mail>>)
    ensures r.Err? <==> scan.quarantined == [] && scan.post < scan.original
    ensures r.Err? ==> r.fault == FilesDropped
    ensures r.Ok? && scan.quarantined != [] ==>
      |r.value| == 1 && r.value[0].recipients == [email, Operator]
    ensures r.Ok? && scan.quarantined == [] ==> r.value == []
  {
    if scan.quarantined == [] then
      if scan.post < scan.original then Err(FilesDropped) else Ok([])
    else Ok([QuarantineMail(email, path, scan.quarantined)])
  }

  /** What a completed run leaves: the manifest rows, the comments file if requested, the root
      folder after pruning, and the mails sent, in order. */
  datatype Report = Report(manifest: seq<map<nat, Cell>>, comments: Option<(string, string)>,
                           kept: seq<DirEntry>, mails: seq<Mail>)

  /** The run from the sorted records on (views.py:424-529). */
  function Finished(sel: Selection, docketId: string, email: string, records: seq<Summary>,
                    w: World, listing: seq<DirEntry>, scan: Scan): Result<Report>
  {
    match ProcessAll(sel, Initial(), records, w)
    case Err(f) => Err(f)
    case Ok(st) =>
      match SavedComments(sel, docketId, st, w.canWrite)
      case Err(f) => Err(f)
      case Ok(comments) =>
        match ScanMails(email, sel.folders.path, scan)
        case Err(f) => Err(f)
        case Ok(mails) =>
          Ok(Report(st.manifest, comments, Survivors(listing),
                    mails + [CompletionMail(email, sel.folders.path)]))
  }

  /** The characters xlsxwriter refuses in a worksheet name. */
  const SheetForbidden: string := "[]:*?/\\"

  /** `docket_ID + " Directory"`, the manifest's worksheet (views.py:407). */
  function SheetTitle(docketId: string): string {
    docketId + " Directory"
  }

  /** A name `add_worksheet` accepts: at most 31 characters, none of them forbidden. */
  predicate ValidSheetName(name: string) {
    |name| <= 31 && forall i :: 0 <= i < |name| ==> name[i] !in SheetForbidden
  }

  /** The worksheet can be added exactly when the docket ID has at most 21 characters and none of
      `[]:*?/\`: a longer docket ID ends the run with xlsxwriter's exception. */
  lemma SheetTitleExactly(docketId: string)
    ensures ValidSheetName(SheetTitle(docketId)) <==>
      |docketId| <= 21 && forall i :: 0 <= i < |docketId| ==> docketId[i] !in SheetForbidden
  {
    var t := SheetTitle(docketId);
    assert forall i :: 0 <= i < |docketId| ==> t[i] == docketId[i];
    forall i | |docketId| <= i < |t| ensures t[i] !in SheetForbidden {
      assert t[i] == " Directory"[i - |docketId|];
    }
  }

  /** A docket ID of more than 21 characters ends a run whose listing was paged in: the
      worksheet name is refused before any record is processed. */
  lemma LongDocketIdFails(sel: Selection, docketId: string, email: string, first: Object, w: World,
                          listing: seq<DirEntry>, scan: Scan)
    requires w.canWrite(Join(sel.folders.path, "docket_socket_log_file.log"))
    requires SortedRecords(first, w.pages).Ok?
    requires |docketId| > 21
    ensures Started(sel, docketId, email, first, w, listing, scan)
      == Err(SheetName(docketId + " Directory"))
  {
    SheetTitleExactly(docketId);
  }

  /** The run once the folders exist (views.py:378-529): the log file is opened, the listing is
      paged in and sorted, and the manifest's worksheet is added. */
  function Started(sel: Selection, docketId: string, email: string, first: Object, w: World,
                   listing: seq<DirEntry>, scan: Scan): Result<Report>
  {
    var log := Join(sel.folders.path, "docket_socket_log_file.log");
    if !w.canWrite(log) then Err(WriteFailed(log))
    else
      match SortedRecords(first, w.pages)
      case Err(f) => Err(f)
      case Ok(records) =>
        if !ValidSheetName(SheetTitle(docketId)) then Err(SheetName(SheetTitle(docketId)))
        else Finished(sel, docketId, email, records, w, listing, scan)
  }

  /** The whole run, as a function of its inputs. `listing` is the root folder's content after
      the record loop and `existing` the directories present before the run. */
  function Outcome(directory: string, docketId: string, doctype: seq<string>, email: string,
                   first: Object, w: World, existing: set<string>, listing: seq<DirEntry>,
                   scan: Scan): Result<Report>
  {
    var p, s, c := "primary" in doctype, "supporting" in doctype, "comments" in doctype;
    match MakeFolders(directory, docketId, p, s, c, existing)
    case Err(f) => Err(f)
    case Ok(folders) => Started(Selection(folders, p, s, c), docketId, email, first, w, listing, scan)
  }

  /** A completed run's manifest starts with the header and has one row per record written,
      and the run ends with the mail that tells the requester where the archive is; with
      quarantined files the operator was told first. */
  lemma CompletedRun(sel: Selection, docketId: string, email: string, records: seq<Summary>,
                     w: World, listing: seq<DirEntry>, scan: Scan)
    requires Finished(sel, docketId, email, records, w, listing, scan).Ok?
    ensures var report := Finished(sel, docketId, email, records, w, listing, scan).value;
      && |report.manifest| == 1 + RowsFor(sel, records)
      && report.manifest[0] == HeaderRow()
      && report.mails[|report.mails| - 1] == CompletionMail(email, sel.folders.path)
      && (scan.quarantined != [] ==> report.mails[0].recipients == [email, Operator])
  {
    ProcessAllRows(sel, Initial(), records, w);
  }

  /** The completion mail names the archive after the root folder: the last component of the
      root's path is its name. */
  lemma {:induction false} BaseNameAfterSlash(prefix: string, name: string)
    requires forall k :: 0 <= k < |name| ==> name[k] != '/'
    requires prefix == [] || prefix[|prefix| - 1] == '/'
    ensures BaseName(prefix + name) == name
    decreases |name|
  {
    var whole := prefix + name;
    if name == [] {
      assert whole == prefix;
    } else {
      var init := name[..|name| - 1];
      assert whole[|whole| - 1] == name[|name| - 1];
      assert whole[..|whole| - 1] == prefix + init;
      assert BaseName(whole) == BaseName(prefix + init) + [name[|name| - 1]];
      BaseNameAfterSlash(prefix, init);
      assert name == init + [name[|name| - 1]];
    }
  }

  lemma ArchiveName(directory: string, root: string)
    requires forall k :: 0 <= k < |root| ==> root[k] != '/'
    requires root != []
    ensures BaseName(Join(directory, root)) == root
  {
    if directory == [] || directory[|directory| - 1] == '/' {
      BaseNameAfterSlash(directory, root);
    } else {
      assert Join(directory, root) == (directory + "/") + root;
      BaseNameAfterSlash(directory + "/", root);
    }
  }

  /** The driver's own variables: the records as paged in and sorted, the next row, the rows
      written and the comments document. */
  class DocketRun {
    const docketId: string
    const selection: Selection
    var listOfRecords: seq<Json>
    var records: seq<Summary>
    var row: nat
    var manifest: seq<map<nat, Cell>>
    var allHtmlComments: string
    var documentId: Option<string>

    ghost predicate Valid()
      reads this
    {
      Numbered(State())
    }

    function State(): RunState
      reads this
    {
      RunState(row, manifest, allHtmlComments, documentId)
    }

    /** The header row written and nothing read yet (views.py:405-421). */
    constructor(docketId: string, selection: Selection)
      ensures this.docketId == docketId && this.selection == selection
      ensures listOfRecords == [] && records == []
      ensures State() == Initial() && Valid()
    {
      this.docketId := docketId;
      this.selection := selection;
      listOfRecords := [];
      records := [];
      row := 1;
      manifest := [HeaderRow()];
      allHtmlComments := "";
      documentId := None;
    }

    /** Pages the listing in and sorts it (views.py:384-402). */
    method Paginate(first: Object, pages: int -> Response<Json>) returns (r: Result<seq<Summary>>)
      modifies this`listOfRecords, this`records
      ensures r == SortedRecords(first, pages)
      ensures r.Ok? ==> records == r.value && listOfRecords == Listing(first, pages).value
    {
      var total := Total(first);
      if total.Err? {
        return Err(total.fault);
      }
      var n := total.value;
      if n <= 0 {
        return Err(NoRecords);
      }
      if "documents" !in first {
        return Err(KeyError("documents"));
      }
      var docs := first["documents"];
      if n > PageSize {
        if !docs.JArr? {
          var reply := pages(PageSize);
          var q, trace := CheckQuotaAndGet(PageUrl(docketId, PageSize), reply.remaining);
          if q.Err? {
            return Err(q.fault);
          }
          var page := PageDocuments(reply.body);
          if page.Err? {
            return Err(page.fault);
          }
          return Err(TypeError);
        }
        listOfRecords := docs.items;
        var recordCount := PageSize;
        while recordCount < n
          invariant Fetch(docs.items, PageSize, n, pages) == Fetch(listOfRecords, recordCount, n, pages)
          decreases if recordCount == |listOfRecords| then 0 else 1, n - recordCount
        {
          var reply := pages(recordCount);
          var q, trace := CheckQuotaAndGet(PageUrl(docketId, recordCount), reply.remaining);
          if q.Err? {
            return Err(q.fault);
          }
          var page := PageDocuments(reply.body);
          if page.Err? {
            return Err(page.fault);
          }
          if !page.value.JArr? {
            return Err(TypeError);
          }
          var next := listOfRecords + page.value.items;
          if recordCount == |listOfRecords| && page.value.items == [] {
            return Err(Stalled);
          }
          listOfRecords := next;
          recordCount := |listOfRecords|;
        }
        if |listOfRecords| != n {
          return Err(CountMismatch);
        }
      } else {
        var size := Size(docs);
        if size.Err? {
          return Err(size.fault);
        }
        if size.value != n {
          return Err(CountMismatch);
        }
        if !docs.JArr? {
          return Err(TypeError);
        }
        listOfRecords := docs.items;
      }
      var summaries := Summaries(listOfRecords);
      if summaries.Err? {
        return Err(summaries.fault);
      }
      records := SortById(summaries.value);
      r := Ok(records);
    }

    /** Writes the record's row (views.py:455-484), the attachment links column by column. */
    method WriteRow(id: string, docType: Json, detail: Object, links: RowLinks)
      returns (r: Result<()>)
      requires Valid()
      modifies this`row, this`manifest
      ensures Valid()
      ensures var want := RowCells(id, docType, detail, links);
        && (want.Err? ==> r == Err(want.fault) && row == old(row) && manifest == old(manifest))
        && (want.Ok? ==> r == Ok(()) && manifest == old(manifest) + [want.value]
                         && row == old(row) + 1)
    {
      var posted := if "postedDate" in detail then detail["postedDate"] else JNull;
      var date := DateCell(posted);
      if date.Err? {
        return Err(date.fault);
      }
      var count := IntOf(GetValue(detail, "attachmentCount"));
      if count.Err? {
        return Err(count.fault);
      }
      var cells := FixedCells(id, docType, detail, links.link, date.value, count.value);
      ghost var fixed := cells;
      var col := 8;
      var i := 0;
      while i < |links.attachments|
        invariant 0 <= i <= |links.attachments| && col == 8 + i
        invariant cells == fixed + AttachmentCells(links.attachments[..i])
        invariant row == old(row) && manifest == old(manifest)
      {
        AttachmentCellsSnoc(fixed, links.attachments, i);
        cells := cells[col := Written(JStr(Hyperlink(links.attachments[i])))];
        col := col + 1;
        i := i + 1;
      }
      assert links.attachments[..i] == links.attachments;
      manifest := manifest + [cells];
      row := row + 1;
      r := Ok(());
    }

    /** The branch of the dispatch (views.py:436-450): dlcontent into the category's folder, or
        dlcomments, which also replaces `all_html_comments`. */
    method Gather(category: Category, id: string, detail: Object, w: World)
      returns (r: Result<Content.Links>)
      requires category != NotRequested
      modifies this`allHtmlComments
      ensures var want := Gathered(selection, category, id, detail, old(allHtmlComments), w);
        && (r.Ok? <==> want.Ok?)
        && (r.Err? ==> want == Err(r.fault))
        && (r.Ok? ==> want.value == (r.value, allHtmlComments))
    {
      if category == CommentDoc {
        var c := DownloadComment(id, detail, allHtmlComments, selection.folders.comments,
                                 w.downloads, w.canWrite);
        if c.Err? {
          return Err(c.fault);
        }
        allHtmlComments := c.value.html;
        r := Ok(Links(Single(c.value.link), c.value.attachments));
      } else {
        var path := if category == PrimaryDoc then selection.folders.primary
                    else selection.folders.supporting;
        r := DownloadContent(id, detail, path, w.downloads, w.canWrite);
      }
    }

    /** Relativises the links and writes the row (views.py:451-484). */
    method FileRow(id: string, docType: Json, detail: Object, links: Content.Links)
      returns (r: Result<()>)
      requires Valid()
      modifies this`row, this`manifest
      ensures Valid()
      ensures var want := Filed(selection.folders.path, old(State()), id, docType, detail, links);
        && (r.Ok? <==> want.Ok?)
        && (r.Err? ==> want == Err(r.fault))
        && (r.Ok? ==> State() == want.value)
    {
      var rowLinks := GetLinks(links, selection.folders.path);
      if rowLinks.Err? {
        return Err(rowLinks.fault);
      }
      r := WriteRow(id, docType, detail, rowLinks.value);
    }

    /** The row of a record whose category is known (views.py:436-484). */
    method AddRow(id: string, docType: Json, detail: Object, category: Category, w: World)
      returns (r: Result<()>)
      requires Valid()
      modifies this`row, this`manifest, this`allHtmlComments
      ensures Valid()
      ensures var want := Requested(selection, old(State()), id, docType, detail, category, w);
        && (r.Ok? <==> want.Ok?)
        && (r.Err? ==> want == Err(r.fault))
        && (r.Ok? ==> State() == want.value)
    {
      if category == NotRequested {
        return Ok(());
      }
      var links := Gather(category, id, detail, w);
      if links.Err? {
        return Err(links.fault);
      }
      r := FileRow(id, docType, detail, links.value);
    }

    /** One turn of the record loop (views.py:424-434): the withdrawn skip, the two keys read,
        `document_ID` bound, and the detail request. */
    method ProcessRecord(rec: Summary, w: World) returns (r: Result<()>)
      requires Valid()
      modifies this`row, this`manifest, this`allHtmlComments, this`documentId
      ensures Valid()
      ensures var want := RecordStep(selection, old(State()), rec, w);
        && (r.Ok? <==> want.Ok?)
        && (r.Err? ==> want == Err(r.fault))
        && (r.Ok? ==> State() == want.value)
    {
      if "documentStatus" !in rec.fields {
        return Err(KeyError("documentStatus"));
      }
      if rec.fields["documentStatus"] == JStr("Withdrawn") {
        return Ok(());
      }
      if "documentType" !in rec.fields {
        return Err(KeyError("documentType"));
      }
      var docType := rec.fields["documentType"];
      documentId := Some(rec.id);
      var reply := w.details(rec.id);
      var q, trace := CheckQuotaAndGet(DetailUrl(rec.id), reply.remaining);
      if q.Err? {
        return Err(q.fault);
      }
      var category := Dispatch(selection.primaryOn, selection.supportingOn,
                               selection.commentsOn, docType);
      if category.Err? {
        return Err(category.fault);
      }
      r := AddRow(rec.id, docType, reply.body, category.value, w);
    }

    /** The record loop over the sorted records (views.py:424-484). */
    method ProcessRecords(w: World) returns (r: Result<()>)
      requires Valid()
      modifies this`row, this`manifest, this`allHtmlComments, this`documentId
      ensures Valid()
      ensures var want := ProcessAll(selection, old(State()), records, w);
        && (r.Ok? <==> want.Ok?)
        && (r.Err? ==> want == Err(r.fault))
        && (r.Ok? ==> State() == want.value)
    {
      var i := 0;
      while i < |records|
        invariant 0 <= i <= |records| && Valid()
        invariant ProcessAll(selection, old(State()), records, w)
          == ProcessAll(selection, State(), records[i..], w)
      {
        ProcessAllFrom(selection, State(), records, i, w);
        var step := ProcessRecord(records[i], w);
        if step.Err? {
          return Err(step.fault);
        }
        i := i + 1;
      }
      r := Ok(());
    }
  }

  /** Column `8 + i` added to a row holding the fixed cells and the first `i` attachment links. */
  lemma AttachmentCellsSnoc(fixed: map<nat, Cell>, a: seq<string>, i: nat)
    requires i < |a| && forall k :: k in fixed ==> k < 8
    ensures (fixed + AttachmentCells(a[..i]))[8 + i := Written(JStr(Hyperlink(a[i])))]
      == fixed + AttachmentCells(a[..i + 1])
  {
    var small := AttachmentCells(a[..i]);
    var large := AttachmentCells(a[..i + 1]);
    forall k | k in large ensures k in small ==> large[k] == small[k] {
      if k in small {
        assert AttachmentCell(a[..i], k) == AttachmentCell(a[..i + 1], k);
      }
    }
    assert large[8 + i] == AttachmentCell(a[..i + 1], 8 + i);
  }

  /** docket_socket(directory, request_response, docket_ID, doctype, email): the whole run. */
  method Run(directory: string, docketId: string, doctype: seq<string>, email: string,
             first: Object, w: World, existing: set<string>, listing: seq<DirEntry>, scan: Scan)
    returns (r: Result<Report>)
    ensures r == Outcome(directory, docketId, doctype, email, first, w, existing, listing, scan)
  {
    var primaryOn := "primary" in doctype;
    var supportingOn := "supporting" in doctype;
    var commentsOn := "comments" in doctype;
    var folders := MakeFolders(directory, docketId, primaryOn, supportingOn, commentsOn, existing);
    if folders.Err? {
      return Err(folders.fault);
    }
    r := Start(Selection(folders.value, primaryOn, supportingOn, commentsOn), docketId, email,
               first, w, listing, scan);
  }

  /** The run once the folders exist (views.py:378-402): the log file, then the listing. */
  method Start(sel: Selection, docketId: string, email: string, first: Object, w: World,
               listing: seq<DirEntry>, scan: Scan) returns (r: Result<Report>)
    ensures r == Started(sel, docketId, email, first, w, listing, scan)
  {
    var log := Join(sel.folders.path, "docket_socket_log_file.log");
    if !w.canWrite(log) {
      return Err(WriteFailed(log));
    }
    var run := new DocketRun(docketId, sel);
    var sorted := run.Paginate(first, w.pages);
    if sorted.Err? {
      return Err(sorted.fault);
    }
    var sheet := SheetTitle(docketId);
    if !ValidSheetName(sheet) {
      return Err(SheetName(sheet));
    }
    r := Conclude(run, sel, docketId, email, sorted.value, w, listing, scan);
  }

  /** The run from the sorted records on (views.py:424-529): the record loop, the comments
      file, pruning, the scan check and the mails. */
  method Conclude(run: DocketRun, sel: Selection, docketId: string, email: string,
                  records: seq<Summary>, w: World, listing: seq<DirEntry>, scan: Scan)
    returns (r: Result<Report>)
    requires run.Valid() && run.State() == Initial()
    requires run.selection == sel && run.records == records
    modifies run
    ensures r == Finished(sel, docketId, email, records, w, listing, scan)
  {
    var done := run.ProcessRecords(w);
    if done.Err? {
      return Err(done.fault);
    }
    var comments := SavedComments(sel, docketId, run.State(), w.canWrite);
    if comments.Err? {
      return Err(comments.fault);
    }
    var kept, removed := PruneEmpty(listing);
    var mails := ScanMails(email, sel.folders.path, scan);
    if mails.Err? {
      return Err(mails.fault);
    }
    r := Ok(Report(run.manifest, comments.value, kept,
                   mails.value + [CompletionMail(email, sel.folders.path)]));
  }
}
