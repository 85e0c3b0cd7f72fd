/** The listing records of a docket and the manifest rows written for them (views.py:402-484):
    the dispatch on document type, the sort by document ID and the cells of one row. */
module Records {
  import opened Text
  import opened Faults
  import opened Json
  import opened Links

  const SupportingType: string := "Supporting & Related Material"
  const CommentType: string := "Public Submission"

  /** The branch of the dispatch a record takes (views.py:436-450). */
  datatype Category = PrimaryDoc | SupportingDoc | CommentDoc | NotRequested

  /** `primary_on and document_Type not in {...}` (views.py:436, 452). */
  predicate PrimaryWanted(p: bool, t: Json) {
    p && t != JStr(SupportingType) && t != JStr(CommentType)
  }

  /** `supporting_on and document_Type == "Supporting & Related Material"` (views.py:441, 453). */
  predicate SupportingWanted(s: bool, t: Json) {
    s && t == JStr(SupportingType)
  }

  /** `comments_on and document_Type == "Public Submission"` (views.py:446, 454). */
  predicate CommentWanted(c: bool, t: Json) {
    c && t == JStr(CommentType)
  }

  /** The if/elif chain over the record's type. The membership test needs a hashable type: a
      list or dict raises TypeError, but only when primary documents are requested. */
  function Dispatch(p: bool, s: bool, c: bool, t: Json): (r: Result<Category>)
    ensures r.Err? <==> p && (t.JArr? || t.JObj?)
  {
    if p && (t.JArr? || t.JObj?) then Err(TypeError)
    else if PrimaryWanted(p, t) then Ok(PrimaryDoc)
    else if SupportingWanted(s, t) then Ok(SupportingDoc)
    else if CommentWanted(c, t) then Ok(CommentDoc)
    else Ok(NotRequested)
  }

  /** The three conditions are pairwise exclusive, so the order of the chain does not matter;
      the dispatch picks the one that holds, and a row is written (the condition of
      views.py:452-454) exactly when the dispatch picks a category. */
  lemma DispatchExclusive(p: bool, s: bool, c: bool, t: Json)
    requires !(p && (t.JArr? || t.JObj?))
    ensures !(PrimaryWanted(p, t) && SupportingWanted(s, t))
    ensures !(PrimaryWanted(p, t) && CommentWanted(c, t))
    ensures !(SupportingWanted(s, t) && CommentWanted(c, t))
    ensures Dispatch(p, s, c, t) == Ok(PrimaryDoc) <==> PrimaryWanted(p, t)
    ensures Dispatch(p, s, c, t) == Ok(SupportingDoc) <==> SupportingWanted(s, t)
    ensures Dispatch(p, s, c, t) == Ok(CommentDoc) <==> CommentWanted(c, t)
    ensures Dispatch(p, s, c, t) != Ok(NotRequested)
      <==> PrimaryWanted(p, t) || SupportingWanted(s, t) || CommentWanted(c, t)
  {
  }

  /** A listing record whose sort key could be read. */
  datatype Summary = Summary(id: string, fields: Object)

  /** `operator.itemgetter('documentId')` over the records, in order. A record that is not an
      object, or lacks the key, raises; an ID that is not a string is reported as TypeError. */
  function Summaries(items: seq<Json>): (r: Result<seq<Summary>>)
    ensures r.Ok? ==> |r.value| == |items|
    ensures r.Ok? ==> forall i :: 0 <= i < |items| ==>
      && items[i] == JObj(r.value[i].fields) && "documentId" in r.value[i].fields
      && r.value[i].fields["documentId"] == JStr(r.value[i].id)
  {
    if items == [] then Ok([])
    else if !items[0].JObj? then Err(TypeError)
    else if "documentId" !in items[0].fields then Err(KeyError("documentId"))
    else if !items[0].fields["documentId"].JStr? then Err(TypeError)
    else
      match Summaries(items[1..])
      case Err(f) => Err(f)
      case Ok(rest) => Ok([Summary(items[0].fields["documentId"].s, items[0].fields)] + rest)
  }

  /** `a <= b` for Python strings: code point by code point, a prefix before its extensions. */
  predicate Below(a: string, b: string)
    decreases |a|
  {
    a == [] || (b != [] && (a[0] < b[0] || (a[0] == b[0] && Below(a[1..], b[1..]))))
  }

  lemma {:induction false} BelowTotal(a: string, b: string)
    ensures Below(a, b) || Below(b, a)
    decreases |a|
  {
    if a != [] && b != [] && a[0] == b[0] {
      BelowTotal(a[1..], b[1..]);
    }
  }

  lemma {:induction false} BelowTrans(a: string, b: string, c: string)
    requires Below(a, b) && Below(b, c)
    ensures Below(a, c)
    decreases |a|
  {
    if a != [] && a[0] == b[0] && b[0] == c[0] {
      BelowTrans(a[1..], b[1..], c[1..]);
    }
  }

  lemma {:induction false} BelowAntisymmetric(a: string, b: string)
    requires Below(a, b) && Below(b, a)
    ensures a == b
    decreases |a|
  {
    if a != [] {
      BelowAntisymmetric(a[1..], b[1..]);
      assert a == [a[0]] + a[1..] && b == [b[0]] + b[1..];
    }
  }

  predicate SortedById(s: seq<Summary>) {
    forall i, j :: 0 <= i < j < |s| ==> Below(s[i].id, s[j].id)
  }

  /** Inserts `x` before the first record whose ID is not below it, which keeps records with
      equal IDs in their original order. */
  function Insert(x: Summary, s: seq<Summary>): (r: seq<Summary>)
    ensures multiset(r) == multiset(s) + multiset{x}
  {
    if s == [] then [x]
    else if Below(x.id, s[0].id) then [x] + s
    else
      assert s == [s[0]] + s[1..];
      [s[0]] + Insert(x, s[1..])
  }

  /** `sorted(list_of_records, key=operator.itemgetter('documentId'))`, as an insertion sort. */
  function SortById(s: seq<Summary>): (r: seq<Summary>)
    ensures multiset(r) == multiset(s)
  {
    if s == [] then []
    else
      assert s == [s[0]] + s[1..];
      Insert(s[0], SortById(s[1..]))
  }

  /** Every record of `Insert(x, s)` is `x` or a record of `s`. */
  lemma {:induction false} InsertMembers(x: Summary, s: seq<Summary>)
    ensures forall y :: y in Insert(x, s) ==> y == x || y in s
    decreases |s|
  {
    if s != [] && !Below(x.id, s[0].id) {
      InsertMembers(x, s[1..]);
    }
  }

  /** A record whose ID is below every ID of `s` stays below every ID after `x` is inserted,
      provided it is also below `x`. */
  lemma BelowInserted(h: Summary, x: Summary, s: seq<Summary>)
    requires Below(h.id, x.id)
    requires forall k :: 0 <= k < |s| ==> Below(h.id, s[k].id)
    ensures forall k :: 0 <= k < |Insert(x, s)| ==> Below(h.id, Insert(x, s)[k].id)
  {
    var r := Insert(x, s);
    InsertMembers(x, s);
    forall k | 0 <= k < |r| ensures Below(h.id, r[k].id) {
      assert r[k] in r;
      if r[k] != x {
        var m :| 0 <= m < |s| && s[m] == r[k];
      }
    }
  }

  lemma {:induction false} InsertSorted(x: Summary, s: seq<Summary>)
    requires SortedById(s)
    ensures SortedById(Insert(x, s))
    decreases |s|
  {
    if s == [] {
    } else if Below(x.id, s[0].id) {
      var r := [x] + s;
      forall i, j | 0 <= i < j < |r| ensures Below(r[i].id, r[j].id) {
        if i == 0 && j > 1 {
          BelowTrans(x.id, s[0].id, s[j - 1].id);
        }
      }
    } else {
      BelowTotal(x.id, s[0].id);
      var tail := Insert(x, s[1..]);
      InsertSorted(x, s[1..]);
      BelowInserted(s[0], x, s[1..]);
      var r := [s[0]] + tail;
      assert Insert(x, s) == r;
      forall i, j | 0 <= i < j < |r| ensures Below(r[i].id, r[j].id) {
        if i > 0 {
          assert r[i] == tail[i - 1] && r[j] == tail[j - 1];
        } else {
          assert r[j] == tail[j - 1];
        }
      }
    }
  }

  /** The sorted listing is ascending by document ID and holds the same records. */
  lemma {:induction false} SortByIdSorted(s: seq<Summary>)
    ensures SortedById(SortById(s)) && multiset(SortById(s)) == multiset(s)
    decreases |s|
  {
    if s != [] {
      SortByIdSorted(s[1..]);
      InsertSorted(s[0], SortById(s[1..]));
    }
  }

  lemma {:induction false} BelowReflexive(a: string)
    ensures Below(a, a)
    decreases |a|
  {
    if a != [] {
      BelowReflexive(a[1..]);
    }
  }

  /** No two records share a document ID. */
  predicate DistinctIds(s: seq<Summary>) {
    forall i, j :: 0 <= i < j < |s| ==> s[i].id != s[j].id
  }

  /** Two ascending arrangements of the same records with distinct IDs start alike. */
  lemma SortedHead(a: seq<Summary>, b: seq<Summary>)
    requires SortedById(a) && SortedById(b) && multiset(a) == multiset(b)
    requires a != [] && DistinctIds(a)
    ensures b != [] && a[0] == b[0]
  {
    assert a[0] in multiset(b) && |b| == |multiset(b)|;
    var j :| 0 <= j < |b| && b[j] == a[0];
    assert b[0] in multiset(a);
    var i :| 0 <= i < |a| && a[i] == b[0];
    BelowReflexive(a[0].id);
    BelowReflexive(b[0].id);
    assert Below(a[0].id, a[i].id);
    assert Below(b[0].id, b[j].id);
    BelowAntisymmetric(a[0].id, b[0].id);
    assert a[0].id == a[i].id;
    assert i == 0;
  }

  /** Removing equal first records from two permutations leaves permutations. */
  lemma TailMultiset(a: seq<Summary>, b: seq<Summary>)
    requires a != [] && b != [] && a[0] == b[0] && multiset(a) == multiset(b)
    ensures multiset(a[1..]) == multiset(b[1..])
  {
    assert a == [a[0]] + a[1..] && b == [b[0]] + b[1..];
    assert multiset(a) == multiset{a[0]} + multiset(a[1..]);
    assert multiset(b) == multiset{a[0]} + multiset(b[1..]);
    forall x ensures multiset(a[1..])[x] == multiset(b[1..])[x] {
      assert multiset(a)[x] == multiset{a[0]}[x] + multiset(a[1..])[x];
      assert multiset(b)[x] == multiset{a[0]}[x] + multiset(b[1..])[x];
    }
  }

  /** The records after the first of a sorted list are sorted. */
  lemma SortedTail(s: seq<Summary>)
    requires SortedById(s) && s != []
    ensures SortedById(s[1..])
  {
    forall p, q | 0 <= p < q < |s[1..]| ensures Below(s[1..][p].id, s[1..][q].id) {
      assert s[1..][p] == s[p + 1] && s[1..][q] == s[q + 1];
    }
  }

  /** With distinct document IDs (the registry's case), the ascending order is the only one:
      any two ascending arrangements of the same records are equal. */
  lemma {:induction false} SortedUnique(a: seq<Summary>, b: seq<Summary>)
    requires SortedById(a) && SortedById(b) && multiset(a) == multiset(b)
    requires DistinctIds(a)
    ensures a == b
    decreases |a|
  {
    if a == [] {
      assert |b| == |multiset(b)| == 0;
    } else {
      SortedHead(a, b);
      assert a == [a[0]] + a[1..] && b == [b[0]] + b[1..];
      TailMultiset(a, b);
      SortedTail(a);
      SortedTail(b);
      assert DistinctIds(a[1..]) by {
        forall p, q | 0 <= p < q < |a[1..]| ensures a[1..][p].id != a[1..][q].id {
          assert a[1..][p] == a[p + 1] && a[1..][q] == a[q + 1];
        }
      }
      SortedUnique(a[1..], b[1..]);
    }
  }

  /** A manifest cell: `worksheet.write` of a value, `write_number`, or `write_datetime`. */
  datatype Cell = Written(v: Json) | Number(n: int) | Date(year: int, month: int, day: int)

  /** The column titles of the header row (views.py:405-406). */
  const Fields: seq<string> :=
    ["Document ID", "Link", "Document Type", "Document Title", "Submitter Name",
     "Organization Name", "Date Posted", "Attachment Count", "Attachment Link(s)"]

  /** Row 0: `worksheet.write_row(0, 0, fields, bold)`. */
  function HeaderRow(): (r: map<nat, Cell>)
    ensures forall k :: k in r <==> 0 <= k < 9
  {
    map k | 0 <= k < 9 :: Written(JStr(Fields[k]))
  }

  /** The first occurrence of "T00" at or after `j`. */
  function FirstT00(s: string, j: nat): (r: Option<nat>)
    ensures r.Some? ==> j <= r.value && OccursAt(s, "T00", r.value)
    ensures r.Some? ==> forall k :: j <= k < r.value ==> !OccursAt(s, "T00", k)
    ensures r.None? ==> forall k :: j <= k ==> !OccursAt(s, "T00", k)
    decreases |s| - j
  {
    if j + 3 > |s| then None
    else if OccursAt(s, "T00", j) then Some(j)
    else FirstT00(s, j + 1)
  }

  /** The start of the line `j` is on: one past the last newline before `j`, or 0. */
  function LineStart(s: string, j: nat): (a: nat)
    requires j <= |s|
    ensures a <= j && (a == 0 || s[a - 1] == '\n')
    ensures forall k :: a <= k < j ==> s[k] != '\n'
  {
    if j == 0 || s[j - 1] == '\n' then j else LineStart(s, j - 1)
  }

  /** `re.search("(.*?)T00", s).group(1)`, None where `.group` would be taken of None. The
      leftmost match starts at the beginning of the line holding the first "T00" (`.` does not
      match a newline) and the lazy group stops at that "T00". */
  function BeforeT00(s: string): (r: Option<string>)
    ensures r.Some? <==> exists k | 0 <= k <= |s| :: OccursAt(s, "T00", k)
    ensures r.Some? ==> forall k :: 0 <= k < |r.value| ==> r.value[k] != '\n'
  {
    match FirstT00(s, 0)
    case None => None
    case Some(j) => Some(s[LineStart(s, j)..j])
  }

  predicate Leap(y: int) {
    y % 4 == 0 && (y % 100 != 0 || y % 400 == 0)
  }

  function DaysIn(y: int, m: int): int {
    if m == 2 then (if Leap(y) then 29 else 28)
    else if m == 4 || m == 6 || m == 9 || m == 11 then 30
    else 31
  }

  /** `datetime.strptime(reg, '%Y-%m-%d')` for the zero-padded form: four digits, '-', two
      digits, '-', two digits, naming a day of the proleptic Gregorian calendar from year 1. */
  function ParseYmd(reg: string): (r: Option<(int, int, int)>)
    ensures r.Some? ==> var (y, m, d) := r.value; 1 <= y && 1 <= m <= 12 && 1 <= d <= DaysIn(y, m)
  {
    if |reg| != 10 || reg[4] != '-' || reg[7] != '-'
       || !AllDigits(reg[0..4]) || !AllDigits(reg[5..7]) || !AllDigits(reg[8..10])
    then None
    else
      var y := DigitsValue(reg[0..4]);
      var m := DigitsValue(reg[5..7]);
      var d := DigitsValue(reg[8..10]);
      if 1 <= y && 1 <= m <= 12 && 1 <= d <= DaysIn(y, m) then Some((y, m, d)) else None
  }

  /** The "Date Posted" cell (views.py:458-468) from the raw `postedDate` value (JNull when the
      key is missing): nothing for "", a date, or "" when the text before "T00" is not a date.
      A value that is not a string, or a string with no "T00", makes the search raise. */
  function DateCell(posted: Json): (r: Result<Option<Cell>>)
    ensures r.Ok? ==> (r.value.None? <==> posted == JStr(""))
    ensures r.Ok? && r.value.Some? ==> r.value.value.Date? || r.value.value == Written(JStr(""))
  {
    if posted == JStr("") then Ok(None)
    else if !posted.JStr? then Err(TypeError)
    else
      match BeforeT00(posted.s)
      case None => Err(TypeError)
      case Some(reg) =>
        match ParseYmd(reg)
        case Some((y, m, d)) => Ok(Some(Date(y, m, d)))
        case None => Ok(Some(Written(JStr(""))))
  }

  /** Every character of a date ParseYmd accepts is a digit or '-'. */
  lemma DateChars(date: string, k: int)
    requires ParseYmd(date).Some? && 0 <= k < |date|
    ensures date[k] == '-' || IsDigit(date[k])
  {
    if k < 4 {
      assert date[0..4][k] == date[k];
    } else if 5 <= k < 7 {
      assert date[5..7][k - 5] == date[k];
    } else if 8 <= k {
      assert date[8..10][k - 8] == date[k];
    }
  }

  /** A registry timestamp of the usual shape gives its date. */
  lemma PostedDate(date: string, time: string)
    requires ParseYmd(date).Some?
    ensures var (y, m, d) := ParseYmd(date).value;
      DateCell(JStr(date + "T00" + time)) == Ok(Some(Date(y, m, d)))
  {
    var s := date + "T00" + time;
    assert OccursAt(s, "T00", |date|) by { assert s[|date|..|date| + 3] == "T00"; }
    forall k | 0 <= k < |date| ensures !OccursAt(s, "T00", k) && s[k] != '\n' {
      DateChars(date, k);
      assert s[k] == date[k];
      if k + 3 <= |s| {
        assert s[k..k + 3][0] == date[k];
      }
    }
    var j := FirstT00(s, 0).value;
    assert j == |date|;
    LineStartNoNewline(s, j);
    assert s[0..j] == date by {
      assert |s[0..j]| == |date|;
      forall k | 0 <= k < |date| ensures s[0..j][k] == date[k] {
        assert s[0..j][k] == s[k];
      }
    }
    assert BeforeT00(s) == Some(date);
    assert s != "" && JStr(s).JStr?;
  }

  lemma {:induction false} LineStartNoNewline(s: string, j: nat)
    requires j <= |s| && forall k :: 0 <= k < j ==> s[k] != '\n'
    ensures LineStart(s, j) == 0
    decreases j
  {
    if j > 0 {
      LineStartNoNewline(s, j - 1);
    }
  }

  /** `'=HYPERLINK("%s")' % l`. */
  function Hyperlink(l: string): string {
    "=HYPERLINK(\"" + l + "\")"
  }

  /** The "Link" cell (views.py:475-478). */
  function LinkCell(link: string): Cell {
    if link == "See attached" then Written(JStr("See attached")) else Written(JStr(Hyperlink(link)))
  }

  /** The attachment links in columns 8, 9, ... (views.py:480-483). */
  function AttachmentCells(attachments: seq<string>): (r: map<nat, Cell>)
    ensures forall k :: k in r <==> 8 <= k < 8 + |attachments|
  {
    map k | 8 <= k < 8 + |attachments| :: AttachmentCell(attachments, k)
  }

  /** Column `k` of the attachment links. */
  function AttachmentCell(attachments: seq<string>, k: nat): Cell
    requires 8 <= k < 8 + |attachments|
  {
    Written(JStr(Hyperlink(attachments[k - 8])))
  }

  /** The cells of the row of a record (views.py:455-483), column by column after every write:
      the `''` that write_row puts in column 1 is overwritten by the link. The date is decided
      before the attachment count, and `int()` of a missing count ('') raises. */
  function RowCells(documentId: string, docType: Json, detail: Object, links: RowLinks)
    : Result<map<nat, Cell>>
  {
    var posted := if "postedDate" in detail then detail["postedDate"] else JNull;
    match DateCell(posted)
    case Err(f) => Err(f)
    case Ok(date) =>
      match IntOf(GetValue(detail, "attachmentCount"))
      case Err(f) => Err(f)
      case Ok(count) =>
        Ok(FixedCells(documentId, docType, detail, links.link, date, count)
           + AttachmentCells(links.attachments))
  }

  /** A row holds columns 0-5 and 7, column 6 exactly when a date was posted, and one column
      per attachment link from 8 on. */
  lemma RowKeys(documentId: string, docType: Json, detail: Object, links: RowLinks)
    requires RowCells(documentId, docType, detail, links).Ok?
    ensures forall k: nat :: k in RowCells(documentId, docType, detail, links).value <==>
      || k <= 5 || k == 7
      || (k == 6 && "postedDate" in detail && detail["postedDate"] != JStr(""))
      || 8 <= k < 8 + |links.attachments|
  {
    var posted := if "postedDate" in detail then detail["postedDate"] else JNull;
    var date := DateCell(posted).value;
    var count := IntOf(GetValue(detail, "attachmentCount")).value;
    var fixed := FixedCells(documentId, docType, detail, links.link, date, count);
    var tail := AttachmentCells(links.attachments);
    assert RowCells(documentId, docType, detail, links).value == fixed + tail;
    assert date.Some? <==> "postedDate" in detail && detail["postedDate"] != JStr("");
  }

  /** Column 0 is the document ID, column 1 the link, and column 8 + i the hyperlink to the
      i-th attachment link, in order. */
  lemma RowLinkCells(documentId: string, docType: Json, detail: Object, links: RowLinks)
    requires RowCells(documentId, docType, detail, links).Ok?
    ensures var cells := RowCells(documentId, docType, detail, links).value;
      && cells[0] == Written(JStr(documentId))
      && cells[1] == LinkCell(links.link)
      && forall i :: 0 <= i < |links.attachments| ==>
           cells[8 + i] == Written(JStr(Hyperlink(links.attachments[i])))
  {
    var posted := if "postedDate" in detail then detail["postedDate"] else JNull;
    var date := DateCell(posted).value;
    var count := IntOf(GetValue(detail, "attachmentCount")).value;
    var fixed := FixedCells(documentId, docType, detail, links.link, date, count);
    assert RowCells(documentId, docType, detail, links).value
      == fixed + AttachmentCells(links.attachments);
    assert fixed[0] == Written(JStr(documentId)) && fixed[1] == LinkCell(links.link);
    MergedCells(fixed, links.attachments);
  }

  /** Cells below column 8 merged with the attachment columns keep their values, and column
      8 + i holds the i-th link. */
  lemma MergedCells(fixed: map<nat, Cell>, attachments: seq<string>)
    requires 0 in fixed && 1 in fixed && forall k :: k in fixed ==> k < 8
    ensures var cells := fixed + AttachmentCells(attachments);
      && cells[0] == fixed[0] && cells[1] == fixed[1]
      && forall i :: 0 <= i < |attachments| ==>
           cells[8 + i] == Written(JStr(Hyperlink(attachments[i])))
  {
    var tail := AttachmentCells(attachments);
    var cells := fixed + tail;
    assert 0 !in tail && 1 !in tail;
    forall i | 0 <= i < |attachments|
      ensures cells[8 + i] == Written(JStr(Hyperlink(attachments[i])))
    {
      assert 8 + i in tail;
      assert cells[8 + i] == tail[8 + i] == AttachmentCell(attachments, 8 + i);
    }
  }

  /** The cells a row holds besides the attachment links. */
  function FixedCells(documentId: string, docType: Json, detail: Object, link: string,
                      date: Option<Cell>, count: int): (r: map<nat, Cell>)
    ensures forall k: nat :: k in r <==> k <= 5 || k == 7 || (k == 6 && date.Some?)
  {
    var fixed := map[0 := Written(JStr(documentId)), 1 := LinkCell(link),
                     2 := Written(docType), 3 := Written(GetValue(detail, "title")),
                     4 := Written(GetValue(detail, "submitterName")),
                     5 := Written(GetValue(detail, "organization")), 7 := Number(count)];
    if date.Some? then fixed[6 := date.value] else fixed
  }

  /** A trivial comment's link reaches the manifest as "", so its cell is `=HYPERLINK("")` and
      never the text "See attached". */
  lemma TrivialCommentCell()
    ensures LinkCell("") == Written(JStr("=HYPERLINK(\"\")"))
  {
    assert "=HYPERLINK(\"" + "" + "\")" == "=HYPERLINK(\"\")";
  }
}
