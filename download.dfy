/** `dlfiles` (views.py:196-244) and the attachment loop shared by `dlcontent` and `dlcomments`
    (views.py:275-281, 320-325). The registry's download responses are an oracle keyed by the
    file-format URL; the disk is the predicate `canWrite` on the paths a file is opened at. */
module Download {
  import opened Text
  import opened Faults
  import opened Json
  import opened Quota
  import opened FileNames
  import opened Workspace

  /** The registry's answer to the download of a file-format URL: the quota values of successive
      responses and the Content-Disposition header of the accepted one (None when it has none). */
  type Downloads = string -> Response<Option<string>>

  /** The values of `file_ext` and `document_ID` between iterations of dlfiles' loop. A failed
      extraction leaves the previous iteration's value in place; None is a name never bound. */
  datatype Carry = Carry(ext: Option<string>, id: Option<string>)

  /** The extension and document ID every carried value was extracted as. */
  predicate CarryWellFormed(c: Carry) {
    && (c.ext.Some? ==> IsExtension(c.ext.value))
    && (c.id.Some? ==> |c.id.value| >= 1 && IsDigit(c.id.value[|c.id.value| - 1]))
  }

  /** The carry after a header `cd` and URL `url`: each value is replaced when it can be extracted
      (views.py:223-230). */
  function Next(cd: string, url: string, carry: Carry): Carry {
    Carry(if ExtractExtension(cd).Some? then ExtractExtension(cd) else carry.ext,
          if ExtractDocumentId(url).Some? then ExtractDocumentId(url) else carry.id)
  }

  /** The entry for `url` once the carry `c` holds the names in scope (views.py:231-243): the
      saved path, or "N/A" when a name is unbound or the file cannot be written. */
  function Entry(path: string, url: string, c: Carry, canWrite: string -> bool): string {
    var num := NumSuffix(url);
    if c.ext.Some? && c.id.Some? && canWrite(Join(path, c.id.value + num + c.ext.value))
    then path + "/" + c.id.value + num + c.ext.value
    else "N/A"
  }

  /** One iteration of dlfiles' loop over `format`: the entry appended to `files` (None when the
      header is the string 'None') and the carry left for the next iteration. */
  function FileStep(path: string, format: Json, downloads: Downloads, canWrite: string -> bool,
                    carry: Carry): Result<(Option<string>, Carry)>
  {
    if !format.JStr? then Err(TypeError)
    else
      var reply := downloads(format.s);
      match QuotaOutcome(reply.remaining)
      case Err(f) => Err(f)
      case Ok(_) =>
        match reply.body
        case None => Err(TypeError)
        case Some(cd) =>
          if cd == "None" then Ok((None, carry))
          else
            var next := Next(cd, format.s, carry);
            Ok((Some(Entry(path, format.s, next, canWrite)), next))
  }

  /** `files + rest` once `rest` is known, or the failure that produced it. */
  function Prepend(files: seq<string>, r: Result<seq<string>>): Result<seq<string>> {
    match r
    case Ok(rest) => Ok(files + rest)
    case Err(f) => Err(f)
  }

  lemma PrependNothing(r: Result<seq<string>>)
    ensures Prepend([], r) == r
  {
    if r.Ok? {
      assert [] + r.value == r.value;
    }
  }

  lemma PrependAppend(files: seq<string>, more: seq<string>, r: Result<seq<string>>)
    ensures Prepend(files, Prepend(more, r)) == Prepend(files + more, r)
  {
    if r.Ok? {
      assert files + (more + r.value) == (files + more) + r.value;
    }
  }

  /** The number of format URLs that produce an entry: those whose header is not 'None'. */
  function Kept(formats: seq<Json>, downloads: Downloads): (n: nat)
    ensures n <= |formats|
  {
    if formats == [] then 0
    else
      (if formats[0].JStr? && downloads(formats[0].s).body != Some("None") then 1 else 0)
      + Kept(formats[1..], downloads)
  }

  /** dlfiles(formats, logfile, path) starting from the carry `carry`. */
  function Batch(path: string, formats: seq<Json>, downloads: Downloads, canWrite: string -> bool,
                 carry: Carry): (r: Result<seq<string>>)
    ensures r.Ok? ==> |r.value| == Kept(formats, downloads) <= |formats|
    decreases |formats|
  {
    if formats == [] then Ok([])
    else
      match FileStep(path, formats[0], downloads, canWrite, carry)
      case Err(f) => Err(f)
      case Ok((entry, next)) =>
        Prepend(if entry.Some? then [entry.value] else [],
                Batch(path, formats[1..], downloads, canWrite, next))
  }

  /** One step of Batch from position `i`. */
  lemma BatchUnfold(path: string, formats: seq<Json>, i: nat, downloads: Downloads,
                    canWrite: string -> bool, carry: Carry)
    requires i < |formats|
    ensures Batch(path, formats[i..], downloads, canWrite, carry)
      == match FileStep(path, formats[i], downloads, canWrite, carry)
         case Err(f) => Err(f)
         case Ok((entry, next)) =>
           Prepend(if entry.Some? then [entry.value] else [],
                   Batch(path, formats[i + 1..], downloads, canWrite, next))
  {
    assert formats[i..][0] == formats[i] && formats[i..][1..] == formats[i + 1..];
  }

  /** dlfiles(list_of_file_formats, logfile, PATH). */
  method DownloadFiles(path: string, formats: seq<Json>, downloads: Downloads, canWrite: string -> bool)
    returns (r: Result<seq<string>>)
    ensures r == Batch(path, formats, downloads, canWrite, Carry(None, None))
  {
    var files: seq<string> := [];
    var fileExt: Option<string> := None;
    var documentId: Option<string> := None;
    var i := 0;
    assert formats[i..] == formats;
    PrependNothing(Batch(path, formats, downloads, canWrite, Carry(None, None)));
    while i < |formats|
      invariant 0 <= i <= |formats|
      invariant Batch(path, formats, downloads, canWrite, Carry(None, None))
        == Prepend(files, Batch(path, formats[i..], downloads, canWrite, Carry(fileExt, documentId)))
    {
      var format := formats[i];
      ghost var carry, before := Carry(fileExt, documentId), files;
      BatchUnfold(path, formats, i, downloads, canWrite, carry);
      if !format.JStr? {
        return Err(TypeError);
      }
      var reply := downloads(format.s);
      var request, _ := CheckQuotaAndGet(format.s, reply.remaining);
      if request.Err? {
        return Err(request.fault);
      }
      if reply.body.None? {
        return Err(TypeError);
      }
      var cd := reply.body.value;
      if cd != "None" {
        var ext := ExtractExtension(cd);
        if ext.Some? {
          fileExt := ext;
        }
        var id := ExtractDocumentId(format.s);
        if id.Some? {
          documentId := id;
        }
        var fileNum := NumSuffix(format.s);
        if fileExt.Some? && documentId.Some?
           && canWrite(Join(path, documentId.value + fileNum + fileExt.value))
        {
          files := files + [path + "/" + documentId.value + fileNum + fileExt.value];
        } else {
          files := files + ["N/A"];
        }
        ghost var next := Carry(fileExt, documentId);
        assert next == Next(cd, format.s, carry);
        assert files == before + [Entry(path, format.s, next, canWrite)];
        assert FileStep(path, format, downloads, canWrite, carry)
          == Ok((Some(Entry(path, format.s, next, canWrite)), next));
        PrependAppend(before, [Entry(path, format.s, next, canWrite)],
                      Batch(path, formats[i + 1..], downloads, canWrite, next));
      } else {
        assert FileStep(path, format, downloads, canWrite, carry) == Ok((None, carry));
        PrependNothing(Batch(path, formats[i + 1..], downloads, canWrite, carry));
      }
      i := i + 1;
    }
    assert formats[i..] == [] && files + [] == files;
    r := Ok(files);
  }

  /** A saved entry: the folder, a '/', and a name that ends in an extension. */
  predicate SavedUnder(path: string, e: string) {
    && StartsWith(e, path + "/")
    && LastDot(e).Some? && IsExtension(e[LastDot(e).value..])
  }

  lemma LastDotOfExtension(x: string, ext: string)
    requires IsExtension(ext)
    ensures LastDot(x + ext) == Some(|x|)
  {
    var s := x + ext;
    assert s[|x|] == '.';
    forall i | |x| < i < |s| ensures s[i] != '.' {
      assert s[i] == ext[i - |x|];
    }
  }

  /** An entry built from extracted names is "N/A" or a path under the folder. */
  lemma EntryShape(path: string, url: string, c: Carry, canWrite: string -> bool)
    requires CarryWellFormed(c)
    ensures var e := Entry(path, url, c, canWrite); e == "N/A" || SavedUnder(path, e)
  {
    var e := Entry(path, url, c, canWrite);
    if e != "N/A" {
      var x := path + "/" + c.id.value + NumSuffix(url);
      assert e == x + c.ext.value;
      LastDotOfExtension(x, c.ext.value);
      assert e[|x|..] == c.ext.value;
      assert e[..|path + "/"|] == path + "/";
    }
  }

  lemma NextWellFormed(cd: string, url: string, c: Carry)
    requires CarryWellFormed(c)
    ensures CarryWellFormed(Next(cd, url, c))
  {
  }

  /** Every entry dlfiles returns is "N/A" or a path under the folder ending in an extension,
      whatever the carry it starts from, as long as the carry holds extracted values. */
  lemma {:induction false} BatchEntries(path: string, formats: seq<Json>, downloads: Downloads,
                                        canWrite: string -> bool, carry: Carry)
    requires CarryWellFormed(carry)
    ensures var r := Batch(path, formats, downloads, canWrite, carry);
      r.Ok? ==> forall k :: 0 <= k < |r.value| ==> r.value[k] == "N/A" || SavedUnder(path, r.value[k])
    decreases |formats|
  {
    if formats != [] && FileStep(path, formats[0], downloads, canWrite, carry).Ok? {
      var step := FileStep(path, formats[0], downloads, canWrite, carry);
      var entry, next := step.value.0, step.value.1;
      var cd := downloads(formats[0].s).body.value;
      if cd != "None" {
        NextWellFormed(cd, formats[0].s, carry);
        assert next == Next(cd, formats[0].s, carry);
        assert entry == Some(Entry(path, formats[0].s, next, canWrite));
        EntryShape(path, formats[0].s, next, canWrite);
      } else {
        assert entry.None? && next == carry;
      }
      var rest := Batch(path, formats[1..], downloads, canWrite, next);
      BatchEntries(path, formats[1..], downloads, canWrite, next);
      var head := if entry.Some? then [entry.value] else [];
      assert Batch(path, formats, downloads, canWrite, carry) == Prepend(head, rest);
      if rest.Ok? {
        var all := head + rest.value;
        forall k | 0 <= k < |all| ensures all[k] == "N/A" || SavedUnder(path, all[k]) {
          if k >= |head| {
            assert all[k] == rest.value[k - |head|];
          } else {
            assert all[k] == entry.value;
          }
        }
      }
    }
  }

  /** `PATH/<document ID><file_num><extension>` for a URL and header both names can be extracted
      from (views.py:223-237). */
  function SavedPath(path: string, url: string, cd: string): string
    requires ExtractExtension(cd).Some? && ExtractDocumentId(url).Some?
  {
    path + "/" + ExtractDocumentId(url).value + NumSuffix(url) + ExtractExtension(cd).value
  }

  /** A file-format entry whose download is accepted with a header other than 'None', whose URL
      holds a document ID and whose header an extension, and whose file can be written. */
  predicate Named(path: string, format: Json, downloads: Downloads, canWrite: string -> bool) {
    && format.JStr?
    && QuotaOutcome(downloads(format.s).remaining).Ok?
    && downloads(format.s).body.Some?
    && var cd := downloads(format.s).body.value;
       && cd != "None"
       && ExtractExtension(cd).Some? && ExtractDocumentId(format.s).Some?
       && canWrite(Join(path, ExtractDocumentId(format.s).value + NumSuffix(format.s)
                              + ExtractExtension(cd).value))
  }

  /** The path a named file-format entry is saved at. */
  function NamedPath(path: string, format: Json, downloads: Downloads, canWrite: string -> bool)
    : string
    requires Named(path, format, downloads, canWrite)
  {
    SavedPath(path, format.s, downloads(format.s).body.value)
  }

  /** When every file names itself, nothing is carried over: entry k of the batch is the k-th
      URL's own `PATH/<ID><file_num><ext>`, in input order, whatever the carry. */
  lemma {:induction false} BatchInOrder(path: string, formats: seq<Json>, downloads: Downloads,
                                        canWrite: string -> bool, carry: Carry)
    requires forall k :: 0 <= k < |formats| ==> Named(path, formats[k], downloads, canWrite)
    ensures var r := Batch(path, formats, downloads, canWrite, carry);
      && r.Ok? && |r.value| == |formats|
      && forall k :: 0 <= k < |formats| ==> r.value[k] == NamedPath(path, formats[k], downloads, canWrite)
    decreases |formats|
  {
    if formats != [] {
      var url := formats[0].s;
      var cd := downloads(url).body.value;
      assert Named(path, formats[0], downloads, canWrite);
      var next := Next(cd, url, carry);
      var e := NamedPath(path, formats[0], downloads, canWrite);
      assert Entry(path, url, next, canWrite) == e;
      assert FileStep(path, formats[0], downloads, canWrite, carry) == Ok((Some(e), next));
      forall k | 0 <= k < |formats[1..]| ensures Named(path, formats[1..][k], downloads, canWrite) {
        assert formats[1..][k] == formats[k + 1];
      }
      BatchInOrder(path, formats[1..], downloads, canWrite, next);
      var rest := Batch(path, formats[1..], downloads, canWrite, next).value;
      assert Batch(path, formats, downloads, canWrite, carry) == Ok([e] + rest);
      forall k | 0 <= k < |formats|
        ensures ([e] + rest)[k] == NamedPath(path, formats[k], downloads, canWrite)
      {
        if k > 0 {
          assert ([e] + rest)[k] == rest[k - 1];
          assert formats[1..][k - 1] == formats[k];
        }
      }
    }
  }

  /** A header with no extension reuses the extension of an earlier file in the same batch: the
      second file is saved under the first file's extension. */
  lemma StaleExtension(path: string, u1: string, u2: string, cd1: string, cd2: string,
                       downloads: Downloads, canWrite: string -> bool)
    requires downloads(u1) == Response([1], Some(cd1)) && downloads(u2) == Response([1], Some(cd2))
    requires cd1 != "None" && cd2 != "None"
    requires ExtractExtension(cd1).Some? && ExtractExtension(cd2).None?
    requires ExtractDocumentId(u1).Some? && ExtractDocumentId(u2).Some?
    requires forall p :: canWrite(p)
    ensures var e1 := ExtractExtension(cd1).value;
      Batch(path, [JStr(u1), JStr(u2)], downloads, canWrite, Carry(None, None))
        == Ok([path + "/" + ExtractDocumentId(u1).value + NumSuffix(u1) + e1,
               path + "/" + ExtractDocumentId(u2).value + NumSuffix(u2) + e1])
  {
    var e1 := ExtractExtension(cd1).value;
    var c1 := Carry(Some(e1), ExtractDocumentId(u1));
    var c2 := Carry(Some(e1), ExtractDocumentId(u2));
    var f1 := path + "/" + ExtractDocumentId(u1).value + NumSuffix(u1) + e1;
    var f2 := path + "/" + ExtractDocumentId(u2).value + NumSuffix(u2) + e1;
    assert QuotaOutcome([1]) == Ok(0);
    assert Next(cd1, u1, Carry(None, None)) == c1;
    assert Next(cd2, u2, c1) == c2;
    assert Entry(path, u1, c1, canWrite) == f1;
    assert Entry(path, u2, c2, canWrite) == f2;
    assert FileStep(path, JStr(u1), downloads, canWrite, Carry(None, None)) == Ok((Some(f1), c1));
    assert FileStep(path, JStr(u2), downloads, canWrite, c1) == Ok((Some(f2), c2));
    BatchUnfold(path, [JStr(u1), JStr(u2)], 0, downloads, canWrite, Carry(None, None));
    BatchUnfold(path, [JStr(u1), JStr(u2)], 1, downloads, canWrite, c1);
    assert [JStr(u1), JStr(u2)][0..] == [JStr(u1), JStr(u2)];
    assert [JStr(u1), JStr(u2)][2..] == [];
    assert [f1] + ([f2] + []) == [f1, f2];
  }

  /** When the first header carries no extension there is no earlier one to reuse: "N/A". */
  lemma FirstWithoutExtension(path: string, u: string, cd: string, downloads: Downloads,
                              canWrite: string -> bool)
    requires downloads(u) == Response([1], Some(cd)) && cd != "None" && ExtractExtension(cd).None?
    ensures Batch(path, [JStr(u)], downloads, canWrite, Carry(None, None)) == Ok(["N/A"])
  {
    var c := Next(cd, u, Carry(None, None));
    assert QuotaOutcome([1]) == Ok(0);
    assert c.ext.None?;
    assert FileStep(path, JStr(u), downloads, canWrite, Carry(None, None)) == Ok((Some("N/A"), c));
    BatchUnfold(path, [JStr(u)], 0, downloads, canWrite, Carry(None, None));
    assert [JStr(u)][0..] == [JStr(u)];
    assert [JStr(u)][1..] == [];
    assert ["N/A"] + [] == ["N/A"];
  }

  /** The files a `fileFormats` entry of an attachment lists: `attachment["fileFormats"]`. */
  function AttachmentFormats(attachment: Json): Result<seq<Json>> {
    if !attachment.JObj? then Err(TypeError)
    else if "fileFormats" !in attachment.fields then Err(KeyError("fileFormats"))
    else Iterate(attachment.fields["fileFormats"])
  }

  /** `dlfiles(attachment["fileFormats"], ...)`. */
  function AttachmentBatch(path: string, attachment: Json, downloads: Downloads, canWrite: string -> bool)
    : Result<seq<string>>
  {
    match AttachmentFormats(attachment)
    case Err(f) => Err(f)
    case Ok(formats) => Batch(path, formats, downloads, canWrite, Carry(None, None))
  }

  /** `r1 + r2` for two results, the first failure winning. */
  function Concat(r1: Result<seq<string>>, r2: Result<seq<string>>): Result<seq<string>> {
    match r1
    case Ok(files) => Prepend(files, r2)
    case Err(f) => Err(f)
  }

  lemma ConcatAssoc(a: Result<seq<string>>, b: Result<seq<string>>, c: Result<seq<string>>)
    ensures Concat(a, Concat(b, c)) == Concat(Concat(a, b), c)
  {
    if a.Ok? && b.Ok? && c.Ok? {
      assert a.value + (b.value + c.value) == (a.value + b.value) + c.value;
    }
  }

  /** `attachment_links.extend(dlfiles(...))` for each attachment in turn. */
  function AttachmentFiles(path: string, attachments: seq<Json>, downloads: Downloads,
                           canWrite: string -> bool): Result<seq<string>>
    decreases |attachments|
  {
    if attachments == [] then Ok([])
    else Concat(AttachmentBatch(path, attachments[0], downloads, canWrite),
                AttachmentFiles(path, attachments[1..], downloads, canWrite))
  }

  lemma AttachmentFilesUnfold(path: string, attachments: seq<Json>, i: nat, downloads: Downloads,
                               canWrite: string -> bool)
    requires i < |attachments|
    ensures AttachmentFiles(path, attachments[i..], downloads, canWrite)
      == Concat(AttachmentBatch(path, attachments[i], downloads, canWrite),
                AttachmentFiles(path, attachments[i + 1..], downloads, canWrite))
  {
    assert attachments[i..][0] == attachments[i] && attachments[i..][1..] == attachments[i + 1..];
  }

  /** The attachment links of a record (views.py:275-281 and 320-325): none when the count is 0,
      '0' or ''; otherwise the files of each entry of "attachments", in order. */
  function Attachments(detail: Object, path: string, downloads: Downloads, canWrite: string -> bool)
    : Result<seq<string>>
  {
    match CountIsZero(GetValue(detail, "attachmentCount"))
    case Err(f) => Err(f)
    case Ok(zero) =>
      if zero then Ok([])
      else if "attachments" !in detail then Err(KeyError("attachments"))
      else
        match Iterate(detail["attachments"])
        case Err(f) => Err(f)
        case Ok(items) => AttachmentFiles(path, items, downloads, canWrite)
  }

  /** The attachment loop of dlcontent and dlcomments. */
  method DownloadAttachments(detail: Object, path: string, downloads: Downloads, canWrite: string -> bool)
    returns (r: Result<seq<string>>)
    ensures r == Attachments(detail, path, downloads, canWrite)
  {
    var zero := CountIsZero(GetValue(detail, "attachmentCount"));
    if zero.Err? {
      return Err(zero.fault);
    }
    var attachmentLinks: seq<string> := [];
    if !zero.value {
      if "attachments" !in detail {
        return Err(KeyError("attachments"));
      }
      var listed := Iterate(detail["attachments"]);
      if listed.Err? {
        return Err(listed.fault);
      }
      var attachments := listed.value;
      var i := 0;
      assert attachments[i..] == attachments;
      PrependNothing(AttachmentFiles(path, attachments, downloads, canWrite));
      while i < |attachments|
        invariant 0 <= i <= |attachments|
        invariant AttachmentFiles(path, attachments, downloads, canWrite)
          == Prepend(attachmentLinks, AttachmentFiles(path, attachments[i..], downloads, canWrite))
      {
        AttachmentFilesUnfold(path, attachments, i, downloads, canWrite);
        var formats := AttachmentFormats(attachments[i]);
        if formats.Err? {
          return Err(formats.fault);
        }
        var files := DownloadFiles(path, formats.value, downloads, canWrite);
        assert files == AttachmentBatch(path, attachments[i], downloads, canWrite);
        if files.Err? {
          return Err(files.fault);
        }
        PrependAppend(attachmentLinks, files.value, AttachmentFiles(path, attachments[i + 1..], downloads, canWrite));
        attachmentLinks := attachmentLinks + files.value;
        i := i + 1;
      }
      assert attachments[i..] == [] && attachmentLinks + [] == attachmentLinks;
    }
    r := Ok(attachmentLinks);
  }

  /** Extending over two runs of attachments is extending over the first, then the second: the
      links of each attachment follow those of the attachments before it. */
  lemma {:induction false} AttachmentFilesAppend(path: string, xs: seq<Json>, ys: seq<Json>,
                                                 downloads: Downloads, canWrite: string -> bool)
    ensures AttachmentFiles(path, xs + ys, downloads, canWrite)
      == Concat(AttachmentFiles(path, xs, downloads, canWrite), AttachmentFiles(path, ys, downloads, canWrite))
    decreases |xs|
  {
    var rest := AttachmentFiles(path, ys, downloads, canWrite);
    if xs == [] {
      assert xs + ys == ys;
      PrependNothing(rest);
    } else {
      var first := AttachmentBatch(path, xs[0], downloads, canWrite);
      assert (xs + ys)[0] == xs[0] && (xs + ys)[1..] == xs[1..] + ys;
      assert AttachmentFiles(path, xs + ys, downloads, canWrite)
        == Concat(first, AttachmentFiles(path, xs[1..] + ys, downloads, canWrite));
      AttachmentFilesAppend(path, xs[1..], ys, downloads, canWrite);
      ConcatAssoc(first, AttachmentFiles(path, xs[1..], downloads, canWrite), rest);
    }
  }
}
