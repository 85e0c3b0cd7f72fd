/** What one record contributes: `dlcontent` for primary and supporting documents
    (views.py:246-282) and `dlcomments` for public comments (views.py:284-326). The detail response
    of the record is the decoded object `detail`; downloads and the disk are as in dlfiles. */
module Content {
  import opened Text
  import opened Faults
  import opened Json
  import opened Workspace
  import opened Download

  /** The "Link" entry dlcontent returns: `dlfiles(...)[0]`, a single path, or the list ["N/A"]
      its `except` branch assigns. */
  datatype LinkValue = Single(s: string) | Listed(items: seq<string>)

  /** The dictionary {"Link": ..., "Attachments": ...} dlcontent returns. */
  datatype Links = Links(link: LinkValue, attachments: seq<string>)

  /** The link of an unrestricted document (views.py:263-268): the first file of its own formats.
      Every failure inside the `try` (a missing "fileFormats", a failed download, an empty batch
      whose `[0]` raises IndexError) gives ["N/A"]; only a download that never returns escapes. */
  function MainLink(detail: Object, path: string, downloads: Downloads, canWrite: string -> bool)
    : (r: Result<LinkValue>)
  {
    if "fileFormats" !in detail then Ok(Listed(["N/A"]))
    else
      match Iterate(detail["fileFormats"])
      case Err(_) => Ok(Listed(["N/A"]))
      case Ok(formats) =>
        match Batch(path, formats, downloads, canWrite, Carry(None, None))
        case Err(f) => if f == Stalled then Err(Stalled) else Ok(Listed(["N/A"]))
        case Ok(files) => if files == [] then Ok(Listed(["N/A"])) else Ok(Single(files[0]))
  }

  /** The abstract step (views.py:269-273). A non-empty abstract is written to
      `<id>_abstract.html`, and the log line after it uses the format "%_abstract.html", whose
      conversion character '_' makes Python raise ValueError: a record with an abstract never
      completes. */
  function AbstractStep(documentId: string, detail: Object, path: string, canWrite: string -> bool)
    : Result<()>
  {
    var text := GetValue(detail, "abstract");
    var file := Join(path, documentId + "_abstract.html");
    if text == JStr("") then Ok(())
    else if !canWrite(file) then Err(WriteFailed(file))
    else if !text.JStr? then Err(TypeError)
    else Err(FormatError)
  }

  /** dlcontent(document_ID, request_response, logfile, PATH). The link is bound only when the
      document is not restricted; a restricted one fails at the `return` with UnboundLocalError. */
  function ContentLinks(documentId: string, detail: Object, path: string, downloads: Downloads,
                        canWrite: string -> bool): Result<Links>
  {
    var main: Result<Option<LinkValue>> :=
      if GetValue(detail, "restrictReason") != JStr("") then Ok(None)
      else match MainLink(detail, path, downloads, canWrite)
        case Ok(v) => Ok(Some(v))
        case Err(f) => Err(f);
    match main
    case Err(f) => Err(f)
    case Ok(fileLinks) =>
      match AbstractStep(documentId, detail, path, canWrite)
      case Err(f) => Err(f)
      case Ok(_) =>
        match Attachments(detail, path, downloads, canWrite)
        case Err(f) => Err(f)
        case Ok(attachmentLinks) =>
          if fileLinks.None? then Err(Unbound("file_links"))
          else Ok(Links(fileLinks.value, attachmentLinks))
  }

  /** dlcontent(document_ID, request_response, logfile, PATH). */
  method DownloadContent(documentId: string, detail: Object, path: string, downloads: Downloads,
                         canWrite: string -> bool) returns (r: Result<Links>)
    ensures r == ContentLinks(documentId, detail, path, downloads, canWrite)
  {
    var fileLinks: Option<LinkValue> := None;
    if GetValue(detail, "restrictReason") == JStr("") {
      if "fileFormats" !in detail {
        fileLinks := Some(Listed(["N/A"]));
      } else {
        var formats := Iterate(detail["fileFormats"]);
        if formats.Err? {
          fileLinks := Some(Listed(["N/A"]));
        } else {
          var files := DownloadFiles(path, formats.value, downloads, canWrite);
          if files == Err(Stalled) {
            return Err(Stalled);
          } else if files.Err? || files.value == [] {
            fileLinks := Some(Listed(["N/A"]));
          } else {
            fileLinks := Some(Single(files.value[0]));
          }
        }
      }
    }
    var text := GetValue(detail, "abstract");
    if text != JStr("") {
      var file := Join(path, documentId + "_abstract.html");
      if !canWrite(file) {
        return Err(WriteFailed(file));
      }
      if !text.JStr? {
        return Err(TypeError);
      }
      return Err(FormatError);
    }
    var attachmentLinks := DownloadAttachments(detail, path, downloads, canWrite);
    if attachmentLinks.Err? {
      return Err(attachmentLinks.fault);
    }
    if fileLinks.None? {
      return Err(Unbound("file_links"));
    }
    r := Ok(Links(fileLinks.value, attachmentLinks.value));
  }

  /** A restricted document never completes: its link is never bound. */
  lemma RestrictedFails(documentId: string, detail: Object, path: string, downloads: Downloads,
                        canWrite: string -> bool)
    requires GetValue(detail, "restrictReason") != JStr("")
    ensures ContentLinks(documentId, detail, path, downloads, canWrite).Err?
  {
  }

  /** A document with a non-empty abstract never completes. */
  lemma AbstractFails(documentId: string, detail: Object, path: string, downloads: Downloads,
                      canWrite: string -> bool)
    requires GetValue(detail, "abstract") != JStr("")
    ensures ContentLinks(documentId, detail, path, downloads, canWrite).Err?
  {
  }

  /** A completed dlcontent: the link is the first file of the document's own batch or ["N/A"],
      and the attachment links are those of the attachment loop. */
  lemma ContentShape(documentId: string, detail: Object, path: string, downloads: Downloads,
                     canWrite: string -> bool)
    ensures var r := ContentLinks(documentId, detail, path, downloads, canWrite);
      r.Ok? ==>
        && GetValue(detail, "restrictReason") == JStr("")
        && GetValue(detail, "abstract") == JStr("")
        && Attachments(detail, path, downloads, canWrite) == Ok(r.value.attachments)
        && (r.value.link == Listed(["N/A"])
            || (&& "fileFormats" in detail && Iterate(detail["fileFormats"]).Ok?
                && var b := Batch(path, Iterate(detail["fileFormats"]).value, downloads, canWrite, Carry(None, None));
                   b.Ok? && b.value != [] && r.value.link == Single(b.value[0])))
  {
  }

  /** The comment bodies that count as "see the attachment", after `lower().strip()`. */
  const TrivialBodies: set<string> :=
    {"", "see attached", "see attached file", "see attached files", "see attached file(s)"}

  /** The triviality test of views.py:310. */
  predicate Trivial(text: string) {
    Strip(Lower(text)) in TrivialBodies
  }

  /** The markup between the pieces of a comment's fragment. */
  const HeadingOpen: string := "<h2>"
  const TitleOpen: string := "</h2><h3>"
  const SubmitterLabel: string := "</h3><b>Submitter Name:</b> "
  const OrganizationLabel: string := " <b>Organization Name:</b> "
  const CommentLabel: string := "<br><b>Comment: </b>"

  /** The HTML fragment of a comment (views.py:308). */
  function Fragment(documentId: string, title: string, submitter: string, organization: string,
                    comment: string): string
  {
    HeadingOpen + documentId + TitleOpen + title + SubmitterLabel + submitter
    + OrganizationLabel + organization + CommentLabel + comment
  }

  /** The fragment opens with the document ID as a heading and closes with the comment text. */
  lemma FragmentFrame(documentId: string, title: string, submitter: string, organization: string,
                      comment: string)
    ensures StartsWith(Fragment(documentId, title, submitter, organization, comment),
                       HeadingOpen + documentId + TitleOpen)
    ensures EndsWith(Fragment(documentId, title, submitter, organization, comment), comment)
  {
    var head := HeadingOpen + documentId + TitleOpen;
    var f := Fragment(documentId, title, submitter, organization, comment);
    var middle := title + SubmitterLabel + submitter + OrganizationLabel + organization + CommentLabel;
    assert f == head + middle + comment;
    assert f[..|head|] == head;
    assert f[|f| - |comment|..] == comment;
  }

  /** The dictionary {"HTML": ..., "Link": ..., "Attachments": ...} dlcomments returns. */
  datatype CommentLinks = CommentLinks(html: string, link: string, attachments: seq<string>)

  /** The fragment of the comment in `detail` (views.py:308). */
  function CommentFragment(documentId: string, detail: Object): string {
    Fragment(documentId, Str(GetValue(detail, "title")), Str(GetValue(detail, "submitterName")),
             Str(GetValue(detail, "organization")), Str(GetValue(detail, "comment")))
  }

  /** `all_html_comments` after a comment (views.py:310-311): unchanged for a trivial comment,
      otherwise with a newline and the comment's fragment appended. Either way the old document
      is a prefix of the new one. */
  function Accumulated(html: string, trivial: bool, fragment: string): (r: string)
    ensures StartsWith(r, html)
  {
    if trivial then html
    else
      var r := html + "\n" + fragment;
      assert r[..|html|] == html;
      r
  }

  /** dlcomments(document_ID, request_response, all_html_comments, logfile, PATH). A comment
      value that is not a string has no `lower()` and raises. */
  function CommentResult(documentId: string, detail: Object, html: string, path: string,
                         downloads: Downloads, canWrite: string -> bool): Result<CommentLinks>
  {
    var comment := GetValue(detail, "comment");
    var file := Join(path, documentId + ".html");
    if !comment.JStr? then Err(TypeError)
    else if !Trivial(comment.s) && !canWrite(file) then Err(WriteFailed(file))
    else
      match Attachments(detail, path, downloads, canWrite)
      case Err(f) => Err(f)
      case Ok(attachmentLinks) =>
        Ok(CommentLinks(Accumulated(html, Trivial(comment.s), CommentFragment(documentId, detail)),
                        if Trivial(comment.s) then "See attached" else path + "/" + documentId + ".html",
                        attachmentLinks))
  }

  /** dlcomments(document_ID, request_response, all_html_comments, logfile, PATH). */
  method DownloadComment(documentId: string, detail: Object, allHtmlComments: string, path: string,
                         downloads: Downloads, canWrite: string -> bool) returns (r: Result<CommentLinks>)
    ensures r == CommentResult(documentId, detail, allHtmlComments, path, downloads, canWrite)
  {
    var title := GetValue(detail, "title");
    var submitterName := GetValue(detail, "submitterName");
    var organizationName := GetValue(detail, "organization");
    var commentText := GetValue(detail, "comment");
    var commentAll := Fragment(documentId, Str(title), Str(submitterName), Str(organizationName),
                               Str(commentText));
    if !commentText.JStr? {
      return Err(TypeError);
    }
    var html := allHtmlComments;
    var fileLink: string;
    if !Trivial(commentText.s) {
      html := html + "\n" + commentAll;
      var file := Join(path, documentId + ".html");
      fileLink := path + "/" + documentId + ".html";
      if !canWrite(file) {
        return Err(WriteFailed(file));
      }
    } else {
      fileLink := "See attached";
    }
    var attachmentLinks := DownloadAttachments(detail, path, downloads, canWrite);
    if attachmentLinks.Err? {
      return Err(attachmentLinks.fault);
    }
    r := Ok(CommentLinks(html, fileLink, attachmentLinks.value));
  }

  lemma LowerEach(t: string, low: string)
    requires |t| == |low| && forall i :: 0 <= i < |t| ==> LowerChar(t[i]) == low[i]
    ensures Lower(t) == low
  {
  }

  /** The link a trivial comment gets is itself trivial: checking it again changes nothing. */
  lemma SeeAttachedIsTrivial(link: string)
    requires link == "See attached"
    ensures Trivial(link)
  {
    var low := "see attached";
    forall i | 0 <= i < |link| ensures LowerChar(link[i]) == low[i] {
    }
    LowerEach(link, low);
    StripNoSpace(low);
    assert low in TrivialBodies;
  }

  /** A trivial comment leaves the running document unchanged and links to "See attached". */
  lemma CommentTrivial(documentId: string, detail: Object, html: string, path: string,
                       downloads: Downloads, canWrite: string -> bool)
    requires GetValue(detail, "comment").JStr? && Trivial(GetValue(detail, "comment").s)
    ensures CommentResult(documentId, detail, html, path, downloads, canWrite)
      == match Attachments(detail, path, downloads, canWrite)
         case Ok(a) => Ok(CommentLinks(html, "See attached", a))
         case Err(f) => Err(f)
  {
  }

  /** Any other comment appends a newline and its fragment (heading, title, submitter,
      organization and comment) to the running document, so the old document is a prefix of the
      new one, which ends with the comment text; the link is the comment's own file. */
  lemma CommentAppends(documentId: string, detail: Object, html: string, path: string,
                       downloads: Downloads, canWrite: string -> bool)
    requires GetValue(detail, "comment").JStr? && !Trivial(GetValue(detail, "comment").s)
    ensures var r := CommentResult(documentId, detail, html, path, downloads, canWrite);
      r.Ok? ==>
        && Attachments(detail, path, downloads, canWrite) == Ok(r.value.attachments)
        && r.value.html == html + "\n" + CommentFragment(documentId, detail)
        && StartsWith(r.value.html, html + "\n")
        && EndsWith(r.value.html, GetValue(detail, "comment").s)
        && r.value.link == path + "/" + documentId + ".html"
  {
    var r := CommentResult(documentId, detail, html, path, downloads, canWrite);
    if r.Ok? {
      var comment := GetValue(detail, "comment");
      var fragment := CommentFragment(documentId, detail);
      assert r.value.html == Accumulated(html, false, fragment);
      CommentFragmentEnds(documentId, detail);
      AppendedComment(html, fragment, comment.s);
    }
  }

  /** The fragment of a comment given as a string ends with that string. */
  lemma CommentFragmentEnds(documentId: string, detail: Object)
    requires GetValue(detail, "comment").JStr?
    ensures EndsWith(CommentFragment(documentId, detail), GetValue(detail, "comment").s)
  {
    var comment := GetValue(detail, "comment");
    assert Str(comment) == comment.s;
    FragmentFrame(documentId, Str(GetValue(detail, "title")), Str(GetValue(detail, "submitterName")),
                  Str(GetValue(detail, "organization")), comment.s);
  }

  /** Appending a fragment that ends with the comment: the old document and a newline open the
      new one, and the comment closes it. */
  lemma AppendedComment(html: string, fragment: string, comment: string)
    requires EndsWith(fragment, comment)
    ensures StartsWith(Accumulated(html, false, fragment), html + "\n")
    ensures EndsWith(Accumulated(html, false, fragment), comment)
  {
    var s := Accumulated(html, false, fragment);
    assert s == (html + "\n") + fragment;
    assert s[..|html + "\n"|] == html + "\n";
    assert s[|s| - |comment|..] == fragment[|fragment| - |comment|..];
  }
}
