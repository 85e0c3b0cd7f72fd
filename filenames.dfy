/** The three pieces dlfiles cuts out of a download's header and URL (views.py:223-234), each a
    hand-written matcher for the one regular expression the source applies, with the leftmost
    (and, for `.*?`, shortest) match Python's `re` returns. Both `\d` and `[0-9]` are read as
    the ASCII digits, although Python's `\d` on a str also matches other Unicode decimal digits;
    `$` is read as the end of the header, although Python's also matches before a final "\n". */
module FileNames {
  import opened Text

  /** The position of the last '.' in `s`. */
  function LastDot(s: string): (r: Option<nat>)
    ensures r.Some? ==>
      && r.value < |s| && s[r.value] == '.'
      && forall i :: r.value < i < |s| ==> s[i] != '.'
    ensures r.None? ==> forall i :: 0 <= i < |s| ==> s[i] != '.'
  {
    if s == [] then None
    else if s[|s| - 1] == '.' then Some(|s| - 1)
    else LastDot(s[..|s| - 1])
  }

  /** A '.' followed by at least one character, none of them a '.'. */
  predicate IsExtension(e: string) {
    |e| >= 2 && e[0] == '.' && forall i :: 1 <= i < |e| ==> e[i] != '.'
  }

  /** `(\.[^.]+)"$` matches the header `cd` with group `e`. */
  predicate ExtensionMatch(cd: string, e: string) {
    IsExtension(e) && EndsWith(cd, e + "\"")
  }

  /** `re.split('(\.[^.]+)"$', cd)[1]` (views.py:224): the extension, from the last '.' to the
      closing quote that ends the header; None where the source's IndexError is caught. */
  function ExtractExtension(cd: string): (r: Option<string>)
    ensures r.Some? ==> ExtensionMatch(cd, r.value)
  {
    if cd == [] || cd[|cd| - 1] != '"' then None
    else
      var body := cd[..|cd| - 1];
      match LastDot(body)
      case None => None
      case Some(k) =>
        var e := body[k..];
        assert EndsWith(cd, e + "\"") by { assert cd == body[..k] + e + "\""; }
        if k < |body| - 1 then Some(e) else None
  }

  /** A header the pattern matches determines its extension: the match found is the only one. */
  lemma {:induction false} ExtensionUnique(cd: string, e: string)
    requires ExtensionMatch(cd, e)
    ensures ExtractExtension(cd) == Some(e)
  {
    var body := cd[..|cd| - 1];
    var q := |body| - |e|;
    assert cd == body + "\"";
    assert body[q..] == e by { assert cd[|cd| - |e| - 1..] == e + "\""; }
    assert body[q] == '.';
    forall i | q < i < |body| ensures body[i] != '.' {
      assert body[i] == e[i - q];
    }
    match LastDot(body)
    case None =>
    case Some(k) =>
      assert k == q;
  }

  const DocIdKey: string := "documentId="

  /** At `m` there is a digit immediately followed by '&'. */
  predicate DigitAmp(url: string, m: int) {
    0 <= m && m + 1 < |url| && IsDigit(url[m]) && url[m + 1] == '&'
  }

  /** No newline in url[a..b] (the `.` of the pattern does not match one). */
  predicate NoNewline(url: string, a: int, b: int) {
    forall m :: a <= m < b && 0 <= m < |url| ==> url[m] != '\n'
  }

  /** `documentId=(.*?\d)&` matches at `p`, with its group ending at the digit at `j`. */
  predicate DocIdMatch(url: string, p: int, j: int) {
    OccursAt(url, DocIdKey, p) && p + |DocIdKey| <= j && DigitAmp(url, j)
    && NoNewline(url, p + |DocIdKey|, j)
  }

  /** The lazy `.*?\d&` from position `j`: the first digit-then-'&' with no newline before it. */
  function LazyEnd(url: string, j: nat): (r: Option<nat>)
    ensures r.Some? ==>
      && j <= r.value && DigitAmp(url, r.value) && NoNewline(url, j, r.value)
      && forall m :: j <= m < r.value ==> !DigitAmp(url, m)
    ensures r.None? ==> forall e :: j <= e && DigitAmp(url, e) ==> !NoNewline(url, j, e)
    decreases |url| - j
  {
    if j + 1 >= |url| then None
    else if DigitAmp(url, j) then Some(j)
    else if url[j] == '\n' then None
    else LazyEnd(url, j + 1)
  }

  /** `re.search` for the document-ID pattern from position `p`: the leftmost start, then the
      shortest group. */
  function SearchDocId(url: string, p: nat): (r: Option<(nat, nat)>)
    ensures r.Some? ==> p <= r.value.0 && DocIdMatch(url, r.value.0, r.value.1)
    ensures r.Some? ==> forall a, e :: p <= a && DocIdMatch(url, a, e) ==>
      r.value.0 < a || (r.value.0 == a && r.value.1 <= e)
    ensures r.None? ==> forall a, e :: p <= a ==> !DocIdMatch(url, a, e)
    decreases |url| - p
  {
    if p >= |url| then None
    else if OccursAt(url, DocIdKey, p) && LazyEnd(url, p + |DocIdKey|).Some? then
      Some((p, LazyEnd(url, p + |DocIdKey|).value))
    else SearchDocId(url, p + 1)
  }

  /** `re.search("documentId=(.*?\d)&", url).group(1)` (views.py:228); None where the
      source's AttributeError is caught. */
  function ExtractDocumentId(url: string): (r: Option<string>)
    ensures r.Some? ==> |r.value| >= 1 && IsDigit(r.value[|r.value| - 1])
    ensures r.Some? <==> exists a, e :: DocIdMatch(url, a, e)
  {
    match SearchDocId(url, 0)
    case None => None
    case Some((a, e)) =>
      assert DocIdMatch(url, a, e);
      Some(url[a + |DocIdKey|..e + 1])
  }

  const AttachKey: string := "attachmentNumber="

  /** `attachmentNumber=([0-9]+)` matches at `p`. */
  predicate AttachMatch(url: string, p: int) {
    OccursAt(url, AttachKey, p) && p + |AttachKey| < |url| && IsDigit(url[p + |AttachKey|])
  }

  /** The end of the run of digits starting at `j` (the greedy `[0-9]+`). */
  function DigitRunEnd(url: string, j: nat): (e: nat)
    requires j <= |url|
    ensures j <= e <= |url| && AllDigits(url[j..e]) && (e == |url| || !IsDigit(url[e]))
    decreases |url| - j
  {
    if j < |url| && IsDigit(url[j]) then
      var e := DigitRunEnd(url, j + 1);
      assert url[j..e] == [url[j]] + url[j + 1..e];
      e
    else j
  }

  function SearchAttach(url: string, p: nat): (r: Option<nat>)
    ensures r.Some? ==>
      && p <= r.value && AttachMatch(url, r.value)
      && forall a :: p <= a < r.value ==> !AttachMatch(url, a)
    ensures r.None? ==> forall a :: p <= a ==> !AttachMatch(url, a)
    decreases |url| - p
  {
    if p >= |url| then None
    else if AttachMatch(url, p) then Some(p)
    else SearchAttach(url, p + 1)
  }

  /** `re.search("attachmentNumber=([0-9]+)", url).group(1)` (views.py:232): the whole digit
      run after the leftmost key that is followed by a digit. */
  function ExtractAttachmentNumber(url: string): (r: Option<string>)
    ensures r.Some? ==> |r.value| >= 1 && AllDigits(r.value)
    ensures r.Some? <==> exists a :: AttachMatch(url, a)
  {
    match SearchAttach(url, 0)
    case None => None
    case Some(a) => Some(url[a + |AttachKey|..DigitRunEnd(url, a + |AttachKey|)])
  }

  /** `file_num`: "_" and the attachment number, or "" when the URL has none. */
  function NumSuffix(url: string): (r: string)
    ensures r == [] || (r[0] == '_' && AllDigits(r[1..]) && |r| >= 2)
  {
    match ExtractAttachmentNumber(url)
    case None => ""
    case Some(n) => "_" + n
  }

  /** Writing an extension into a header and reading it back gives the same extension. */
  lemma HeaderRoundTrip(prefix: string, e: string)
    requires IsExtension(e)
    ensures ExtractExtension(prefix + e + "\"") == Some(e)
  {
    var cd := prefix + e + "\"";
    assert cd[|cd| - |e + "\""|..] == e + "\"";
    ExtensionUnique(cd, e);
  }

  /** A typical header from the registry. */
  lemma ExampleHeader()
    ensures ExtractExtension("attachment; filename=\"OCC-2013-0003-0062-1.pdf\"") == Some(".pdf")
  {
    HeaderRoundTrip("attachment; filename=\"OCC-2013-0003-0062-1", ".pdf");
    assert "attachment; filename=\"OCC-2013-0003-0062-1" + ".pdf" + "\""
      == "attachment; filename=\"OCC-2013-0003-0062-1.pdf\"";
  }
}
