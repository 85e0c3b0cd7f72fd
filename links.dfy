/** `getLinks` (views.py:328-348): the links of a record relative to the run's root folder, as
    written into the manifest. */
module Links {
  import opened Text
  import opened Faults
  import opened Content

  /** The dictionary {"Link": ..., "Attachments": ...} getLinks returns. */
  datatype RowLinks = RowLinks(link: string, attachments: seq<string>)

  /** `l.replace(path, "")[1:]`. */
  function Relative(l: string, path: string): string {
    DropFirst(DeleteAll(l, path))
  }

  /** getLinks(links, path). The "Link" entry must be a string; the list ["N/A"] that dlcontent
      sets on a failed download fails the assertion. */
  function GetLinks(links: Links, path: string): (r: Result<RowLinks>)
    ensures r.Err? <==> links.link.Listed?
    ensures r.Err? ==> r.fault == LinkNotString
    ensures r.Ok? ==> |r.value.attachments| == |links.attachments|
  {
    match links.link
    case Listed(_) => Err(LinkNotString)
    case Single(l) =>
      Ok(RowLinks(if l != "See attached" then Relative(l, path) else "",
                  seq(|links.attachments|, i requires 0 <= i < |links.attachments| =>
                    Relative(links.attachments[i], path))))
  }

  /** A link getLinks is given: the trivial comment's "See attached" becomes "" (so the
      manifest's test for "See attached" never holds); any other link is made relative, and so is
      each attachment, in order. */
  lemma GetLinksMapsEach(links: Links, path: string)
    requires links.link.Single?
    ensures var r := GetLinks(links, path);
      && r.Ok?
      && (links.link.s == "See attached" ==> r.value.link == "")
      && (links.link.s != "See attached" ==> r.value.link == Relative(links.link.s, path))
      && forall i :: 0 <= i < |links.attachments| ==>
           r.value.attachments[i] == Relative(links.attachments[i], path)
  {
  }

  /** Deleting a pattern that does not occur leaves the text unchanged. */
  lemma {:induction false} DeleteAbsent(s: string, p: string)
    requires p != [] && !Occurs(p, s)
    ensures DeleteAll(s, p) == s
    decreases |s|
  {
    if s != [] {
      assert !StartsWith(s, p) by {
        if StartsWith(s, p) {
          assert OccursAt(s, p, 0);
        }
      }
      assert !Occurs(p, s[1..]) by {
        if Occurs(p, s[1..]) {
          var i :| 0 <= i <= |s[1..]| && OccursAt(s[1..], p, i);
          assert s[i + 1..i + 1 + |p|] == s[1..][i..i + |p|];
          assert OccursAt(s, p, i + 1);
        }
      }
      DeleteAbsent(s[1..], p);
      assert s == [s[0]] + s[1..];
    }
  }

  /** The round trip: a link written as `path + "/" + rest` comes back as `rest`, provided `path`
      does not occur again in "/" + rest (not merely in `rest`: see BoundaryMatters). */
  lemma RoundTrip(path: string, rest: string)
    requires !Occurs(path, "/" + rest)
    ensures Relative(path + "/" + rest, path) == rest
    ensures path + "/" + Relative(path + "/" + rest, path) == path + "/" + rest
  {
    var tail := "/" + rest;
    var l := path + tail;
    assert path + "/" + rest == l;
    if path == [] {
      assert OccursAt(tail, path, 0);
    } else {
      assert StartsWith(l, path) by { assert l[..|path|] == path; }
      assert l[|path|..] == tail;
      DeleteAbsent(tail, path);
      assert DeleteAll(l, path) == tail;
      assert tail[1..] == rest;
    }
  }

  /** A path that reappears across the separator is deleted there too: with path "/a" and rest
      "ab" (which does not contain "/a"), the link "/a/ab" comes back as "", not "ab". */
  lemma BoundaryMatters()
    ensures !Occurs("/a", "ab")
    ensures Relative("/a" + "/" + "ab", "/a") == ""
  {
    assert "ab"[0..2][0] == 'a';
    assert !OccursAt("ab", "/a", 0);
    assert !OccursAt("ab", "/a", 1);
    var l := "/a" + "/" + "ab";
    assert l == "/a/ab";
    assert StartsWith(l, "/a") && l[2..] == "/ab";
    assert StartsWith("/ab", "/a") && "/ab"[2..] == "b";
    assert !StartsWith("b", "/a") && "b"[1..] == [];
    assert DeleteAll("b", "/a") == "b";
    assert DeleteAll("/ab", "/a") == "b";
  }

  /** A failed download's "N/A" entry becomes "/A" in the manifest, for any folder path that does
      not occur in it. */
  lemma NotAvailableLink(path: string)
    requires path != [] && !Occurs(path, "N/A")
    ensures Relative("N/A", path) == "/A"
  {
    DeleteAbsent("N/A", path);
  }
}
