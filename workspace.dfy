/** The run's workspace folders: `makefolders` (views.py:90-139). The folder creation itself is
    replaced by the set of directories that already exist, which decides the one failing
    `os.makedirs` call (the primary subfolder is created without `exist_ok`). */
module Workspace {
  import opened Text
  import opened Faults

  /** POSIX `os.path.join(a, b)`. */
  function Join(a: string, b: string): (r: string)
    ensures b != [] ==> r != []
  {
    if b != [] && b[0] == '/' then b
    else if a == [] || a[|a| - 1] == '/' then a + b
    else a + "/" + b
  }

  /** The dictionary makefolders returns: the root and one path per category, "" when the
      category was not requested. */
  datatype Folders = Folders(path: string, primary: string, supporting: string, comments: string)

  /** `sum([comments_on, primary_on, supporting_on])`. */
  function Selected(p: bool, s: bool, c: bool): nat {
    (if p then 1 else 0) + (if s then 1 else 0) + (if c then 1 else 0)
  }

  /** What follows the docket number in the root folder's name (views.py:115-120), computed
      as the source does, by repeating each tag once or not at all. */
  function Suffix(p: bool, s: bool, c: bool): string {
    var n := Selected(p, s, c);
    if n == 3 then ""
    else if n == 2 then
      "_" + (if p then "Primary_" else "") + (if s then "Supporting" else "")
      + (if !p then "_" else "") + (if c then "Comments" else "")
    else
      "_" + (if p then "Primary" else "") + (if s then "Supporting" else "")
      + (if c then "Comments" else "")
  }

  /** The suffixes for three and for two categories, written out. */
  lemma SuffixTable()
    ensures Suffix(true, true, true) == ""
    ensures Suffix(true, true, false) == "_Primary_Supporting"
    ensures Suffix(true, false, true) == "_Primary_Comments"
    ensures Suffix(false, true, true) == "_Supporting_Comments"
  {
    assert "_" + "Primary_" + "Supporting" + "" + "" == "_Primary_Supporting";
    assert "_" + "Primary_" + "" + "" + "Comments" == "_Primary_Comments";
    assert "_" + "" + "Supporting" + "_" + "Comments" == "_Supporting_Comments";
  }

  /** The suffixes for one category, written out. */
  lemma SingleSuffixes()
    ensures Suffix(true, false, false) == "_Primary"
    ensures Suffix(false, true, false) == "_Supporting"
    ensures Suffix(false, false, true) == "_Comments"
  {
    assert "_" + "Primary" + "" + "" == "_Primary";
    assert "_" + "" + "Supporting" + "" == "_Supporting";
    assert "_" + "" + "" + "Comments" == "_Comments";
  }

  /** The root folder's name: the docket number and the suffix. */
  function RootName(docketNo: string, p: bool, s: bool, c: bool): string {
    docketNo + Suffix(p, s, c)
  }

  function PrimarySub(root: string): string { Join(root, "Primary_Documents") }
  function SupportingSub(root: string): string { Join(root, "Supporting_Documents") }
  function CommentsSub(root: string): string { Join(root, "Comments") }

  /** makefolders(directory, docket_no, primary_on, supporting_on, comments_on), with
      `existing` the directories already on disk. */
  function MakeFolders(directory: string, docketNo: string, p: bool, s: bool, c: bool,
                       existing: set<string>): (r: Result<Folders>)
    ensures r == Err(NoCategory) <==> !p && !s && !c
    ensures r.Err? && r.fault != NoCategory ==>
      Selected(p, s, c) > 1 && p && r.fault.FolderExists? && r.fault.path in existing
    ensures r.Ok? ==>
      && (r.value.primary != "" <==> p)
      && (r.value.supporting != "" <==> s)
      && (r.value.comments != "" <==> c)
    ensures r.Ok? && Selected(p, s, c) == 1 ==>
      r.value.path in {r.value.primary, r.value.supporting, r.value.comments}
  {
    var n := Selected(p, s, c);
    if n == 0 then Err(NoCategory)
    else
      var path := Join(directory, RootName(docketNo, p, s, c));
      if n == 1 then
        Ok(Folders(path, if p then path else "", if s then path else "", if c then path else ""))
      else if p && PrimarySub(path) in existing then Err(FolderExists(PrimarySub(path)))
      else
        Ok(Folders(path, if p then PrimarySub(path) else "", if s then SupportingSub(path) else "",
                   if c then CommentsSub(path) else ""))
  }

  /** All three categories: the root is the docket number, with one subfolder per category. */
  lemma AllThreeCategories(directory: string, docketNo: string, existing: set<string>)
    requires PrimarySub(Join(directory, docketNo)) !in existing
    ensures var root := Join(directory, docketNo);
      MakeFolders(directory, docketNo, true, true, true, existing)
        == Ok(Folders(root, PrimarySub(root), SupportingSub(root), CommentsSub(root)))
  {
    SuffixTable();
    assert RootName(docketNo, true, true, true) == docketNo;
  }

  /** Two categories: the root names both, and only their subfolders are set. */
  lemma TwoCategories(directory: string, k: string, existing: set<string>)
    ensures var root := Join(directory, k + "_Supporting_Comments");
      MakeFolders(directory, k, false, true, true, existing)
        == Ok(Folders(root, "", SupportingSub(root), CommentsSub(root)))
    ensures var root := Join(directory, k + "_Primary_Comments");
      PrimarySub(root) !in existing ==>
      MakeFolders(directory, k, true, false, true, existing)
        == Ok(Folders(root, PrimarySub(root), "", CommentsSub(root)))
    ensures var root := Join(directory, k + "_Primary_Supporting");
      PrimarySub(root) !in existing ==>
      MakeFolders(directory, k, true, true, false, existing)
        == Ok(Folders(root, PrimarySub(root), SupportingSub(root), ""))
  {
    SuffixTable();
  }

  /** One category: the root is `<docket>_<Type>` and is that category's own folder. */
  lemma OneCategory(directory: string, k: string, existing: set<string>)
    ensures var root := Join(directory, k + "_Primary");
      MakeFolders(directory, k, true, false, false, existing) == Ok(Folders(root, root, "", ""))
    ensures var root := Join(directory, k + "_Supporting");
      MakeFolders(directory, k, false, true, false, existing) == Ok(Folders(root, "", root, ""))
    ensures var root := Join(directory, k + "_Comments");
      MakeFolders(directory, k, false, false, true, existing) == Ok(Folders(root, "", "", root))
  {
    SingleSuffixes();
  }

  /** A second run of a multi-category request that includes primary documents finds its
      Primary_Documents folder already there and fails. */
  lemma RerunWithPrimaryFails(directory: string, k: string, s: bool, c: bool, existing: set<string>)
    requires s || c
    requires PrimarySub(Join(directory, RootName(k, true, s, c))) in existing
    ensures MakeFolders(directory, k, true, s, c, existing).Err?
  {
  }

  lemma JoinSameKind(directory: string, x: string, y: string)
    requires (x != [] && x[0] == '/') <==> (y != [] && y[0] == '/')
    requires Join(directory, x) == Join(directory, y)
    ensures x == y
  {
    if !(x != [] && x[0] == '/') {
      var pre := if directory == [] || directory[|directory| - 1] == '/' then directory else directory + "/";
      assert Join(directory, x) == pre + x && Join(directory, y) == pre + y;
      assert x == (pre + x)[|pre|..];
    }
  }

  /** Different category selections never share a root folder, so runs for the same docket
      with different selections work in different folders. */
  lemma RootsDistinct(directory: string, k: string, p: bool, s: bool, c: bool,
                      p': bool, s': bool, c': bool)
    requires p || s || c
    requires p' || s' || c'
    requires (p, s, c) != (p', s', c')
    ensures Join(directory, RootName(k, p, s, c)) != Join(directory, RootName(k, p', s', c'))
  {
    SuffixTable();
    SingleSuffixes();
    var sx, sy := Suffix(p, s, c), Suffix(p', s', c');
    assert sx != sy;
    var x, y := k + sx, k + sy;
    if Join(directory, x) == Join(directory, y) {
      if k == [] {
        assert sx == [] || sx[0] == '_';
        assert sy == [] || sy[0] == '_';
      } else {
        assert x[0] == k[0] && y[0] == k[0];
      }
      JoinSameKind(directory, x, y);
    }
  }
}
