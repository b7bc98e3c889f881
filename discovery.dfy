/**
  Plugin discovery: Scan lists a folder and keeps, in listing order, every
  entry that is not a directory and whose name contains a plain substring,
  joined onto the folder.
 */
module Discovery {
  import opened Wrappers

  /** One entry of a directory listing: its base name and whether it is a directory. */
  datatype DirEntry = DirEntry(name: string, isDir: bool)

  /** Why the folder could not be read (missing, permission denied, not a directory, ...). */
  datatype ReadError = ReadError(reason: string)

  /** The separator filepath.Join puts between elements on a Unix-like system. */
  const Separator: char := '/'

  predicate HasPrefix(s: string, prefix: string) {
    |prefix| <= |s| && s[..|prefix|] == prefix
  }

  /** `sub` occurs in `s` starting at position `i`. */
  predicate OccursAt(s: string, sub: string, i: int) {
    0 <= i && i + |sub| <= |s| && s[i..i + |sub|] == sub
  }

  /**
    strings.Contains: `sub` is a prefix of `s` or of one of its suffixes. A
    string is found only in one at least as long, and the empty one everywhere.
   */
  function Contains(s: string, sub: string): (found: bool)
    ensures found ==> |sub| <= |s|
    ensures sub == [] ==> found
    decreases |s|
  {
    HasPrefix(s, sub) || (|s| > 0 && Contains(s[1..], sub))
  }

  /** Contains means exactly "occurs at some position" (a plain substring, no wildcards). */
  lemma {:induction false} ContainsIffOccurs(s: string, sub: string)
    ensures Contains(s, sub) <==> exists i :: OccursAt(s, sub, i)
    decreases |s|
  {
    if HasPrefix(s, sub) {
      assert OccursAt(s, sub, 0);
    } else if |s| > 0 {
      ContainsIffOccurs(s[1..], sub);
      if Contains(s[1..], sub) {
        var i :| OccursAt(s[1..], sub, i);
        assert s[1..][i..i + |sub|] == s[i + 1..i + 1 + |sub|];
        assert OccursAt(s, sub, i + 1);
      }
      if exists i :: OccursAt(s, sub, i) {
        var i :| OccursAt(s, sub, i);
        assert s[..|sub|] == s[0..0 + |sub|];
        assert i != 0;
        var window, occurrence := s[1..][i - 1..i - 1 + |sub|], s[i..i + |sub|];
        forall t | 0 <= t < |sub|
          ensures window[t] == occurrence[t]
        {
        }
        assert window == occurrence;
        assert OccursAt(s[1..], sub, i - 1);
      }
    } else {
      assert forall i :: !OccursAt(s, sub, i);
    }
  }

  /** The empty pattern occurs in every name. */
  lemma EmptyPatternOccursEverywhere(s: string)
    ensures Contains(s, "")
  {
    assert HasPrefix(s, "");
  }

  /**
    The filter Scan applies to each entry: not a directory, and the pattern
    occurs in the name, which is therefore at least as long as the pattern;
    with the empty pattern exactly the entries that are not directories pass.
   */
  function Kept(e: DirEntry, pattern: string): (kept: bool)
    ensures kept ==> !e.isDir && |pattern| <= |e.name|
    ensures pattern == [] ==> (kept <==> !e.isDir)
  {
    !e.isDir && Contains(e.name, pattern)
  }

  /**
    filepath.Join(folder, name) for a clean folder and a plain entry name: an
    empty folder and the current directory "." are dropped, the root "/" is
    followed directly by the name, and any other folder is joined to the name
    by one separator. The path always ends in the name, after a separator
    unless the folder was dropped.
   */
  function JoinPath(folder: string, name: string): (path: string)
    ensures |name| <= |path| && path[|path| - |name|..] == name
    ensures folder != "" && folder != "." ==> |name| < |path| && path[|path| - |name| - 1] == Separator
  {
    if folder == "" || folder == "." then name
    else if folder == [Separator] then [Separator] + name
    else folder + [Separator] + name
  }

  /** Joining onto a fixed folder never maps two names to one path. */
  lemma JoinPathInjective(folder: string, a: string, b: string)
    ensures JoinPath(folder, a) == JoinPath(folder, b) <==> a == b
  {
    var lead := JoinPath(folder, "");
    assert JoinPath(folder, a) == lead + a;
    assert JoinPath(folder, b) == lead + b;
    if JoinPath(folder, a) == JoinPath(folder, b) {
      assert a == (lead + a)[|lead|..];
      assert b == (lead + b)[|lead|..];
    }
  }

  /**
    The positions, in increasing order, of the entries Scan keeps: each one is
    a kept entry, none comes twice or out of order, and no kept entry is missed.
   */
  function Selected(pattern: string, listing: seq<DirEntry>): (idx: seq<nat>)
    ensures forall k :: 0 <= k < |idx| ==> idx[k] < |listing| && Kept(listing[idx[k]], pattern)
    ensures forall k, l :: 0 <= k < l < |idx| ==> idx[k] < idx[l]
    ensures forall j :: 0 <= j < |listing| && Kept(listing[j], pattern) ==> j in idx
    decreases |listing|
  {
    if listing == [] then []
    else
      var n := |listing| - 1;
      Selected(pattern, listing[..n]) + (if Kept(listing[n], pattern) then [n] else [])
  }

  /** The paths Scan returns for a listing that could be read, built as its loop builds them. */
  function Discovered(folder: string, pattern: string, listing: seq<DirEntry>): (paths: seq<string>)
    ensures |paths| <= |listing|
    decreases |listing|
  {
    if listing == [] then []
    else
      var n := |listing| - 1;
      Discovered(folder, pattern, listing[..n])
        + (if Kept(listing[n], pattern) then [JoinPath(folder, listing[n].name)] else [])
  }

  /** The k-th discovered path is the folder joined with the name of the k-th kept entry. */
  lemma {:induction false} DiscoveredFollowsSelected(folder: string, pattern: string, listing: seq<DirEntry>)
    ensures |Discovered(folder, pattern, listing)| == |Selected(pattern, listing)|
    ensures forall k :: 0 <= k < |Selected(pattern, listing)| ==>
      Discovered(folder, pattern, listing)[k] == JoinPath(folder, listing[Selected(pattern, listing)[k]].name)
    decreases |listing|
  {
    if listing != [] {
      var n := |listing| - 1;
      var prefix := listing[..n];
      DiscoveredFollowsSelected(folder, pattern, prefix);
      var idx := Selected(pattern, prefix);
      forall k | 0 <= k < |idx|
        ensures listing[idx[k]] == prefix[idx[k]]
      {
      }
    }
  }

  /** Every kept entry is selected exactly once, every other entry never. */
  lemma {:induction false} SelectedCountsEachEntryOnce(pattern: string, listing: seq<DirEntry>)
    ensures forall j :: 0 <= j < |listing| ==>
      multiset(Selected(pattern, listing))[j] == if Kept(listing[j], pattern) then 1 else 0
    decreases |listing|
  {
    if listing != [] {
      var n := |listing| - 1;
      var prefix := listing[..n];
      SelectedCountsEachEntryOnce(pattern, prefix);
      var before := Selected(pattern, prefix);
      assert n !in before;
      assert Selected(pattern, listing) == before + (if Kept(listing[n], pattern) then [n] else []);
      forall j | 0 <= j < n
        ensures listing[j] == prefix[j]
      {
      }
    }
  }

  /** Soundness: every returned path is the folder joined with the name of a kept entry. */
  lemma {:induction false} ScanSound(folder: string, pattern: string, listing: seq<DirEntry>)
    ensures forall path :: path in Discovered(folder, pattern, listing) ==>
      exists j :: 0 <= j < |listing| && Kept(listing[j], pattern) && path == JoinPath(folder, listing[j].name)
  {
    DiscoveredFollowsSelected(folder, pattern, listing);
    var paths := Discovered(folder, pattern, listing);
    var idx := Selected(pattern, listing);
    forall path | path in paths
      ensures exists j :: 0 <= j < |listing| && Kept(listing[j], pattern) && path == JoinPath(folder, listing[j].name)
    {
      var k :| 0 <= k < |paths| && paths[k] == path;
      var j := idx[k];
      assert Kept(listing[j], pattern) && path == JoinPath(folder, listing[j].name);
    }
  }

  /**
    Completeness: every kept entry contributes its joined path, at a position
    that belongs to that entry and to no other.
   */
  lemma {:induction false} ScanComplete(folder: string, pattern: string, listing: seq<DirEntry>)
    ensures |Discovered(folder, pattern, listing)| == |Selected(pattern, listing)|
    ensures forall j :: 0 <= j < |listing| && Kept(listing[j], pattern) ==>
      exists k :: 0 <= k < |Selected(pattern, listing)| && Selected(pattern, listing)[k] == j
        && Discovered(folder, pattern, listing)[k] == JoinPath(folder, listing[j].name)
  {
    DiscoveredFollowsSelected(folder, pattern, listing);
    var idx := Selected(pattern, listing);
    forall j | 0 <= j < |listing| && Kept(listing[j], pattern)
      ensures exists k :: (0 <= k < |idx| && idx[k] == j
        && Discovered(folder, pattern, listing)[k] == JoinPath(folder, listing[j].name))
    {
      var k :| 0 <= k < |idx| && idx[k] == j;
    }
  }

  /** Order: earlier results come from earlier entries of the listing (no re-sorting). */
  lemma ScanPreservesOrder(folder: string, pattern: string, listing: seq<DirEntry>, k: nat, l: nat)
    requires k < l < |Selected(pattern, listing)|
    ensures |Discovered(folder, pattern, listing)| == |Selected(pattern, listing)|
    ensures Selected(pattern, listing)[k] < Selected(pattern, listing)[l]
    ensures Discovered(folder, pattern, listing)[k] == JoinPath(folder, listing[Selected(pattern, listing)[k]].name)
    ensures Discovered(folder, pattern, listing)[l] == JoinPath(folder, listing[Selected(pattern, listing)[l]].name)
  {
    DiscoveredFollowsSelected(folder, pattern, listing);
  }

  /** Scanning a listing in two parts gives the two parts' results one after the other. */
  lemma {:induction false} DiscoveredAppend(folder: string, pattern: string, a: seq<DirEntry>, b: seq<DirEntry>)
    ensures Discovered(folder, pattern, a + b) == Discovered(folder, pattern, a) + Discovered(folder, pattern, b)
    decreases |b|
  {
    if b != [] {
      var n := |b| - 1;
      assert (a + b)[..|a + b| - 1] == a + b[..n];
      DiscoveredAppend(folder, pattern, a, b[..n]);
    } else {
      assert a + b == a;
    }
  }

  /** Inserting a directory, or a file whose name lacks the pattern, anywhere leaves the result unchanged. */
  lemma IgnoredEntryIrrelevant(folder: string, pattern: string, listing: seq<DirEntry>, i: nat, e: DirEntry)
    requires i <= |listing|
    requires !Kept(e, pattern)
    ensures Discovered(folder, pattern, listing[..i] + [e] + listing[i..]) == Discovered(folder, pattern, listing)
  {
    DiscoveredAppend(folder, pattern, listing[..i] + [e], listing[i..]);
    DiscoveredAppend(folder, pattern, listing[..i], [e]);
    assert [e][..0] == [];
    DiscoveredAppend(folder, pattern, listing[..i], listing[i..]);
    assert listing[..i] + listing[i..] == listing;
  }

  /** The result is empty exactly when no entry is kept (an empty result is not an error). */
  lemma {:induction false} NoMatchIffEmpty(folder: string, pattern: string, listing: seq<DirEntry>)
    ensures Discovered(folder, pattern, listing) == [] <==> forall j :: 0 <= j < |listing| ==> !Kept(listing[j], pattern)
  {
    DiscoveredFollowsSelected(folder, pattern, listing);
    if Discovered(folder, pattern, listing) != [] {
      var j := Selected(pattern, listing)[0];
      assert Kept(listing[j], pattern);
    }
  }

  /** With the empty pattern every file is kept and every directory skipped. */
  lemma EmptyPatternKeepsEveryFile(listing: seq<DirEntry>)
    ensures forall j :: 0 <= j < |listing| ==> (j in Selected("", listing) <==> !listing[j].isDir)
  {
    forall j | 0 <= j < |listing|
      ensures Kept(listing[j], "") <==> !listing[j].isDir
    {
      EmptyPatternOccursEverywhere(listing[j].name);
    }
  }

  /** A listing without repeated names yields no repeated paths. */
  lemma DistinctNamesDistinctPaths(folder: string, pattern: string, listing: seq<DirEntry>)
    requires forall i, j :: 0 <= i < j < |listing| ==> listing[i].name != listing[j].name
    ensures forall k, l :: 0 <= k < l < |Discovered(folder, pattern, listing)| ==>
      Discovered(folder, pattern, listing)[k] != Discovered(folder, pattern, listing)[l]
  {
    DiscoveredFollowsSelected(folder, pattern, listing);
    var idx := Selected(pattern, listing);
    forall k, l | 0 <= k < l < |idx|
      ensures JoinPath(folder, listing[idx[k]].name) != JoinPath(folder, listing[idx[l]].name)
    {
      JoinPathInjective(folder, listing[idx[k]].name, listing[idx[l]].name);
    }
  }

  /**
    Scan(folder, pattern), given the outcome of reading `folder`: on a read
    failure an empty list and that error; otherwise the joined paths of the
    kept entries, in listing order, and no error.
   */
  method Scan(folder: string, pattern: string, readDir: Result<seq<DirEntry>, ReadError>)
    returns (plugins: seq<string>, err: Option<ReadError>)
    ensures readDir.Failure? ==> plugins == [] && err == Some(readDir.error)
    ensures readDir.Success? ==> err == None && plugins == Discovered(folder, pattern, readDir.value)
  {
    if readDir.Failure? {
      return [], Some(readDir.error);
    }
    var files := readDir.value;
    plugins := [];
    for i := 0 to |files|
      invariant plugins == Discovered(folder, pattern, files[..i])
    {
      var file := files[i];
      assert files[..i + 1][..i] == files[..i];
      if !file.isDir && Contains(file.name, pattern) {
        plugins := plugins + [JoinPath(folder, file.name)];
      }
    }
    assert files[..|files|] == files;
    err := None;
  }
}
