/** The directory tree that pfind searches, and what a complete search of it must find. */
module FileTree {

  /** A path is the list of names that leads from the original directory to an entry. */
  type Path = seq<string>

  /** One readdir entry. `lstat` does not follow links, so a link to a directory is a `File`. */
  datatype Entry =
    | File(name: string)
    | Dir(name: string, entries: seq<Entry>)

  /** A directory waiting to be scanned: its path and what `opendir`/`readdir` will list there. */
  datatype Job = Job(path: Path, entries: seq<Entry>)

  /** The two names that `folder_scan` skips. */
  predicate IsDots(name: string) {
    name == "." || name == ".."
  }

  predicate OccursAt(name: string, needle: string, i: nat) {
    i + |needle| <= |name| && name[i..i + |needle|] == needle
  }

  /** `strstr(name, needle) != NULL` */
  predicate Contains(name: string, needle: string) {
    exists i :: 0 <= i <= |name| && OccursAt(name, needle, i)
  }

  /** The needle is part of the name. */
  ghost predicate IsPart(needle: string, name: string) {
    exists u: string, v: string :: name == u + needle + v
  }

  lemma ContainsIsPart(name: string, needle: string)
    ensures Contains(name, needle) <==> IsPart(needle, name)
  {
    if Contains(name, needle) {
      var i :| 0 <= i <= |name| && OccursAt(name, needle, i);
      assert name == name[..i] + needle + name[i + |needle|..];
    }
    if IsPart(needle, name) {
      var u: string, v: string :| name == u + needle + v;
      assert OccursAt(name, needle, |u|);
    }
  }

  /** Reference result: the paths of all non-directory entries whose name contains the needle. */
  ghost function MatchingFiles(needle: string, path: Path, entries: seq<Entry>): multiset<Path>
    decreases entries
  {
    if entries == [] then multiset{}
    else MatchingIn(needle, path, entries[0]) + MatchingFiles(needle, path, entries[1..])
  }

  ghost function MatchingIn(needle: string, path: Path, e: Entry): multiset<Path>
    decreases e
  {
    if e.name == "." || e.name == ".." then multiset{}
    else match e
      case File(name) => if IsPart(needle, name) then multiset{path + [name]} else multiset{}
      case Dir(name, inner) => MatchingFiles(needle, path + [name], inner)
  }

  /** Reference result: the paths of all directories strictly below `path`. */
  function Folders(path: Path, entries: seq<Entry>): multiset<Path>
    decreases entries
  {
    if entries == [] then multiset{}
    else FoldersIn(path, entries[0]) + Folders(path, entries[1..])
  }

  function FoldersIn(path: Path, e: Entry): multiset<Path>
    decreases e
  {
    if e.Dir? && e.name != "." && e.name != ".." then multiset{path + [e.name]} + Folders(path + [e.name], e.entries)
    else multiset{}
  }

  /** All directories of the search, the original one included. */
  function AllFolders(root: Job): multiset<Path> {
    multiset{root.path} + Folders(root.path, root.entries)
  }

  /** What can be accounted for while a tree is being searched. */
  datatype Measure =
    | Matches               // matching files, for the counter
    | PrintedAt(p: Path)    // matching files at path p, for the lines printed
    | VisitedAt(p: Path)    // directories at path p, for the scans completed

  function One(b: bool): nat {
    if b then 1 else 0
  }

  /** The weight of a file that matched. */
  function HitWeight(m: Measure, path: Path): nat {
    match m
    case Matches => 1
    case PrintedAt(p) => One(p == path)
    case VisitedAt(_) => 0
  }

  /** The weight of a directory itself. */
  function FolderWeight(m: Measure, path: Path): nat {
    match m
    case VisitedAt(p) => One(p == path)
    case _ => 0
  }

  /** The weight of everything listed in a directory, all levels deep. */
  function Mass(needle: string, m: Measure, path: Path, entries: seq<Entry>): nat
    decreases entries
  {
    if entries == [] then 0 else
      EntryMass(needle, m, path, entries[0]) + Mass(needle, m, path, entries[1..])
  }

  function EntryMass(needle: string, m: Measure, path: Path, e: Entry): nat
    decreases e
  {
    if IsDots(e.name) then 0
    else match e
      case File(name) => if Contains(name, needle) then HitWeight(m, path + [name]) else 0
      case Dir(name, inner) =>
        FolderWeight(m, path + [name]) + Mass(needle, m, path + [name], inner)
  }

  function JobMass(needle: string, m: Measure, job: Job): nat {
    FolderWeight(m, job.path) + Mass(needle, m, job.path, job.entries)
  }

  /** The counting measure is the size of the reference result. */
  lemma {:induction false} MassCountsMatches(needle: string, path: Path, entries: seq<Entry>)
    ensures Mass(needle, Matches, path, entries) == |MatchingFiles(needle, path, entries)|
    decreases entries
  {
    if entries != [] {
      var e := entries[0];
      if e.Dir? {
        MassCountsMatches(needle, path + [e.name], e.entries);
      }
      ContainsIsPart(e.name, needle);
      assert EntryMass(needle, Matches, path, e) == |MatchingIn(needle, path, e)|;
      MassCountsMatches(needle, path, entries[1..]);
    }
  }

  /** The measure at a path is that path's multiplicity in the reference result. */
  lemma {:induction false} MassLocatesMatches(needle: string, p: Path, path: Path, entries: seq<Entry>)
    ensures Mass(needle, PrintedAt(p), path, entries) == MatchingFiles(needle, path, entries)[p]
    decreases entries
  {
    if entries != [] {
      var e := entries[0];
      if e.Dir? {
        MassLocatesMatches(needle, p, path + [e.name], e.entries);
      }
      ContainsIsPart(e.name, needle);
      assert EntryMass(needle, PrintedAt(p), path, e) == MatchingIn(needle, path, e)[p];
      MassLocatesMatches(needle, p, path, entries[1..]);
    }
  }

  /** The same for directories. */
  lemma {:induction false} MassLocatesFolders(needle: string, p: Path, path: Path, entries: seq<Entry>)
    ensures Mass(needle, VisitedAt(p), path, entries) == Folders(path, entries)[p]
    decreases entries
  {
    if entries != [] {
      var e := entries[0];
      if e.Dir? {
        MassLocatesFolders(needle, p, path + [e.name], e.entries);
      }
      assert EntryMass(needle, VisitedAt(p), path, e) == FoldersIn(path, e)[p];
      MassLocatesFolders(needle, p, path, entries[1..]);
    }
  }

  // ---- What the reference results contain ----

  /** From this entry the names lead to a file that matches. */
  ghost predicate LeadsToFile(needle: string, e: Entry, names: Path)
    decreases e
  {
    && names != [] && e.name == names[0] != "." && e.name != ".."
    && match e
       case File(name) => |names| == 1 && exists u: string, v: string :: name == u + needle + v
       case Dir(_, inner) => exists f :: f in inner && LeadsToFile(needle, f, names[1..])
  }

  /** From this entry the names lead to a directory. */
  ghost predicate LeadsToDir(e: Entry, names: Path)
    decreases e
  {
    && names != [] && e.name == names[0] != "." && e.name != ".."
    && e.Dir? && (|names| == 1 || exists f :: f in e.entries && LeadsToDir(f, names[1..]))
  }

  /** A path is in the reference result if and only if its names lead through the tree, past no dots, to a
      file whose name has the needle in it. */
  lemma {:induction false} MatchingFilesAre(needle: string, path: Path, entries: seq<Entry>, p: Path)
    ensures p in MatchingFiles(needle, path, entries)
       <==> path <= p && exists e :: e in entries && LeadsToFile(needle, e, p[|path|..])
    decreases entries
  {
    if entries != [] {
      MatchingInAre(needle, path, entries[0], p);
      MatchingFilesAre(needle, path, entries[1..], p);
      assert forall e :: e in entries <==> e == entries[0] || e in entries[1..];
    }
  }

  lemma {:induction false} MatchingInAre(needle: string, path: Path, e: Entry, p: Path)
    ensures p in MatchingIn(needle, path, e) <==> path <= p && LeadsToFile(needle, e, p[|path|..])
    decreases e
  {
    if e.Dir? {
      MatchingFilesAre(needle, path + [e.name], e.entries, p);
      OneLevelDown(path, e.name, p);
      if path + [e.name] <= p && !(e.name == "." || e.name == "..") {
        assert p[|path|..][1..] == p[|path + [e.name]|..];
      }
    } else if p == path + [e.name] {
      assert p[|path|..] == [e.name];
    } else if path <= p && |p[|path|..]| == 1 {
      assert p == path + [p[|path|]];
    }
  }

  lemma OneLevelDown(path: Path, name: string, p: Path)
    ensures path + [name] <= p <==> path <= p && |path| < |p| && p[|path|] == name
  {
    if path <= p && |path| < |p| && p[|path|] == name {
      assert p == path + [name] + p[|path| + 1..];
    }
  }

  /** The same for directories. */
  lemma {:induction false} FoldersAre(path: Path, entries: seq<Entry>, p: Path)
    ensures p in Folders(path, entries)
       <==> path <= p && exists e :: e in entries && LeadsToDir(e, p[|path|..])
    decreases entries
  {
    if entries != [] {
      FoldersInAre(path, entries[0], p);
      FoldersAre(path, entries[1..], p);
      assert forall e :: e in entries <==> e == entries[0] || e in entries[1..];
    }
  }

  lemma {:induction false} FoldersInAre(path: Path, e: Entry, p: Path)
    ensures p in FoldersIn(path, e) <==> path <= p && LeadsToDir(e, p[|path|..])
    decreases e
  {
    if e.Dir? {
      FoldersAre(path + [e.name], e.entries, p);
      OneLevelDown(path, e.name, p);
      if path + [e.name] <= p {
        assert p[|path|..][1..] == p[|path + [e.name]|..];
        assert |p[|path|..]| == 1 ==> p == path + [e.name];
        assert |p[|path|..]| == 1 ==> p[|path|..][1..] == [];
      }
    }
  }

  /** No two entries of one directory share a name, at any level. */
  ghost predicate DistinctNames(entries: seq<Entry>)
    decreases entries
  {
    && (forall i, j :: 0 <= i < j < |entries| ==> entries[i].name != entries[j].name)
    && (forall i :: 0 <= i < |entries| && entries[i].Dir? ==> DistinctNames(entries[i].entries))
  }

  /** Everything found below `path` extends it by the name of an entry listed there. */
  lemma {:induction false} FoldersExtend(path: Path, entries: seq<Entry>, p: Path)
    requires p in Folders(path, entries)
    ensures |path| < |p| && p[..|path|] == path
    ensures exists i :: 0 <= i < |entries| && entries[i].name == p[|path|]
    decreases entries
  {
    var e := entries[0];
    if p in Folders(path, entries[1..]) {
      FoldersExtend(path, entries[1..], p);
      var i :| 0 <= i < |entries[1..]| && entries[1..][i].name == p[|path|];
      assert entries[i + 1].name == p[|path|];
    } else {
      if p != path + [e.name] {
        FoldersExtend(path + [e.name], e.entries, p);
        assert p[..|path|] == p[..|path| + 1][..|path|];
        assert p[|path|] == p[..|path| + 1][|path|];
      }
      assert entries[0].name == p[|path|];
    }
  }

  lemma DistinctRest(entries: seq<Entry>)
    requires DistinctNames(entries) && entries != []
    ensures DistinctNames(entries[1..]) && (entries[0].Dir? ==> DistinctNames(entries[0].entries))
    ensures forall e :: e in entries[1..] ==> e.name != entries[0].name
  {
    forall i | 0 <= i < |entries[1..]| && entries[1..][i].Dir?
      ensures DistinctNames(entries[1..][i].entries)
    {
      assert entries[1..][i] == entries[i + 1];
    }
  }

  /** With distinct names every directory has its own path. */
  lemma {:induction false} FoldersDistinct(path: Path, entries: seq<Entry>, p: Path)
    requires DistinctNames(entries)
    ensures Folders(path, entries)[p] <= 1
    decreases entries
  {
    hide DistinctNames;
    if entries != [] {
      var e := entries[0];
      DistinctRest(entries);
      FoldersDistinct(path, entries[1..], p);
      if e.Dir? {
        FoldersDistinct(path + [e.name], e.entries, p);
        if p in Folders(path + [e.name], e.entries) {
          FoldersExtend(path + [e.name], e.entries, p);
          assert p[|path|] == p[..|path| + 1][|path|] == e.name;
        }
        if p in Folders(path, entries[1..]) {
          FoldersExtend(path, entries[1..], p);
          var i :| 0 <= i < |entries[1..]| && entries[1..][i].name == p[|path|];
          assert entries[1..][i] in entries[1..];
        }
      }
    }
  }

  lemma AllFoldersDistinct(root: Job, p: Path)
    requires DistinctNames(root.entries)
    ensures AllFolders(root)[p] <= 1
  {
    FoldersDistinct(root.path, root.entries, p);
    if p in Folders(root.path, root.entries) {
      FoldersExtend(root.path, root.entries, p);
    }
  }
}
