/**
 * The local filesystem, as far as the download and save steps touch it: a map
 * from path to entry. `shutil.move`, `shutil.rmtree` and the files the external
 * downloader writes are functions on that map; the class holds the current map.
 */
module Files {
  import opened Common
  import Paths

  datatype Entry = File(data: seq<bv8>) | Directory

  type Tree = map<string, Entry>

  predicate IsFile(t: Tree, p: string) {
    p in t && t[p].File?
  }

  predicate IsDir(t: Tree, p: string) {
    p in t && t[p].Directory?
  }

  /** A file the external downloader leaves in the scratch directory. */
  datatype NamedFile = NamedFile(name: string, data: seq<bv8>)

  /** The tree after writing `files` into `dir`, in order (a later file of the same name wins). */
  function Written(t: Tree, dir: string, files: seq<NamedFile>): Tree
    decreases |files|
  {
    if files == [] then t
    else Written(t[Paths.Join(dir, files[0].name) := File(files[0].data)], dir, files[1..])
  }

  /** Writing touches only the joined paths: every other entry keeps its value. */
  lemma {:induction false} WrittenElsewhere(t: Tree, dir: string, files: seq<NamedFile>, p: string)
    requires forall k :: 0 <= k < |files| ==> p != Paths.Join(dir, files[k].name)
    ensures (p in Written(t, dir, files) <==> p in t)
    ensures p in t ==> Written(t, dir, files)[p] == t[p]
    decreases |files|
  {
    if files != [] {
      WrittenElsewhere(t[Paths.Join(dir, files[0].name) := File(files[0].data)], dir, files[1..], p);
    }
  }

  /** Every written name ends up as a regular file below `dir`. */
  lemma {:induction false} WrittenIsFile(t: Tree, dir: string, files: seq<NamedFile>, k: nat)
    requires k < |files|
    ensures IsFile(Written(t, dir, files), Paths.Join(dir, files[k].name))
    decreases |files|
  {
    var t' := t[Paths.Join(dir, files[0].name) := File(files[0].data)];
    if k > 0 {
      WrittenIsFile(t', dir, files[1..], k - 1);
    } else if |files| > 1 {
      WrittenKeepsFiles(t', dir, files[1..], Paths.Join(dir, files[0].name));
    }
  }

  lemma {:induction false} WrittenKeepsFiles(t: Tree, dir: string, files: seq<NamedFile>, p: string)
    requires IsFile(t, p)
    ensures IsFile(Written(t, dir, files), p)
    decreases |files|
  {
    if files != [] {
      WrittenKeepsFiles(t[Paths.Join(dir, files[0].name) := File(files[0].data)], dir, files[1..], p);
    }
  }

  /**
   * `shutil.rmtree(d, ignore_errors=True)`: an existing directory goes together
   * with everything below it; otherwise the call fails silently and nothing changes.
   */
  function RemovedTree(t: Tree, d: string): Tree {
    if d != [] && IsDir(t, d) then map p | p in t && !Paths.Within(p, d) :: t[p] else t
  }

  /** Removing a tree keeps exactly the entries outside it, unchanged, and is a no-op when `d` is not a directory. */
  lemma RemovedTreeKeepsOutside(t: Tree, d: string)
    ensures var r := RemovedTree(t, d);
      && (d != [] && IsDir(t, d) ==> forall p :: p in r <==> p in t && !Paths.Within(p, d))
      && (!(d != [] && IsDir(t, d)) ==> r == t)
      && (forall p :: p in r ==> p in t && r[p] == t[p])
  {
  }

  /** Where `shutil.move(src, dst)` puts the file: inside `dst` when that is a directory. */
  function MoveTarget(t: Tree, src: string, dst: string): string {
    if IsDir(t, dst) then Paths.Join(dst, Paths.BaseName(src)) else dst
  }

  /**
   * The directory a new entry at `p` goes into exists: the current directory
   * (no '/' in `p`), the root, or a directory of the tree.
   */
  predicate ParentPresent(t: Tree, p: string) {
    var parent := Paths.DirName(p);
    parent == [] || Paths.AllSeps(parent) || IsDir(t, parent)
  }

  /**
   * The exception `shutil.move(src, dst)` raises, if any, in the order the
   * move meets them: an entry already at the target inside a directory `dst`,
   * then the failed rename falling back to a copy, which cannot open a
   * missing source, then cannot create the target in a missing (or
   * non-directory) parent.
   */
  function MoveError(t: Tree, src: string, dst: string): (e: Option<string>)
    ensures e == None <==> && IsFile(t, src) && ParentPresent(t, MoveTarget(t, src, dst))
                           && !(IsDir(t, dst) && MoveTarget(t, src, dst) in t)
    ensures e == None ==> !IsDir(t, MoveTarget(t, src, dst))
  {
    var target := MoveTarget(t, src, dst);
    if IsDir(t, dst) && target in t then Some("Destination path '" + target + "' already exists")
    else if !IsFile(t, src) then Some("[Errno 2] No such file or directory: '" + src + "'")
    else if !ParentPresent(t, target) then
      if IsFile(t, Paths.DirName(target)) then Some("[Errno 20] Not a directory: '" + target + "'")
      else Some("[Errno 2] No such file or directory: '" + target + "'")
    else None
  }

  /**
   * An entry already at the target inside a directory `dst` is reported
   * before anything about the source: even a missing source gets "already exists".
   */
  lemma MoveErrorChecksTargetFirst(t: Tree, src: string, dst: string)
    requires IsDir(t, dst) && Paths.Join(dst, Paths.BaseName(src)) in t
    ensures MoveError(t, src, dst) == Some("Destination path '" + Paths.Join(dst, Paths.BaseName(src)) + "' already exists")
  {
  }

  /** Moving a file into a directory that does not exist fails on the target, and the source stays. */
  lemma MoveIntoMissingDirectoryFails(t: Tree, src: string, dst: string)
    requires IsFile(t, src) && !IsDir(t, dst)
    requires Paths.DirName(dst) != [] && !Paths.AllSeps(Paths.DirName(dst)) && Paths.DirName(dst) !in t
    ensures MoveError(t, src, dst) == Some("[Errno 2] No such file or directory: '" + dst + "'")
  {
  }

  /** The tree after a successful move: the source's content now sits at the target, replacing any file there. */
  function Moved(t: Tree, src: string, dst: string): Tree
    requires MoveError(t, src, dst) == None
  {
    (t - {src})[MoveTarget(t, src, dst) := t[src]]
  }

  /** After a move the target holds the source's content, the source is gone, and every other entry is as before. */
  lemma MovedRelocates(t: Tree, src: string, dst: string)
    requires MoveError(t, src, dst) == None
    ensures var r := Moved(t, src, dst); var target := MoveTarget(t, src, dst);
      && IsFile(r, target) && r[target] == t[src]
      && (src != target ==> src !in r)
      && (forall p :: p != src && p != target ==> (p in r <==> p in t))
      && (forall p :: p in r && p != src && p != target ==> r[p] == t[p])
  {
  }

  /** The machine's filesystem. */
  class FileSystem {
    var entries: Tree

    constructor (initial: Tree)
      ensures entries == initial
    {
      entries := initial;
    }

    /** Creates directory `dir` and lets the external downloader write `files` into it. */
    method Populate(dir: string, files: seq<NamedFile>)
      modifies this
      ensures entries == Written(old(entries)[dir := Directory], dir, files)
    {
      entries := Written(entries[dir := Directory], dir, files);
    }

    /** `shutil.move(src, dst)`: on failure the error and an unchanged tree. */
    method Move(src: string, dst: string) returns (err: Option<string>)
      modifies this
      ensures err == MoveError(old(entries), src, dst)
      ensures entries == if err == None then Moved(old(entries), src, dst) else old(entries)
    {
      err := MoveError(entries, src, dst);
      if err == None {
        entries := Moved(entries, src, dst);
      }
    }

    /** `shutil.rmtree(d, ignore_errors=True)`. */
    method RemoveTree(d: string)
      modifies this
      ensures entries == RemovedTree(old(entries), d)
    {
      entries := RemovedTree(entries, d);
    }
  }
}
