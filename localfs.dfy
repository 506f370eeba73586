/** The local filesystem as the relay sees it: a set of directories and a map
    from file paths to their contents. Paths are plain strings joined with "/". */
module LocalFs {

  type Path = string
  type Bytes = seq<bv8>

  datatype FsState = FsState(dirs: set<Path>, files: map<Path, Bytes>)

  /** `os.path.join(dir, name)` for a non-empty directory name that does not
      end in "/", which is what `Fresh` admits as a `mkdtemp` name. */
  function Join(dir: Path, name: string): (p: Path)
    requires name != ""
    ensures Under(p, dir) && p != dir
  {
    dir + "/" + name
  }

  /** `p` lies somewhere inside directory `d`. */
  predicate Under(p: Path, d: Path)
  {
    d + "/" <= p
  }

  /** `os.path.exists(p)`: a directory or a file is there. */
  predicate Exists(fs: FsState, p: Path)
  {
    p in fs.dirs || p in fs.files
  }

  /** Nothing is at `d` or inside it, and `d` is a non-empty name without a
      trailing "/": what `tempfile.mkdtemp` guarantees of the directory it
      creates. */
  predicate Fresh(fs: FsState, d: Path)
  {
    d != "" && d[|d| - 1] != '/' && !Exists(fs, d) &&
    (forall p :: p in fs.dirs ==> !Under(p, d)) &&
    (forall p :: p in fs.files ==> !Under(p, d))
  }

  /** Nothing is at `d` or inside it any more. */
  ghost predicate Gone(fs: FsState, d: Path)
  {
    !Exists(fs, d) && forall p :: Under(p, d) ==> !Exists(fs, p)
  }

  /** The two states hold the same directories and files everywhere outside
      the tree rooted at `d`. */
  ghost predicate SameOutside(a: FsState, b: FsState, d: Path)
  {
    (forall p :: p != d && !Under(p, d) ==> (p in a.dirs <==> p in b.dirs)) &&
    (forall p :: p != d && !Under(p, d) ==> (p in a.files <==> p in b.files)) &&
    (forall p :: p != d && !Under(p, d) && p in a.files && p in b.files ==> a.files[p] == b.files[p])
  }

  function AddDir(fs: FsState, d: Path): (r: FsState)
    ensures Exists(r, d) && r.files == fs.files
    ensures SameOutside(r, fs, d)
  {
    fs.(dirs := fs.dirs + {d})
  }

  /** Writes one file, replacing what was there. */
  function Put(fs: FsState, p: Path, content: Bytes): (r: FsState)
    ensures p in r.files && r.files[p] == content
    ensures r.dirs == fs.dirs
    ensures forall q :: q != p ==> (q in r.files <==> q in fs.files)
    ensures forall q :: q != p && q in fs.files ==> r.files[q] == fs.files[q]
  {
    fs.(files := fs.files[p := content])
  }

  /** Removes one file, if it is there. */
  function Drop(fs: FsState, p: Path): (r: FsState)
    ensures p !in r.files && r.dirs == fs.dirs
    ensures forall q :: q != p && q in fs.files ==> q in r.files && r.files[q] == fs.files[q]
    ensures r.files.Keys <= fs.files.Keys
  {
    fs.(files := fs.files - {p})
  }

  /** Writes several files at once, later writes winning. */
  function PutAll(fs: FsState, written: map<Path, Bytes>): (r: FsState)
    ensures r.dirs == fs.dirs
    ensures forall q :: q in r.files <==> q in fs.files || q in written
    ensures forall q :: q in written ==> r.files[q] == written[q]
    ensures forall q :: q !in written && q in fs.files ==> r.files[q] == fs.files[q]
  {
    fs.(files := fs.files + written)
  }

  /** `shutil.rmtree(d)` when it succeeds: `d` and everything inside it is
      removed, everything else is kept. */
  function Prune(fs: FsState, d: Path): (r: FsState)
    ensures Gone(r, d)
    ensures SameOutside(r, fs, d)
    ensures r.dirs <= fs.dirs
  {
    FsState(set p | p in fs.dirs && p != d && !Under(p, d),
            map p | p in fs.files && p != d && !Under(p, d) :: fs.files[p])
  }

  /** Pruning the same tree from two states that agree outside it gives the
      same state. */
  lemma PruneSameOutside(a: FsState, b: FsState, d: Path)
    requires SameOutside(a, b, d)
    ensures Prune(a, d) == Prune(b, d)
  {
  }

  lemma SameOutsideTrans(a: FsState, b: FsState, c: FsState, d: Path)
    requires SameOutside(a, b, d) && SameOutside(b, c, d)
    ensures SameOutside(a, c, d)
  {
  }

  /** Writing a file inside `d` changes nothing outside it. */
  lemma PutInside(fs: FsState, p: Path, content: Bytes, d: Path)
    requires Under(p, d)
    ensures SameOutside(Put(fs, p, content), fs, d)
  {
  }

  /** Adding the same files to two states keeps them alike outside `d`. */
  lemma PutAllBoth(a: FsState, b: FsState, written: map<Path, Bytes>, d: Path)
    requires SameOutside(a, b, d)
    ensures SameOutside(PutAll(a, written), PutAll(b, written), d)
  {
  }

  /** Removing a file inside `d` changes nothing outside it. */
  lemma DropInside(fs: FsState, p: Path, d: Path)
    requires Under(p, d)
    ensures SameOutside(Drop(fs, p), fs, d)
  {
  }

  lemma PutAllTwice(fs: FsState, first: map<Path, Bytes>, second: map<Path, Bytes>)
    ensures PutAll(PutAll(fs, first), second) == PutAll(fs, first + second)
  {
  }

  /** The real filesystem, changed in place by the handler. */
  class Disk {
    var dirs: set<Path>
    var files: map<Path, Bytes>

    function State(): FsState
      reads this
    {
      FsState(dirs, files)
    }

    constructor (fs: FsState)
      ensures State() == fs
    {
      dirs, files := fs.dirs, fs.files;
    }

    /** `os.path.exists(p)` */
    method PathExists(p: Path) returns (b: bool)
      ensures b <==> Exists(State(), p)
    {
      b := p in dirs || p in files;
    }

    /** Whether `p` is a regular file that can be opened for reading. */
    method IsFile(p: Path) returns (b: bool)
      ensures b <==> p in State().files
    {
      b := p in files;
    }

    method Read(p: Path) returns (content: Bytes)
      requires p in files
      ensures content == State().files[p]
    {
      content := files[p];
    }

    /** The directory `tempfile.mkdtemp` creates. */
    method CreateDir(d: Path)
      modifies this
      ensures State() == AddDir(old(State()), d)
    {
      dirs := dirs + {d};
    }

    method WriteFile(p: Path, content: Bytes)
      modifies this
      ensures State() == Put(old(State()), p, content)
    {
      files := files[p := content];
    }

    method WriteFiles(written: map<Path, Bytes>)
      modifies this
      ensures State() == PutAll(old(State()), written)
    {
      files := files + written;
    }

    /** `shutil.copy2(src, dst)` once it has accepted both paths. */
    method CopyFile(src: Path, dst: Path)
      requires src in files
      modifies this
      ensures State() == Put(old(State()), dst, old(files[src]))
    {
      files := files[dst := files[src]];
    }

    /** The copy `shutil.copy2` made disappears again (an interrupted copy,
        or another process removing it). */
    method DropFile(p: Path)
      modifies this
      ensures State() == Drop(old(State()), p)
    {
      files := files - {p};
    }

    /** `shutil.rmtree(d)` when it succeeds. */
    method RemoveTree(d: Path)
      modifies this
      ensures State() == Prune(old(State()), d)
    {
      dirs := set p | p in dirs && p != d && !Under(p, d);
      files := map p | p in files && p != d && !Under(p, d) :: files[p];
    }
  }
}
