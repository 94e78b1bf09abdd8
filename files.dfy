/** The part of the filesystem the queue touches: files addressed by directory and
    base name, and the queue's directory layout (indexq.py:44-55). */
module Files {
  import opened Ordering

  /** A file path as a directory and a file name in it. When `name` is a single
      component (no `/`, not `.`, `..` or empty) this is the split `os.path.split` makes. */
  datatype Path = Path(dir: string, name: string)

  /** `os.path.join` of a directory and one relative component. */
  function Join(a: string, b: string): string {
    a + "/" + b
  }

  function QueueDir(base: string, queue: string): string {
    Join(base, queue)
  }

  function TodoDir(base: string, queue: string): string {
    Join(QueueDir(base, queue), "todo")
  }

  function DoneDir(base: string, queue: string): string {
    Join(QueueDir(base, queue), "done")
  }

  function LockPath(base: string, queue: string): Path {
    Path(QueueDir(base, queue), "index.lock")
  }

  /** The three places of one queue never coincide, so the lock file is never listed
      as work and a completed segment never lands back in `todo`. */
  lemma LayoutDistinct(base: string, queue: string)
    ensures TodoDir(base, queue) != DoneDir(base, queue)
    ensures LockPath(base, queue).dir != TodoDir(base, queue)
    ensures LockPath(base, queue).dir != DoneDir(base, queue)
  {
    var q := QueueDir(base, queue);
    assert TodoDir(base, queue)[|q| + 1] == 't';
    assert DoneDir(base, queue)[|q| + 1] == 'd';
  }

  /** The base names of the files directly inside `dir` (`os.listdir`, files only). */
  function Entries(files: map<Path, string>, dir: string): (names: set<string>)
    ensures forall n :: n in names <==> Path(dir, n) in files
  {
    var names := set p | p in files && p.dir == dir :: p.name;
    assert forall n :: Path(dir, n) in files ==> Path(dir, n).name in names;
    names
  }

  /** `shutil.move(src, join(dir, basename(src)))` on the file map. */
  function MoveInto(files: map<Path, string>, src: Path, dir: string): (moved: map<Path, string>)
    requires src in files
    ensures Path(dir, src.name) in moved && moved[Path(dir, src.name)] == files[src]
    ensures src.dir != dir ==> src !in moved
    ensures forall p :: p != src && p != Path(dir, src.name) ==>
              (p in moved <==> p in files) && (p in moved ==> moved[p] == files[p])
  {
    (files - {src})[Path(dir, src.name) := files[src]]
  }

  /** Moving a file out of directory `from` into directory `to` takes exactly its name
      out of `from`, adds exactly that name to `to` and leaves every other directory
      as it was. */
  lemma MoveTransfersOneName(files: map<Path, string>, src: Path, to: string)
    requires src in files && src.dir != to
    ensures Entries(MoveInto(files, src, to), src.dir) == Entries(files, src.dir) - {src.name}
    ensures Entries(MoveInto(files, src, to), to) == Entries(files, to) + {src.name}
    ensures forall d :: d != src.dir && d != to ==> Entries(MoveInto(files, src, to), d) == Entries(files, d)
  {
    var moved := MoveInto(files, src, to);
    forall d | d != src.dir && d != to
      ensures Entries(moved, d) == Entries(files, d)
    {
      forall n ensures n in Entries(moved, d) <==> n in Entries(files, d) {
        assert Path(d, n) != src && Path(d, n) != Path(to, src.name);
      }
    }
    forall n ensures n in Entries(moved, src.dir) <==> n in Entries(files, src.dir) - {src.name} {
      assert Path(src.dir, n) != Path(to, src.name);
    }
  }

  /** The files and directories of the host, shared by every queue object opened on it. */
  class FileSystem {
    var files: map<Path, string>
    var dirs: set<string>

    constructor (files: map<Path, string>, dirs: set<string>)
      ensures this.files == files && this.dirs == dirs
    {
      this.files := files;
      this.dirs := dirs;
    }

    /** `os.listdir(dir)`: each file of the directory once, in an order the model
        leaves open. */
    method ListDir(dir: string) returns (names: seq<string>)
      ensures NoDuplicates(names)
      ensures forall n :: n in names <==> Path(dir, n) in files
    {
      var left := Entries(files, dir);
      names := [];
      while left != {}
        invariant NoDuplicates(names)
        invariant forall n :: n in names ==> n !in left
        invariant forall n :: n in names || n in left <==> Path(dir, n) in files
        decreases |left|
      {
        var n :| n in left;
        names := names + [n];
        left := left - {n};
      }
    }
  }
}
