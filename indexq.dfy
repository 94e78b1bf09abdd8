/** The queue engine `IndexQ` (SolrClient/indexq.py): open a queue directory, buffer
    records and write them out as segment files in `todo`, lock the queue for a
    consumer, drain `todo` oldest first and move finished segments to `done`. */
module IndexQueue {
  import opened Results
  import opened Decimal
  import opened Items
  import opened Segments
  import opened BufferPolicy
  import opened Ordering
  import opened Files
  import opened LockFile

  /** What `add` returns: the buffer size when nothing was written, else the path of
      the segment just written. */
  datatype AddOutcome = BufferSize(size: nat) | Written(path: Path)

  /** The directory `get_all_as_list` scans. */
  datatype Area = TodoArea | DoneArea

  /** Some candidate path is not taken yet. */
  predicate SomeFresh(cands: seq<Path>, taken: map<Path, string>) {
    exists i :: 0 <= i < |cands| && cands[i] !in taken
  }

  /** The index of the first candidate not taken: where the retry loop of
      `_write_file` stops. */
  function FirstFresh(cands: seq<Path>, taken: map<Path, string>): (k: nat)
    requires SomeFresh(cands, taken)
    ensures k < |cands| && cands[k] !in taken
    ensures forall j :: 0 <= j < k ==> cands[j] in taken
  {
    if cands[0] !in taken then 0
    else
      assert SomeFresh(cands[1..], taken) by {
        var i :| 0 <= i < |cands| && cands[i] !in taken;
        assert cands[1..][i - 1] == cands[i];
      }
      1 + FirstFresh(cands[1..], taken)
  }

  /** The names of `names` that pass the segment filter, in their order. */
  function SegmentsOnly(names: seq<string>): (kept: seq<string>)
    ensures forall n :: n in kept <==> n in names && IsSegmentName(n)
    ensures NoDuplicates(names) ==> NoDuplicates(kept)
  {
    if names == [] then []
    else
      var rest := SegmentsOnly(names[1..]);
      assert forall n :: n in names <==> n == names[0] || n in names[1..];
      if IsSegmentName(names[0]) then [names[0]] + rest else rest
  }

  /** `[os.path.join(dir, x) for x in names]`. */
  function InDir(names: seq<string>, dir: string): (paths: seq<Path>)
    ensures |paths| == |names|
    ensures forall i :: 0 <= i < |names| ==> paths[i] == Path(dir, names[i])
  {
    seq(|names|, i requires 0 <= i < |names| => Path(dir, names[i]))
  }

  /** The comprehension and sort of `get_all_as_list` applied to a directory listing:
      the segment names of the listing joined to `dir`, ordered by modification time. */
  function SegmentPaths(names: seq<string>, dir: string, mtime: Path -> int): (paths: seq<Path>)
    ensures SortedBy(paths, mtime)
    ensures forall p :: p in paths <==> p.dir == dir && p.name in names && IsSegmentName(p.name)
    ensures NoDuplicates(names) ==> NoDuplicates(paths)
  {
    SortedSegmentPaths(names, dir, mtime);
    SortBy(InDir(SegmentsOnly(names), dir), mtime)
  }

  lemma SortedSegmentPaths(names: seq<string>, dir: string, mtime: Path -> int)
    ensures var paths := SortBy(InDir(SegmentsOnly(names), dir), mtime);
      SortedBy(paths, mtime) &&
      (forall p :: p in paths <==> p.dir == dir && p.name in names && IsSegmentName(p.name)) &&
      (NoDuplicates(names) ==> NoDuplicates(paths))
  {
    var kept := SegmentsOnly(names);
    var joined := InDir(kept, dir);
    var sorted := SortBy(joined, mtime);
    SortByCorrect(joined, mtime);
    if NoDuplicates(names) {
      PermutationKeepsNoDuplicates(joined, sorted);
    }
    forall p ensures p in sorted <==> p in joined {
      assert p in sorted <==> p in multiset(sorted);
      assert p in joined <==> p in multiset(joined);
    }
    forall p ensures p in joined <==> p.dir == dir && p.name in names && IsSegmentName(p.name) {
      if p in joined {
        var i :| 0 <= i < |joined| && joined[i] == p;
        assert kept[i] in kept;
      }
      if p.dir == dir && p.name in names && IsSegmentName(p.name) {
        var i :| 0 <= i < |kept| && kept[i] == p.name;
        assert joined[i] == p;
      }
    }
  }

  /** What a drain promises: each segment file of `dir` exactly once, nothing else,
      in non-decreasing order of modification time. */
  ghost predicate DrainOrder(files: map<Path, string>, dir: string, listing: seq<Path>, mtime: Path -> int) {
    SortedBy(listing, mtime) && NoDuplicates(listing) &&
    forall p :: p in listing <==> p in files && p.dir == dir && IsSegmentName(p.name)
  }

  lemma SegmentPathsInDrainOrder(files: map<Path, string>, names: seq<string>, dir: string, mtime: Path -> int)
    requires NoDuplicates(names)
    requires forall n :: n in names <==> Path(dir, n) in files
    ensures DrainOrder(files, dir, SegmentPaths(names, dir, mtime), mtime)
  {
    forall p: Path | p.dir == dir
      ensures p.name in names <==> p in files
    {
      assert p == Path(dir, p.name);
    }
  }

  /** When no two segment files of `dir` share a modification time, the drain order is
      fully determined: segments written at increasing times come out in exactly that
      order. */
  lemma DrainOrderDetermined(files: map<Path, string>, dir: string, l1: seq<Path>, l2: seq<Path>, mtime: Path -> int)
    requires DrainOrder(files, dir, l1, mtime) && DrainOrder(files, dir, l2, mtime)
    requires forall p, p' :: p in l1 && p' in l1 && mtime(p) == mtime(p') ==> p == p'
    ensures l1 == l2
  {
    SortedUnique(l1, l2, mtime);
  }

  /** `len(str(items))` of a non-empty list is at least 2: the brackets alone. */
  ghost predicate ReprLenSound(reprLen: seq<Value> -> nat) {
    forall s: seq<Value> :: s != [] ==> reprLen(s) >= 2
  }

  /** A queue object of `IndexQ`. The configuration is fixed when it is opened; the
      buffer (`buf`, `size`) is the state the `_buffer` closure captures; the files
      live in the shared `fs`. */
  class IndexQ {
    const fs: FileSystem
    const basepath: string
    const queue: string
    const compress: bool
    /** The configured buffer size, in megabytes. */
    const sizeMb: int
    const threshold: real
    const mode: string
    /** `json.dumps(buf, indent=0, sort_keys=True)`. */
    const dumps: seq<Value> -> string
    /** `len(str(items))`. */
    const reprLen: seq<Value> -> nat
    var buf: seq<Value>
    var size: nat

    /** The queue's directories exist, and `reprLen` measures as `len(str(...))` does. */
    ghost predicate Valid()
      reads fs
    {
      {QueueDir(basepath, queue), TodoDir(basepath, queue), DoneDir(basepath, queue)} <= fs.dirs &&
      ReprLenSound(reprLen)
    }

    /** `__init__`: fix the layout and create the three directories if absent. The
        defaults are those of the source: no compression, size 0, threshold 0.90, mode "in". */
    constructor (fs: FileSystem, basepath: string, queue: string,
                 dumps: seq<Value> -> string, reprLen: seq<Value> -> nat,
                 compress: bool := false, sizeMb: int := 0, threshold: real := 0.9, mode: string := "in")
      requires ReprLenSound(reprLen)
      modifies fs
      ensures this.fs == fs && this.basepath == basepath && this.queue == queue
      ensures this.compress == compress && this.sizeMb == sizeMb && this.threshold == threshold
      ensures this.mode == mode && this.dumps == dumps && this.reprLen == reprLen
      ensures buf == [] && size == 0
      ensures fs.files == old(fs.files)
      ensures fs.dirs == old(fs.dirs) + {QueueDir(basepath, queue), TodoDir(basepath, queue), DoneDir(basepath, queue)}
      ensures Valid()
    {
      this.fs := fs;
      this.basepath := basepath;
      this.queue := queue;
      this.compress := compress;
      this.sizeMb := sizeMb;
      this.threshold := threshold;
      this.mode := mode;
      this.dumps := dumps;
      this.reprLen := reprLen;
      buf := [];
      size := 0;
      new;
      fs.dirs := fs.dirs + {QueueDir(basepath, queue), TodoDir(basepath, queue), DoneDir(basepath, queue)};
    }

    function Osize(): int {
      EffectiveCapacity(sizeMb)
    }

    function LockFilePath(): Path {
      LockPath(basepath, queue)
    }

    /** The path `_write_file` tries for one reading of the clock and the random
        generator, on a queue whose name `str.format` can read. */
    function Candidate(st: Stamp): Path
      requires FormatLiteral(queue).Some?
    {
      Path(TodoDir(basepath, queue), SegmentName(FormatLiteral(queue).value, st, compress))
    }

    function Candidates(stamps: seq<Stamp>): (cands: seq<Path>)
      requires FormatLiteral(queue).Some?
      ensures |cands| == |stamps|
      ensures forall i :: 0 <= i < |stamps| ==> cands[i] == Candidate(stamps[i])
    {
      seq(|stamps|, i requires 0 <= i < |stamps| => Candidate(stamps[i]))
    }

    /** What the clock and the random generator yield on successive tries: real readings,
        among which some name is not taken yet (the retry loop of `_write_file` runs
        forever otherwise). */
    predicate UsableStamps(stamps: seq<Stamp>, taken: map<Path, string>) {
      (forall i :: 0 <= i < |stamps| ==> ValidStamp(stamps[i])) &&
      (FormatLiteral(queue).Some? ==> SomeFresh(Candidates(stamps), taken))
    }

    /** The path the next segment is written to. */
    function NextSegment(stamps: seq<Stamp>, taken: map<Path, string>): Path
      requires FormatLiteral(queue).Some? && SomeFresh(Candidates(stamps), taken)
    {
      Candidates(stamps)[FirstFresh(Candidates(stamps), taken)]
    }

    lemma NextSegmentIsFirstFree(stamps: seq<Stamp>, taken: map<Path, string>)
      requires FormatLiteral(queue).Some? && SomeFresh(Candidates(stamps), taken)
      ensures NextSegment(stamps, taken) !in taken
      ensures exists i :: 0 <= i < |stamps| && NextSegment(stamps, taken) == Candidate(stamps[i]) &&
                          forall j :: 0 <= j < i ==> Candidate(stamps[j]) in taken
    {
      var cands := Candidates(stamps);
      var k := FirstFresh(cands, taken);
      assert forall j :: 0 <= j < k ==> Candidate(stamps[j]) in taken by {
        forall j | 0 <= j < k ensures Candidate(stamps[j]) in taken {
          assert Candidate(stamps[j]) == cands[j];
        }
      }
      assert NextSegment(stamps, taken) == Candidate(stamps[k]);
    }

    /** What `_write_file` returns, given the stamps it will read, the files present and
        whether the write succeeds: a queue name `str.format` cannot read raises before
        anything is written; otherwise the path is the first tried name that was free, a
        segment of this queue in `todo`, compressed exactly when the queue compresses. */
    function WriteOutcome(stamps: seq<Stamp>, taken: map<Path, string>, ioOk: bool): (r: Result<Path, QueueError>)
      requires UsableStamps(stamps, taken)
      ensures r == Err(BadQueueName) <==> FormatLiteral(queue).None?
      ensures r == Err(WriteFailed) <==> FormatLiteral(queue).Some? && !ioOk
      ensures r.Ok? <==> FormatLiteral(queue).Some? && ioOk
      ensures r.Ok? ==> r.value !in taken && r.value.dir == TodoDir(basepath, queue)
      ensures r.Ok? ==> StartsWith(r.value.name, FormatLiteral(queue).value + "_") && IsSegmentName(r.value.name)
      ensures r.Ok? ==> (EndsWith(r.value.name, ".gz") <==> compress)
      ensures r.Ok? ==> exists i :: 0 <= i < |stamps| && r.value == Candidate(stamps[i]) &&
                         forall j :: 0 <= j < i ==> Candidate(stamps[j]) in taken
    {
      if FormatLiteral(queue).None? then Err(BadQueueName)
      else if !ioOk then Err(WriteFailed)
      else
        NextSegmentIsFirstFree(stamps, taken);
        Ok(NextSegment(stamps, taken))
    }

    /** `_write_file`: try names until one is free, then write `content` there. `stamps`
        is what the clock and the random generator yield on successive tries; `ioOk`
        says whether the write succeeds. */
    method WriteFile(content: string, stamps: seq<Stamp>, ioOk: bool) returns (r: Result<Path, QueueError>)
      requires UsableStamps(stamps, fs.files)
      modifies fs
      ensures fs.dirs == old(fs.dirs)
      ensures r == WriteOutcome(stamps, old(fs.files), ioOk)
      ensures fs.files == if r.Ok? then old(fs.files)[r.value := content] else old(fs.files)
    {
      if FormatLiteral(queue).None? {
        return Err(BadQueueName);
      }
      ghost var cands := Candidates(stamps);
      ghost var k := FirstFresh(cands, fs.files);
      var i := 0;
      var path := Candidate(stamps[0]);
      while path in fs.files
        invariant 0 <= i <= k && path == cands[i]
        decreases k - i
      {
        i := i + 1;
        path := Candidate(stamps[i]);
      }
      assert i == k;
      if !ioOk {
        return Err(WriteFailed);
      }
      fs.files := fs.files[path := content];
      r := Ok(path);
    }

    /** The effect of one call of the buffer closure `inner` (indexq.py:121-143): append
        `items`, then write the whole buffer out when the flush test holds; a failed
        write keeps everything appended so far. Whatever happens, no existing file is
        changed or removed, and the buffer is either emptied by a write or has grown by
        exactly `items`. */
    function InnerEffect(buf0: seq<Value>, size0: nat, files0: map<Path, string>,
                         items: seq<Value>, finalize: bool, stamps: seq<Stamp>, ioOk: bool,
                         r: Result<AddOutcome, QueueError>,
                         buf1: seq<Value>, size1: nat, files1: map<Path, string>): (holds: bool)
      requires UsableStamps(stamps, files0)
      ensures holds ==> forall p :: p in files0 ==> p in files1 && files1[p] == files0[p]
      ensures holds && r.Ok? && r.value.Written? ==>
                buf1 == [] && size1 == 0 && r.value.path !in files0 &&
                files1.Keys == files0.Keys + {r.value.path}
      ensures holds && !(r.Ok? && r.value.Written?) ==> buf1 == buf0 + items && files1 == files0
    {
      var grown := buf0 + items;
      var grownSize := size0 + (if items != [] then reprLen(items) else 0);
      if !FlushDue(grownSize, Osize(), threshold, finalize, |grown|) then
        r == Ok(BufferSize(grownSize)) && buf1 == grown && size1 == grownSize && files1 == files0
      else
        var w := WriteOutcome(stamps, files0, ioOk);
        if w.Ok? then
          assert w.value !in files0;
          r == Ok(Written(w.value)) && buf1 == [] && size1 == 0 && files1 == files0[w.value := dumps(grown)]
        else
          r == Err(w.error) && buf1 == grown && size1 == grownSize && files1 == files0
    }

    /** The buffer closure `inner`; `items` is `[]` for the falsy item the source defaults to. */
    method Inner(stamps: seq<Stamp>, ioOk: bool, items: seq<Value> := [], finalize: bool := false)
      returns (r: Result<AddOutcome, QueueError>)
      requires UsableStamps(stamps, fs.files)
      modifies this, fs
      ensures fs.dirs == old(fs.dirs)
      ensures InnerEffect(old(buf), old(size), old(fs.files), items, finalize, stamps, ioOk, r, buf, size, fs.files)
    {
      if items != [] {
        buf := buf + items;
        size := size + reprLen(items);
      }
      assert buf == old(buf) + items;
      if FlushDue(size, Osize(), threshold, finalize, |buf|) {
        var written := WriteFile(dumps(buf), stamps, ioOk);
        if written.Err? {
          return Err(written.error);
        }
        buf := [];
        size := 0;
        return Ok(Written(written.value));
      }
      r := Ok(BufferSize(size));
    }

    /** `add`: dispatch on the item's type, then buffer, write directly or reject.
        Only a queue opened in mode "in" has a buffer and an output name pattern. */
    method Add(stamps: seq<Stamp>, ioOk: bool, item: Item := NoneItem, finalize: bool := false)
      returns (r: Result<AddOutcome, QueueError>)
      requires UsableStamps(stamps, fs.files)
      modifies this, fs
      ensures fs.dirs == old(fs.dirs)
      ensures Classify(item).Rejected? ==>
                r == Err(ValueError) && buf == old(buf) && size == old(size) && fs.files == old(fs.files)
      ensures !Classify(item).Rejected? && mode != "in" ==>
                r == Err(NoBuffer) && buf == old(buf) && size == old(size) && fs.files == old(fs.files)
      ensures Classify(item).Direct? && mode == "in" ==>
                buf == old(buf) && size == old(size) &&
                (WriteOutcome(stamps, old(fs.files), ioOk).Ok? ==>
                   r == Ok(Written(WriteOutcome(stamps, old(fs.files), ioOk).value)) &&
                   fs.files == old(fs.files)[r.value.path := Classify(item).text]) &&
                (WriteOutcome(stamps, old(fs.files), ioOk).Err? ==>
                   r == Err(WriteOutcome(stamps, old(fs.files), ioOk).error) && fs.files == old(fs.files))
      ensures Classify(item).Buffered? && mode == "in" ==>
                InnerEffect(old(buf), old(size), old(fs.files), Classify(item).elems, finalize, stamps, ioOk,
                            r, buf, size, fs.files)
    {
      var d := Classify(item);
      match d
      case Rejected =>
        r := Err(ValueError);
      case Direct(text) =>
        if mode != "in" {
          return Err(NoBuffer);
        }
        var written := WriteFile(text, stamps, ioOk);
        r := if written.Ok? then Ok(Written(written.value)) else Err(written.error);
      case Buffered(elems) =>
        if mode != "in" {
          return Err(NoBuffer);
        }
        r := Inner(stamps, ioOk, elems, finalize);
    }

    /** Buffer-only law: a call that keeps the buffer at or below `threshold * osize`
        and does not finalize writes no file and only appends. */
    lemma NoWriteBelowThreshold(buf0: seq<Value>, size0: nat, files0: map<Path, string>,
                                items: seq<Value>, stamps: seq<Stamp>, ioOk: bool,
                                r: Result<AddOutcome, QueueError>,
                                buf1: seq<Value>, size1: nat, files1: map<Path, string>)
      requires UsableStamps(stamps, files0)
      requires InnerEffect(buf0, size0, files0, items, false, stamps, ioOk, r, buf1, size1, files1)
      requires ((size0 + (if items != [] then reprLen(items) else 0)) as real) <= threshold * (Osize() as real)
      ensures files1 == files0 && buf1 == buf0 + items && r.Ok? && r.value.BufferSize?
    {
    }

    /** A call that writes a segment writes the whole buffer, the new items last, to a
        path that was free, and empties the buffer. */
    lemma FlushWritesWholeBuffer(buf0: seq<Value>, size0: nat, files0: map<Path, string>,
                                 items: seq<Value>, finalize: bool, stamps: seq<Stamp>, ioOk: bool,
                                 r: Result<AddOutcome, QueueError>,
                                 buf1: seq<Value>, size1: nat, files1: map<Path, string>)
      requires UsableStamps(stamps, files0)
      requires InnerEffect(buf0, size0, files0, items, finalize, stamps, ioOk, r, buf1, size1, files1)
      requires r.Ok? && r.value.Written?
      ensures r.value.path !in files0 && r.value.path.dir == TodoDir(basepath, queue)
      ensures files1 == files0[r.value.path := dumps(buf0 + items)]
      ensures buf1 == [] && size1 == 0
    {
    }

    /** With no configured size and a threshold below 1, every call that adds a record
        writes the whole buffer out at once (when the name is readable and the write
        succeeds): `len(str(items))` is never 0 for a non-empty list. */
    lemma UnsizedQueueWritesEveryAdd(buf0: seq<Value>, size0: nat, files0: map<Path, string>,
                                     items: seq<Value>, finalize: bool, stamps: seq<Stamp>,
                                     r: Result<AddOutcome, QueueError>,
                                     buf1: seq<Value>, size1: nat, files1: map<Path, string>)
      requires ReprLenSound(reprLen) && sizeMb <= 0 && threshold < 1.0 && items != []
      requires FormatLiteral(queue).Some? && UsableStamps(stamps, files0)
      requires InnerEffect(buf0, size0, files0, items, finalize, stamps, true, r, buf1, size1, files1)
      ensures r == Ok(Written(NextSegment(stamps, files0)))
      ensures buf1 == [] && size1 == 0 && files1 == files0[NextSegment(stamps, files0) := dumps(buf0 + items)]
    {
      var grownSize := size0 + (if items != [] then reprLen(items) else 0);
      assert reprLen(items) >= 2;
      UnsizedBufferFlushesEveryAdd(sizeMb, grownSize, threshold, finalize, |buf0 + items|);
      WritesWhenDue(buf0, size0, files0, items, finalize, stamps, r, buf1, size1, files1);
    }

    lemma WritesWhenDue(buf0: seq<Value>, size0: nat, files0: map<Path, string>,
                        items: seq<Value>, finalize: bool, stamps: seq<Stamp>,
                        r: Result<AddOutcome, QueueError>,
                        buf1: seq<Value>, size1: nat, files1: map<Path, string>)
      requires FormatLiteral(queue).Some? && UsableStamps(stamps, files0)
      requires FlushDue(size0 + (if items != [] then reprLen(items) else 0), Osize(), threshold, finalize, |buf0 + items|)
      requires InnerEffect(buf0, size0, files0, items, finalize, stamps, true, r, buf1, size1, files1)
      ensures r == Ok(Written(NextSegment(stamps, files0)))
      ensures buf1 == [] && size1 == 0 && files1 == files0[NextSegment(stamps, files0) := dumps(buf0 + items)]
    {
      assert WriteOutcome(stamps, files0, true) == Ok(NextSegment(stamps, files0));
    }

    /** `_lock`. */
    method Lock(host: Host) returns (r: Result<bool, QueueError>)
      modifies fs
      ensures fs.dirs == old(fs.dirs)
      ensures Acquire(old(fs.files), LockFilePath(), host).Err? ==>
                r == Err(Acquire(old(fs.files), LockFilePath(), host).error) && fs.files == old(fs.files)
      ensures Acquire(old(fs.files), LockFilePath(), host).Ok? ==>
                r == Ok(Acquire(old(fs.files), LockFilePath(), host).value.acquired) &&
                fs.files == Acquire(old(fs.files), LockFilePath(), host).value.files
    {
      var locked := Status(fs.files, LockFilePath(), host);
      if locked.Err? {
        return Err(locked.error);
      }
      if !locked.value {
        fs.files := fs.files[LockFilePath() := NatToString(host.pid)];
        return Ok(true);
      }
      r := Ok(false);
    }

    /** `_unlock`: always reports success; removes the lock file only when it is held. */
    method Unlock(host: Host) returns (r: Result<bool, QueueError>)
      modifies fs
      ensures fs.dirs == old(fs.dirs)
      ensures Release(old(fs.files), LockFilePath(), host).Err? ==>
                r == Err(Release(old(fs.files), LockFilePath(), host).error) && fs.files == old(fs.files)
      ensures Release(old(fs.files), LockFilePath(), host).Ok? ==>
                r == Ok(true) && fs.files == Release(old(fs.files), LockFilePath(), host).value
    {
      var locked := Status(fs.files, LockFilePath(), host);
      if locked.Err? {
        return Err(locked.error);
      }
      if locked.value {
        fs.files := fs.files - {LockFilePath()};
      }
      r := Ok(true);
    }

    function AreaDir(area: Area): string {
      match area
      case TodoArea => TodoDir(basepath, queue)
      case DoneArea => DoneDir(basepath, queue)
    }

    /** `get_all_as_list`: the segment files of one directory, oldest first by the
        modification times `mtime` reports. */
    method GetAllAsList(mtime: Path -> int, area: Area := TodoArea) returns (listing: seq<Path>)
      requires Valid()
      ensures DrainOrder(fs.files, AreaDir(area), listing, mtime)
    {
      var dir := AreaDir(area);
      var names := fs.ListDir(dir);
      listing := SegmentPaths(names, dir, mtime);
      SegmentPathsInDrainOrder(fs.files, names, dir, mtime);
    }

    /** `get_todo_items`: fail when the queue is locked, else take the lock and hand
        out a drain that has not started yet. */
    method GetTodoItems(host: Host) returns (r: Result<TodoItems, QueueError>)
      modifies fs
      ensures fs.dirs == old(fs.dirs)
      ensures Status(old(fs.files), LockFilePath(), host).Err? ==>
                r == Err(BadLockFile) && fs.files == old(fs.files)
      ensures Status(old(fs.files), LockFilePath(), host) == Ok(true) ==>
                r == Err(AlreadyLocked) && fs.files == old(fs.files)
      ensures Status(old(fs.files), LockFilePath(), host) == Ok(false) ==>
                r.Ok? && fresh(r.value) && r.value.q == this && r.value.Valid() &&
                r.value.phase == NotStarted &&
                fs.files == old(fs.files)[LockFilePath() := NatToString(host.pid)]
    {
      var locked := Status(fs.files, LockFilePath(), host);
      if locked.Err? {
        return Err(locked.error);
      }
      if !locked.value {
        var taken := Lock(host);
        if taken == Ok(true) {
          var items := new TodoItems(this);
          return Ok(items);
        }
      }
      r := Err(AlreadyLocked);
    }

    /** `complete`: move a finished segment from wherever it is into `done`, keeping
        its name. `ioOk` says whether the move itself succeeds. */
    method Complete(path: Path, ioOk: bool) returns (r: Result<(), QueueError>)
      modifies fs
      ensures fs.dirs == old(fs.dirs)
      ensures mode == "in" ==> r == Err(InputMode) && fs.files == old(fs.files)
      ensures mode == "out" && path !in old(fs.files) ==> r == Err(Missing) && fs.files == old(fs.files)
      ensures mode == "out" && path in old(fs.files) && !ioOk ==>
                r == Err(MoveFailed) && fs.files == old(fs.files)
      ensures mode == "out" && path in old(fs.files) && ioOk ==>
                r == Ok(()) && fs.files == MoveInto(old(fs.files), path, DoneDir(basepath, queue))
      ensures mode != "in" && mode != "out" ==> r == Ok(()) && fs.files == old(fs.files)
    {
      if mode == "in" {
        return Err(InputMode);
      } else if mode == "out" {
        if path !in fs.files {
          return Err(Missing);
        }
        if !ioOk {
          return Err(MoveFailed);
        }
        fs.files := MoveInto(fs.files, path, DoneDir(basepath, queue));
      }
      r := Ok(());
    }
  }

  /** Where the generator returned by `get_todo_items` stands. */
  datatype Phase = NotStarted | Yielding | Exhausted

  /** The generator `inner` of `get_todo_items`: on the first `next()` it scans `todo`,
      then yields the scanned paths one by one, and the `next()` that finds them all
      handed out releases the lock. */
  class TodoItems {
    const q: IndexQ
    var phase: Phase
    var listing: seq<Path>
    var pos: nat

    predicate Valid()
      reads this
    {
      pos <= |listing| && (phase == NotStarted ==> listing == [] && pos == 0)
    }

    constructor (q: IndexQ)
      ensures this.q == q && phase == NotStarted && listing == [] && pos == 0 && Valid()
    {
      this.q := q;
      phase := NotStarted;
      listing := [];
      pos := 0;
    }

    /** `next()`: `Ok(Some(p))` yields `p`; `Ok(None)` is the end of the iteration. */
    method Next(host: Host, mtime: Path -> int) returns (r: Result<Option<Path>, QueueError>)
      requires Valid() && q.Valid()
      modifies this, q.fs
      ensures Valid() && q.Valid()
      ensures q.fs.dirs == old(q.fs.dirs)
      ensures old(phase) == Exhausted ==>
                r == Ok(None) && phase == Exhausted && listing == old(listing) && pos == old(pos) &&
                q.fs.files == old(q.fs.files)
      ensures old(phase) == NotStarted ==> DrainOrder(old(q.fs.files), TodoDir(q.basepath, q.queue), listing, mtime)
      ensures old(phase) == Yielding ==> listing == old(listing)
      ensures old(phase) != Exhausted && old(pos) < |listing| ==>
                r == Ok(Some(listing[old(pos)])) && pos == old(pos) + 1 && phase == Yielding &&
                q.fs.files == old(q.fs.files)
      ensures old(phase) != Exhausted && old(pos) == |listing| ==>
                phase == Exhausted && pos == old(pos) &&
                (Release(old(q.fs.files), q.LockFilePath(), host).Err? ==>
                   r == Err(Release(old(q.fs.files), q.LockFilePath(), host).error) && q.fs.files == old(q.fs.files)) &&
                (Release(old(q.fs.files), q.LockFilePath(), host).Ok? ==>
                   r == Ok(None) && q.fs.files == Release(old(q.fs.files), q.LockFilePath(), host).value)
    {
      if phase == Exhausted {
        return Ok(None);
      }
      if phase == NotStarted {
        listing := q.GetAllAsList(mtime);
        phase := Yielding;
      }
      if pos < |listing| {
        r := Ok(Some(listing[pos]));
        pos := pos + 1;
        return;
      }
      phase := Exhausted;
      var released := q.Unlock(host);
      if released.Err? {
        return Err(released.error);
      }
      r := Ok(None);
    }
  }
}
