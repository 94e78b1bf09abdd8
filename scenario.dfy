/** A producer and a consumer on one disk: the life of two records from `add` to `done`. */
module QueueScenario {
  import opened Results
  import opened Decimal
  import opened Items
  import opened Segments
  import opened Ordering
  import opened Files
  import opened LockFile
  import opened IndexQueue

  function SegmentAt(st: Stamp): Path {
    Path(TodoDir("/tmp", "q"), SegmentName("q", st, false))
  }

  /** On a queue opened in mode "in" with no buffer size and the default threshold,
      adding one record to an empty buffer writes it out at once as a one-record
      segment and leaves the buffer empty. */
  method AddUnbuffered(q: IndexQ, r: map<string, string>, st: Stamp)
    requires q.Valid() && q.mode == "in" && q.sizeMb == 0 && q.threshold == 0.9 && q.buf == [] && q.size == 0
    requires FormatLiteral(q.queue).Some? && ValidStamp(st) && |r| > 0
    requires q.Candidate(st) !in q.fs.files
    modifies q, q.fs
    ensures q.fs.files == old(q.fs.files)[q.Candidate(st) := q.dumps([DictValue(r)])]
    ensures q.fs.dirs == old(q.fs.dirs) && q.buf == [] && q.size == 0
  {
    assert q.Candidates([st])[0] == q.Candidate(st);
    assert [] + [DictValue(r)] == [DictValue(r)];
    assert Classify(DictItem(r)) == Buffered([DictValue(r)]);
    ghost var files0 := q.fs.files;
    var added := q.Add([st], true, DictItem(r));
    q.UnsizedQueueWritesEveryAdd([], 0, files0, [DictValue(r)], false, [st], added, q.buf, q.size, q.fs.files);
  }

  /** Queue `q` under `/tmp` opened in mode "in" with no buffer size: two records added
      at two different stamps give two segment files and nothing else. */
  method ProduceTwo(fs: FileSystem, r1: map<string, string>, r2: map<string, string>,
                    st1: Stamp, st2: Stamp, dumps: seq<Value> -> string, reprLen: seq<Value> -> nat)
    requires fs.files == map[]
    requires |r1| > 0 && |r2| > 0 && ReprLenSound(reprLen)
    requires st1 != st2 && ValidStamp(st1) && ValidStamp(st2)
    modifies fs
    ensures fs.files == map[SegmentAt(st1) := dumps([DictValue(r1)]), SegmentAt(st2) := dumps([DictValue(r2)])]
    ensures SegmentAt(st1) != SegmentAt(st2)
  {
    var producer := new IndexQ(fs, "/tmp", "q", dumps, reprLen);
    assert FormatLiteral("q") == Some("q");
    assert producer.Candidate(st1) == SegmentAt(st1) && producer.Candidate(st2) == SegmentAt(st2);
    AddUnbuffered(producer, r1, st1);
    assert SegmentAt(st2) != SegmentAt(st1) by {
      if SegmentAt(st2) == SegmentAt(st1) {
        SegmentNameInjective("q", st1, st2, false);
      }
    }
    AddUnbuffered(producer, r2, st2);
  }

  lemma TwoSegmentsInOrder(files: map<Path, string>, st1: Stamp, st2: Stamp, lock: Path, mtime: Path -> int)
    requires SegmentAt(st1) != SegmentAt(st2) && lock.dir != TodoDir("/tmp", "q")
    requires files.Keys == {SegmentAt(st1), SegmentAt(st2), lock}
    requires mtime(SegmentAt(st1)) < mtime(SegmentAt(st2))
    ensures DrainOrder(files, TodoDir("/tmp", "q"), [SegmentAt(st1), SegmentAt(st2)], mtime)
  {
  }

  /** Reopened in mode "out" on a queue that no one holds, `get_todo_items` takes the
      lock and hands out a drain that has not started. */
  method OpenConsumer(fs: FileSystem, host: Host, dumps: seq<Value> -> string, reprLen: seq<Value> -> nat)
      returns (consumer: IndexQ, it: TodoItems)
    requires LockPath("/tmp", "q") !in fs.files
    requires ReprLenSound(reprLen)
    modifies fs
    ensures consumer.fs == fs && consumer.mode == "out" && consumer.basepath == "/tmp" && consumer.queue == "q"
    ensures fresh(it) && consumer.Valid() && it.q == consumer && it.Valid() && it.phase == NotStarted
    ensures fs.files == old(fs.files)[LockPath("/tmp", "q") := NatToString(host.pid)]
  {
    consumer := new IndexQ(fs, "/tmp", "q", dumps, reprLen, mode := "out");
    var started := consumer.GetTodoItems(host);
    it := started.value;
  }

  /** With the lock held by us, three `next()` calls yield the two segments oldest first
      and then end the iteration by removing the lock file. */
  method DrainLocked(it: TodoItems, host: Host, st1: Stamp, st2: Stamp, mtime: Path -> int)
      returns (drained: seq<Path>)
    requires it.Valid() && it.q.Valid() && it.phase == NotStarted
    requires it.q.basepath == "/tmp" && it.q.queue == "q"
    requires it.q.fs.files.Keys == {SegmentAt(st1), SegmentAt(st2), LockPath("/tmp", "q")}
    requires it.q.fs.files[LockPath("/tmp", "q")] == NatToString(host.pid)
    requires SegmentAt(st1) != SegmentAt(st2) && mtime(SegmentAt(st1)) < mtime(SegmentAt(st2))
    requires host.psutilAvailable ==> host.pid in host.live
    modifies it, it.q.fs
    ensures drained == [SegmentAt(st1), SegmentAt(st2)]
    ensures it.q.fs.files == old(it.q.fs.files) - {LockPath("/tmp", "q")}
  {
    var lock := LockPath("/tmp", "q");
    LayoutDistinct("/tmp", "q");
    ghost var locked := it.q.fs.files;
    var y1 := it.Next(host, mtime);
    TwoSegmentsInOrder(locked, st1, st2, lock, mtime);
    DrainOrderDetermined(locked, TodoDir("/tmp", "q"), it.listing, [SegmentAt(st1), SegmentAt(st2)], mtime);
    var y2 := it.Next(host, mtime);
    LiveOwnerHoldsLock(locked, lock, host.pid, host);
    assert locked[lock := NatToString(host.pid)] == locked;
    var y3 := it.Next(host, mtime);
    drained := [y1.value.value, y2.value.value];
  }

  /** Reopened in mode "out", the queue drains its two segments oldest first, and the
      last `next()` removes the lock file again. */
  method DrainTwo(fs: FileSystem, host: Host, st1: Stamp, st2: Stamp, mtime: Path -> int,
                  dumps: seq<Value> -> string, reprLen: seq<Value> -> nat) returns (consumer: IndexQ, drained: seq<Path>)
    requires fs.files.Keys == {SegmentAt(st1), SegmentAt(st2)} && SegmentAt(st1) != SegmentAt(st2)
    requires mtime(SegmentAt(st1)) < mtime(SegmentAt(st2))
    requires host.psutilAvailable ==> host.pid in host.live
    requires ReprLenSound(reprLen)
    modifies fs
    ensures consumer.fs == fs && consumer.mode == "out" && consumer.basepath == "/tmp" && consumer.queue == "q"
    ensures drained == [SegmentAt(st1), SegmentAt(st2)]
    ensures fs.files == old(fs.files)
  {
    ghost var produced := fs.files;
    LayoutDistinct("/tmp", "q");
    var it;
    consumer, it := OpenConsumer(fs, host, dumps, reprLen);
    drained := DrainLocked(it, host, st1, st2, mtime);
    assert fs.files == produced;
  }

  lemma CompletingBothEmptiesTodo(produced: map<Path, string>, p1: Path, p2: Path, todo: string, done: string)
    requires produced.Keys == {p1, p2} && p1 != p2 && p1.dir == todo && p2.dir == todo && todo != done
    ensures Entries(MoveInto(MoveInto(produced, p1, done), p2, done), todo) == {}
    ensures Entries(MoveInto(MoveInto(produced, p1, done), p2, done), done) == {p1.name, p2.name}
  {
    var once := MoveInto(produced, p1, done);
    assert Entries(produced, todo) == {p1.name, p2.name};
    assert Entries(produced, done) == {};
    MoveTransfersOneName(produced, p1, done);
    MoveTransfersOneName(once, p2, done);
  }

  /** The whole life: produce two records, drain, complete both. Afterwards `todo`
      holds no file, `done` holds both segment names and the lock file is gone. */
  method AddDrainComplete(fs: FileSystem, host: Host, r1: map<string, string>, r2: map<string, string>,
                          st1: Stamp, st2: Stamp, mtime: Path -> int,
                          dumps: seq<Value> -> string, reprLen: seq<Value> -> nat)
      returns (drained: seq<Path>)
    requires fs.files == map[]
    requires |r1| > 0 && |r2| > 0 && ReprLenSound(reprLen)
    requires st1 != st2 && ValidStamp(st1) && ValidStamp(st2) && mtime(SegmentAt(st1)) < mtime(SegmentAt(st2))
    requires host.psutilAvailable ==> host.pid in host.live
    modifies fs
    ensures drained == [SegmentAt(st1), SegmentAt(st2)]
    ensures Entries(fs.files, TodoDir("/tmp", "q")) == {}
    ensures Entries(fs.files, DoneDir("/tmp", "q")) == {SegmentAt(st1).name, SegmentAt(st2).name}
    ensures fs.files.Keys == {Path(DoneDir("/tmp", "q"), SegmentAt(st1).name), Path(DoneDir("/tmp", "q"), SegmentAt(st2).name)}
  {
    var p1, p2 := SegmentAt(st1), SegmentAt(st2);
    var done := DoneDir("/tmp", "q");
    ProduceTwo(fs, r1, r2, st1, st2, dumps, reprLen);
    ghost var produced := fs.files;
    var consumer;
    consumer, drained := DrainTwo(fs, host, st1, st2, mtime, dumps, reprLen);
    LayoutDistinct("/tmp", "q");
    var c1 := consumer.Complete(p1, true);
    assert fs.files == MoveInto(produced, p1, done);
    var c2 := consumer.Complete(p2, true);
    assert fs.files == MoveInto(MoveInto(produced, p1, done), p2, done);
    CompletingBothEmptiesTodo(produced, p1, p2, TodoDir("/tmp", "q"), done);
  }
}
