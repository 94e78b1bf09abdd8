/** The PID-stamped lock file of a queue (indexq.py:147-179). */
module LockFile {
  import opened Results
  import opened Decimal
  import opened Files

  /** What the host reports about processes: whether `psutil` can be imported, the
      process ids `psutil.pid_exists` answers true for, and `os.getpid()`. */
  datatype Host = Host(psutilAvailable: bool, live: set<nat>, pid: nat)

  /** `_is_locked`: no lock file means unlocked; a lock file without `psutil` means
      locked; otherwise locked exactly when the recorded process is alive. A lock file
      whose text is not a decimal number makes `int(pid)` raise. */
  function Status(files: map<Path, string>, lock: Path, host: Host): (r: Result<bool, QueueError>)
    ensures r == Ok(false) <==>
              lock !in files ||
              (host.psutilAvailable && ParseNat(files[lock]).Some? && ParseNat(files[lock]).value !in host.live)
    ensures r == Ok(true) <==>
              lock in files &&
              (!host.psutilAvailable || (ParseNat(files[lock]).Some? && ParseNat(files[lock]).value in host.live))
    ensures r.Err? <==> lock in files && host.psutilAvailable && ParseNat(files[lock]).None?
    ensures r.Err? ==> r.error == BadLockFile
  {
    if lock !in files then Ok(false)
    else if !host.psutilAvailable then Ok(true)
    else match ParseNat(files[lock])
      case None => Err(BadLockFile)
      case Some(pid) => Ok(pid in host.live)
  }

  /** The outcome of `_lock`: whether the lock was taken, and the files afterwards. */
  datatype Step = Step(acquired: bool, files: map<Path, string>)

  /** `_lock`: when not locked, write our process id into the lock file, so that the lock
      file then names us; when locked, change nothing. */
  function Acquire(files: map<Path, string>, lock: Path, host: Host): (r: Result<Step, QueueError>)
    ensures r.Err? <==> Status(files, lock, host).Err?
    ensures r.Err? ==> r.error == BadLockFile
    ensures r.Ok? ==> (r.value.acquired <==> Status(files, lock, host) == Ok(false))
    ensures r.Ok? && r.value.acquired ==>
              r.value.files == files[lock := NatToString(host.pid)] &&
              ParseNat(r.value.files[lock]) == Some(host.pid)
    ensures r.Ok? && !r.value.acquired ==> r.value.files == files
  {
    ParseNatToString(host.pid);
    match Status(files, lock, host)
    case Err(e) => Err(e)
    case Ok(held) =>
      if held then Ok(Step(false, files)) else Ok(Step(true, files[lock := NatToString(host.pid)]))
  }

  /** `_unlock`: delete the lock file when it is held; a stale file stays. Either
      way the queue reads as unlocked afterwards, and no other file changes. */
  function Release(files: map<Path, string>, lock: Path, host: Host): (r: Result<map<Path, string>, QueueError>)
    ensures r.Err? <==> Status(files, lock, host).Err?
    ensures r.Err? ==> r.error == BadLockFile
    ensures r.Ok? ==> Status(r.value, lock, host) == Ok(false)
    ensures r.Ok? ==> r.value - {lock} == files - {lock}
    ensures r.Ok? && Status(files, lock, host) == Ok(false) ==> r.value == files
    ensures r.Ok? && Status(files, lock, host) == Ok(true) ==> r.value == files - {lock}
  {
    match Status(files, lock, host)
    case Err(e) => Err(e)
    case Ok(held) => Ok(if held then files - {lock} else files)
  }

  /** A lock file naming a process that is alive (or any lock file, when `psutil` is
      missing) holds the queue. */
  lemma LiveOwnerHoldsLock(files: map<Path, string>, lock: Path, owner: nat, host: Host)
    requires host.psutilAvailable ==> owner in host.live
    ensures Status(files[lock := NatToString(owner)], lock, host) == Ok(true)
  {
    ParseNatToString(owner);
  }

  /** Stale-lock recovery: a lock file naming a dead process does not hold the queue. */
  lemma DeadOwnerFreesLock(files: map<Path, string>, lock: Path, owner: nat, host: Host)
    requires host.psutilAvailable && owner !in host.live
    ensures Status(files[lock := NatToString(owner)], lock, host) == Ok(false)
  {
    ParseNatToString(owner);
  }

  /** Mutual exclusion: once process `a` has taken the lock, another attempt fails and
      changes nothing for as long as `a` is seen alive (or `psutil` is missing). */
  lemma AcquireExcludes(files: map<Path, string>, lock: Path, a: Host, b: Host)
    requires Acquire(files, lock, a).Ok? && Acquire(files, lock, a).value.acquired
    requires b.psutilAvailable ==> a.pid in b.live
    ensures Acquire(Acquire(files, lock, a).value.files, lock, b) == Ok(Step(false, Acquire(files, lock, a).value.files))
  {
    LiveOwnerHoldsLock(files, lock, a.pid, b);
  }

  /** Releasing a lock we just took removes the lock file, a stale one included, and
      leaves every other file as before. */
  lemma ReleaseUndoesAcquire(files: map<Path, string>, lock: Path, host: Host)
    requires Acquire(files, lock, host).Ok? && Acquire(files, lock, host).value.acquired
    requires host.psutilAvailable ==> host.pid in host.live
    ensures Release(Acquire(files, lock, host).value.files, lock, host) == Ok(files - {lock})
  {
    var taken := files[lock := NatToString(host.pid)];
    LiveOwnerHoldsLock(files, lock, host.pid, host);
    assert taken - {lock} == files - {lock};
  }
}
