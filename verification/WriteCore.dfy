/**
  `_write_core`, statement by statement with its try, except and finally
  (src/safeatomic/_io_core.py:367-446), run by one process among others with
  any call free to fail.
 */
module WriteCore {
  import opened Basics
  import S = Storage
  import SI = StorageInvariant
  import ST = StorageTheorems
  import L = LockProtocol
  import opened Composite
  import opened Machine
  import opened SystemCalls
  import opened LockFile
  import opened OwnNames
  import SA = SidecarAgreement
  import SC = SerialCommits

  /** `Raised(Some(v))` is an error after the content became version `v` of the target. */
  datatype Ending = Refused(attempt: Attempt) | Raised(placed: Option<nat>) | Done(version: nat)

  /** What the cleanup could not do, its errors being suppressed; how often the lock file was tried, and the waits. */
  datatype Report = Report(unlinkFailed: bool, epoch: nat, release: Option<Release>, creates: nat, sleeps: nat)

  function NewWriter(target: S.Name, data: Bytes, safety: S.Safety, sidecar: bool, algo: string): S.Writer
  {
    S.Writer(target, safety, sidecar, algo, Some(data), S.Begun)
  }

  /** The writer record comes into being; no system call. */
  method Begin(p: Process, w: S.Id, x: S.Writer, locking: bool)
    requires p.Valid() && w in p.me.ids && w !in p.c.s.writers && w !in p.c.blocks
    requires x.pc.Begun? && x.target in p.c.s.d.targets && (locking <==> x.target == p.c.t)
    requires locking ==> (p.c.wholeOnly ==> x.goal.None?) && LockPc(p.me, p.c).Holding? && NoBlockHolds(p.me, p.c)
    modifies p
    ensures p.Valid() && Turn(p.me, p.c, w) && p.c.s.writers[w] == x && p.open == old(p.open)
    ensures Adds(p.me, old(p.run), p.run, {w}, {}) && Replacements(p.mine) == old(Replacements(p.mine))
    ensures p.c.l == old(p.c.l) && p.c.t == old(p.c.t) && p.c.wholeOnly == old(p.c.wholeOnly) && p.c.s.d == old(p.c.s.d)
    ensures w in p.c.blocks <==> locking
    ensures p.failures == old(p.failures)
    ensures forall v | v != w ::
      && (v in p.c.s.writers <==> v in old(p.c.s.writers))
      && (v in p.c.s.writers ==> p.c.s.writers[v] == old(p.c.s.writers[v]))
      && (v in p.c.blocks <==> v in old(p.c.blocks)) && (v in p.c.blocks ==> p.c.blocks[v] == old(p.c.blocks[v]))
  {
    hide Inv, Reaches, Replacements, L.Can, L.Do, OwnOf, Adds;
    var step := if locking then Enter(p.me.a, w, x, Overwriting(x)) else Disk(S.Begin(w, x));
    OneMore(p.mine, step);
    AddsOne(p.me, p.run, step, {w}, {});
    p.Act(step);
  }

  function Overwriting(x: S.Writer): Change
  {
    before => if x.goal.Some? then x.goal.value else []
  }

  /** Lines 396-410: the temporary file is created, filled, synced and closed. */
  method FillTmp(p: Process, w: S.Id, tmp: S.Name, data: Bytes) returns (raised: bool, fd: Option<S.Ino>)
    requires p.Valid() && Turn(p.me, p.c, w) && p.Pc(w).Begun? && p.c.s.writers[w].goal == Some(data)
    requires tmp in p.me.names && tmp !in p.c.s.d.dir
    modifies p
    ensures p.Stepped(w, {tmp}) && Turn(p.me, p.c, w)
    ensures p.open - (if fd.Some? then {fd.value} else {}) == old(p.open)
    ensures if raised then OneFailure(old(p.failures), p.failures, TRYING) else p.failures == old(p.failures)
    ensures Replacements(p.mine) == old(Replacements(p.mine))
    ensures if p.Pc(w).Begun? then raised && tmp !in p.c.s.d.dir else WithTmp(p.Pc(w)) && p.Pc(w).tmp == tmp
    ensures !raised ==> fd.None? && p.Pc(w).Closed? && p.Pc(w).accepted == data
  {
    hide Inv, Keeps, Adds, OwnOf, Reaches, Replacements, BeforeReplace, Gone, Shows, S.Latest, SI.Grows, CameAfter;
    hide S.NextPc, L.Alive, S.CanWriter;
    fd := OpenTmp(p, w, tmp);
    if fd.None? {
      return true, None;
    }
    label created:
    KeptOpen(p.me, old(p.c), p.c, w, {tmp});
    assert [] + data == data;
    var ok, written := WriteBytesToFd(p, w, data);
    KeepsTwice(p.me, old(p.c), old(p.run), old@created(p.c), old@created(p.run), p.c, p.run, {w}, {tmp}, {w}, {tmp},
        {w}, {});
    if !ok {
      return true, fd;
    }
    label filled:
    KeptOpen(p.me, old(p.c), p.c, w, {tmp});
    assert data[..written] == data;
    ok := Fsync(p, w, true);
    KeepsTwice(p.me, old(p.c), old(p.run), old@filled(p.c), old@filled(p.run), p.c, p.run, {w}, {tmp}, {w}, {tmp},
        {w}, {});
    if !ok {
      return true, fd;
    }
    label synced:
    ok := Close(p, w);
    KeepsTwice(p.me, old(p.c), old(p.run), old@synced(p.c), old@synced(p.run), p.c, p.run, {w}, {tmp}, {w}, {tmp},
        {w}, {});
    if !ok {
      return true, fd;
    }
    return false, None;
  }

  predicate WithTmp(pc: S.WriterPc)
  {
    pc.Open? || pc.Synced? || pc.Closed?
  }

  /** Lines 396-420: from the temporary file to the replace. */
  method TryBlock(p: Process, w: S.Id, tmp: S.Name, data: Bytes) returns (raised: bool, fd: Option<S.Ino>)
    requires p.Valid() && Turn(p.me, p.c, w) && p.Pc(w).Begun? && p.c.s.writers[w].goal == Some(data)
    requires tmp in p.me.names && tmp !in p.c.s.d.dir
    modifies p
    ensures p.Stepped(w, {tmp}) && w in p.c.s.writers
    ensures p.open - (if fd.Some? then {fd.value} else {}) == old(p.open)
    ensures if raised then OneFailure(old(p.failures), p.failures, TRYING) else p.failures == old(p.failures)
    ensures raised ==>
      && Turn(p.me, p.c, w) && Replacements(p.mine) == old(Replacements(p.mine))
      && (p.Pc(w).Begun? || WithTmp(p.Pc(w)))
      && (if p.Pc(w).Begun? then tmp !in p.c.s.d.dir else p.Pc(w).tmp == tmp)
    ensures !raised ==>
      && fd.None? && p.Pc(w).Placed? && p.Pc(w).content == data && tmp !in p.c.s.d.dir
      && Replacements(p.mine) == old(Replacements(p.mine)) + 1
      && Shows(p.c.s.d, p.c.s.writers[w].target, p.Pc(w).version, data)
      && old(S.Latest(p.c.s.d, p.c.s.writers[w].target)) < p.Pc(w).version
      && (w in p.c.blocks ==> p.c.last == Some(w))
  {
    hide Inv, Keeps, Adds, OwnOf, Reaches, Replacements, BeforeReplace, Gone, Shows, S.Latest, SI.Grows, CameAfter;
    hide S.NextPc, L.Alive, S.CanWriter;
    raised, fd := FillTmp(p, w, tmp, data);
    if raised {
      return;
    }
    // copystat never raises; the device check may
    var crossDevice: bool := *;
    if crossDevice {
      p.Fail(DeviceStat);
      return true, None;
    }
    label placing:
    LatestGrows(p.me, old(p.c), p.c, w, {tmp});
    KeptOpen(p.me, old(p.c), p.c, w, {tmp});
    var ok := Replace(p, w);
    KeepsTwice(p.me, old(p.c), old(p.run), old@placing(p.c), old@placing(p.run), p.c, p.run, {w}, {tmp}, {w}, {tmp},
        {w}, {});
    raised := !ok;
  }

  lemma KeptOpen(me: Self, c: State, c': State, w: S.Id, made: set<S.Name>)
    requires w in me.ids && w in c.s.writers && Keeps(me, c, c', {w}, made)
    ensures w in c'.s.writers && c'.s.writers[w] == c.s.writers[w].(pc := c'.s.writers[w].pc)
    ensures c'.t == c.t && c'.wholeOnly == c.wholeOnly && (w in c'.blocks <==> w in c.blocks)
    ensures w in c.blocks ==> c'.blocks[w] == c.blocks[w]
  {
  }

  /** Lines 422-430: close and unlink what is left, errors suppressed. */
  method ExceptBlock(p: Process, w: S.Id, tmp: S.Name, fd: Option<S.Ino>) returns (unlinkFailed: bool)
    requires p.Valid() && Turn(p.me, p.c, w) && tmp in p.me.names
    requires p.Pc(w).Begun? || WithTmp(p.Pc(w))
    requires if p.Pc(w).Begun? then tmp !in p.c.s.d.dir else p.Pc(w).tmp == tmp
    modifies p
    ensures p.Stepped(w, {}) && w in p.c.s.writers && p.Pc(w) == S.Raised(false)
    ensures p.open == old(p.open) - if fd.Some? then {fd.value} else {}
    ensures p.failures == old(p.failures) + if unlinkFailed then [TmpUnlink] else []
    ensures Replacements(p.mine) == old(Replacements(p.mine))
    ensures !unlinkFailed ==> tmp !in p.c.s.d.dir
  {
    hide Inv, Keeps, Adds, OwnOf, Reaches, Replacements, BeforeReplace;
    Raise(p, w);
    label raised:
    if fd.Some? {
      p.open := p.open - {fd.value};
    }
    unlinkFailed := Unlink(p, w, tmp);
    KeepsTwice(p.me, old(p.c), old(p.run), old@raised(p.c), old@raised(p.run), p.c, p.run, {w}, {}, {w}, {}, {w}, {});
  }

  /** Which failures turn into an error after the replace. */
  predicate FailsLate(safety: S.Safety, failed: set<Failure>)
  {
    (safety == S.Strict && DirFsync in failed) || failed * REWRITING != {}
  }

  /** Lines 442-446: what happens after the lock is gone. */
  method Aftermath(p: Process, w: S.Id) returns (ok: bool)
    requires p.Valid() && Turn(p.me, p.c, w) && p.Pc(w).Placed?
    modifies p
    ensures p.Stepped(w, {}) && Turn(p.me, p.c, w) && p.open == old(p.open)
    ensures Replacements(p.mine) == old(Replacements(p.mine))
    ensures ok ==> p.Pc(w) == S.Returned(old(p.Pc(w)).version, old(p.Pc(w)).content)
    ensures ok && p.c.s.writers[w].sidecar && w in p.c.blocks ==> CameAfter(p.me, p.c.scribe, {w})
    ensures FailedOnly(old(p.failures), p.failures, {DirFsync} + REWRITING)
    ensures ok <==> !FailsLate(p.c.s.writers[w].safety, NewFailures(old(p.failures), p.failures))
    ensures !ok ==> p.Pc(w) == S.Raised(true) && (p.c.s.writers[w].safety == S.Strict || p.c.s.writers[w].sidecar)
  {
    hide Inv, Keeps, Adds, OwnOf, Reaches, Replacements, BeforeReplace;
    var warned;
    ok, warned := FsyncDir(p, w);
    label synced:
    ghost var synced := p.failures;
    assert NewFailures(old(p.failures), synced) <= {DirFsync};
    KeptOpen(p.me, old(p.c), p.c, w, {});
    if ok && p.c.s.writers[w].sidecar {
      ok := WriteSidecar(p, w);
      FailuresAdd(old(p.failures), synced, p.failures);
      SidecarFailure(synced, p.failures);
      KeepsTwice(p.me, old(p.c), old(p.run), old@synced(p.c), old@synced(p.run), p.c, p.run, {w}, {}, {w}, {}, {w}, {});
      KeptOpen(p.me, old(p.c), p.c, w, {});
    }
    if ok {
      label returning:
      Return(p, w);
      KeptOpen(p.me, old@returning(p.c), p.c, w, {});
      NotesStay(p.me, old@returning(p.c), p.c, w, {w}, {});
      KeepsTwice(p.me, old(p.c), old(p.run), old@returning(p.c), old@returning(p.run), p.c, p.run, {w}, {}, {w}, {},
          {w}, {});
    }
  }

  lemma SidecarFailure(before: seq<Failure>, after: seq<Failure>)
    requires after == before || OneFailure(before, after, REWRITING)
    ensures NewFailures(before, after) <= REWRITING && (after == before <==> NewFailures(before, after) == {})
  {
    hide NewFailures;
    OneNewFailure(before, if after == before then SideWrite else after[|before|]);
    if after != before { assert after == before + [after[|before|]]; }
  }

  /** Lines 432-435: `_release_lock_suppress`. */
  method FinallyBlock(p: Process, w: S.Id, locking: bool) returns (release: Option<Release>)
    requires p.Valid() && w in p.me.ids && w in p.c.s.writers && (w in p.c.blocks <==> locking)
    requires locking ==> p.c.blocks[w].actor == p.me.a && p.c.blocks[w].view.None? && Held(p.c, w)
    requires p.c.s.writers[w].goal.Some?
    requires p.Pc(w).Placed? || p.Pc(w).Raised?
    modifies p
    ensures p.Valid() && p.Kept({}, {}) && p.open == old(p.open)
    ensures Replacements(p.mine) == old(Replacements(p.mine))
    ensures Turn(p.me, p.c, w) && p.c.s.writers[w] == old(p.c.s.writers[w])
    ensures if locking then release.Some? && Released(p.me, old(p.c), p.c, release.value)
            else release.None? && p.c == old(p.c)
    ensures p.failures == old(p.failures) + if locking then ReleaseFailures(release.value) else []
  {
    hide Inv, Keeps, Adds, OwnOf, Reaches, Replacements;
    KeepsItself(p.me, p.c, p.run);
    if locking {
      DueNow(p.me, p.c, w);
      var result := ReleaseLock(p);
      release := Some(result);
      KeptRecords(p.me, old(p.c), p.c, w);
    } else {
      release := None;
    }
  }

  lemma KeptRecords(me: Self, c: State, c': State, w: S.Id)
    requires w in me.ids && w in c.s.writers && Keeps(me, c, c', {}, {})
    ensures w in c'.s.writers && c'.s.writers[w] == c.s.writers[w] && c'.wholeOnly == c.wholeOnly && c'.t == c.t
    ensures (w in c'.blocks <==> w in c.blocks) && (w in c.blocks ==> c'.blocks[w] == c.blocks[w])
  {
  }

  /** Our block is the one in the lock, and it is past its replace or has given up. */
  lemma DueNow(me: Self, c: State, w: S.Id)
    requires Inv(c) && L.Alive(c.l, me.a) && w in c.blocks && w in c.s.writers && c.blocks[w].actor == me.a
    requires Held(c, w) && MayRelease(c.s.writers[w])
    ensures Settled(me, c) && ReleaseIsDue(me, c)
  {
    hide LogOk, ViewOk, SI.Inv, L.Inv, MayRelease;
    forall v | v in c.blocks && v in c.s.writers && c.blocks[v].actor == me.a && Held(c, v)
      ensures MayRelease(c.s.writers[v])
    {
      HolderIsUnique(c, v, w);
    }
  }

  /** Lines 396-430: the try block and, if it raises, its handler. */
  method TryExcept(p: Process, w: S.Id, tmp: S.Name, data: Bytes)
    returns (placed: Option<nat>, unlinkFailed: bool, ghost tried: seq<Failure>)
    requires p.Valid() && Turn(p.me, p.c, w) && p.Pc(w).Begun? && p.c.s.writers[w].goal == Some(data)
    requires tmp in p.me.names && tmp !in p.c.s.d.dir
    modifies p
    ensures p.Stepped(w, {tmp}) && w in p.c.s.writers && p.open == old(p.open)
    ensures placed.None? ==> p.Pc(w) == S.Raised(false) && Replacements(p.mine) == old(Replacements(p.mine))
    ensures placed.Some? ==>
      && p.Pc(w) == S.Placed(placed.value, data) && Replacements(p.mine) == old(Replacements(p.mine)) + 1
      && Shows(p.c.s.d, p.c.s.writers[w].target, placed.value, data)
      && old(S.Latest(p.c.s.d, p.c.s.writers[w].target)) < placed.value
      && (w in p.c.blocks ==> p.c.last == Some(w))
    ensures unlinkFailed ==> placed.None?
    ensures !unlinkFailed ==> tmp !in p.c.s.d.dir
    ensures if placed.None? then OneFailure(old(p.failures), tried, TRYING) else tried == old(p.failures)
    ensures p.failures == tried + if unlinkFailed then [TmpUnlink] else []
  {
    hide Inv, Keeps, Adds, OwnOf, Reaches, Replacements, Gone, Shows, SI.Grows, BeforeReplace, OneFailure, S.Latest;
    var raised, fd := TryBlock(p, w, tmp, data);
    tried := p.failures;
    label tried:
    unlinkFailed := false;
    placed := if raised then None else Some(p.Pc(w).version);
    if raised {
      unlinkFailed := ExceptBlock(p, w, tmp, fd);
      KeepsTwice(p.me, old(p.c), old(p.run), old@tried(p.c), old@tried(p.run), p.c, p.run, {w}, {tmp}, {w}, {tmp},
          {w}, {});
    }
  }

  /** Lines 394-435 together. */
  method TryExceptFinally(p: Process, w: S.Id, tmp: S.Name, data: Bytes, locking: bool)
    returns (placed: Option<nat>, unlinkFailed: bool, release: Option<Release>)
    requires p.Valid() && Turn(p.me, p.c, w) && p.Pc(w).Begun? && p.c.s.writers[w].goal == Some(data)
    requires tmp in p.me.names && tmp !in p.c.s.d.dir
    requires w in p.c.blocks <==> locking
    modifies p
    ensures p.Valid() && p.Kept({w}, {tmp}) && p.open == old(p.open)
    ensures Turn(p.me, p.c, w)
    ensures placed.None? ==> p.Pc(w) == S.Raised(false) && Replacements(p.mine) == old(Replacements(p.mine))
    ensures placed.Some? ==>
      && p.Pc(w) == S.Placed(placed.value, data) && Replacements(p.mine) == old(Replacements(p.mine)) + 1
      && Shows(p.c.s.d, p.c.s.writers[w].target, placed.value, data)
      && old(S.Latest(p.c.s.d, p.c.s.writers[w].target)) < placed.value
      && (locking ==> CameAfter(p.me, p.c.last, {w}))
    ensures unlinkFailed ==> placed.None?
    ensures !unlinkFailed ==> tmp !in p.c.s.d.dir
    ensures TryFailures(old(p.failures), p.failures, placed.Some?, unlinkFailed, release)
    ensures if locking then release.Some? && Released(p.me, old(p.c), p.c, release.value)
            else release.None? && LockPc(p.me, p.c) == old(LockPc(p.me, p.c))
  {
    hide Inv, Keeps, Adds, OwnOf, Reaches, Replacements, Gone, Shows, SI.Grows;
    hide TryFailures, ReleaseFailures, S.Latest, OneFailure;
    ghost var triedFailures;
    placed, unlinkFailed, triedFailures := TryExcept(p, w, tmp, data);
    label excepted:
    KeptOpen(p.me, old(p.c), p.c, w, {tmp});
    Grown(p.me, old(p.c), p.c, {w}, {tmp});
    ghost var cleanedFailures := p.failures;
    release := FinallyBlock(p, w, locking);
    CollectFailures(old(p.failures), triedFailures, cleanedFailures, p.failures, placed.None?, unlinkFailed, release);
    KeepsTwice(p.me, old(p.c), old(p.run), old@excepted(p.c), old@excepted(p.run), p.c, p.run, {w}, {tmp}, {w},
        {tmp}, {}, {});
    StillAway(p.me, old@excepted(p.c), p.c, {}, tmp);
    NotesStay(p.me, old@excepted(p.c), p.c, w, {}, {});
    Grown(p.me, old@excepted(p.c), p.c, {}, {});
    if placed.Some? { ShowsStays(old@excepted(p.c.s.d), p.c.s.d, p.c.s.writers[w].target, placed.value, data); }
  }

  /** Every failure of the try statement shows in its outcome, and every error has its failure. */
  predicate TryFailures(before: seq<Failure>, after: seq<Failure>, placed: bool, unlinkFailed: bool,
                        release: Option<Release>)
  {
    var failed := NewFailures(before, after);
    && before <= after && failed <= TRYING + {TmpUnlink, LockUnlink, LockRead}
    && (placed <==> failed * TRYING == {}) && (unlinkFailed <==> TmpUnlink in failed)
    && (release == Some(UnlinkFailed) <==> LockUnlink in failed)
    && (release == Some(Unreadable) <==> LockRead in failed)
  }

  lemma CollectFailures(before: seq<Failure>, tried: seq<Failure>, cleaned: seq<Failure>, after: seq<Failure>,
                        raised: bool, unlinkFailed: bool, release: Option<Release>)
    requires if raised then OneFailure(before, tried, TRYING) else tried == before
    requires cleaned == tried + (if unlinkFailed then [TmpUnlink] else []) && (unlinkFailed ==> raised)
    requires after == cleaned + (if release.Some? then ReleaseFailures(release.value) else [])
    ensures TryFailures(before, after, !raised, unlinkFailed, release)
  {
    hide NewFailures;
    OneNewFailure(before, if raised then tried[|before|] else TmpOpen);
    if raised { assert tried == before + [tried[|before|]]; }
    OneNewFailure(tried, TmpUnlink);
    assert cleaned == if unlinkFailed then tried + [TmpUnlink] else tried;
    FailuresAdd(before, tried, cleaned);
    AddedByRelease(cleaned, after, release);
    FailuresAdd(before, cleaned, after);
  }

  lemma AddedByRelease(before: seq<Failure>, after: seq<Failure>, release: Option<Release>)
    requires after == before + (if release.Some? then ReleaseFailures(release.value) else [])
    ensures before <= after
    ensures NewFailures(before, after) == if release == Some(UnlinkFailed) then {LockUnlink}
                                          else if release == Some(Unreadable) then {LockRead} else {}
  {
    hide NewFailures;
    OneNewFailure(before, LockUnlink);
    OneNewFailure(before, LockRead);
    assert before + [] == before;
  }

  lemma StillAway(me: Self, c: State, c': State, moved: set<S.Id>, tmp: S.Name)
    requires Keeps(me, c, c', moved, {}) && tmp in me.names
    ensures tmp !in c.s.d.dir ==> tmp !in c'.s.d.dir
  {
  }

  /** The target was replaced once, and shows exactly `data` as a version it did not have before. */
  twostate predicate ReplacedOnce(p: Process, new target: S.Name, new version: nat, new data: Bytes)
    reads p
  {
    && Replacements(p.mine) == old(Replacements(p.mine)) + 1 && Shows(p.c.s.d, target, version, data)
    && old(S.Latest(p.c.s.d, target)) < version
  }

  /** The lock file is gone unless it was unreadable, damaged, or its unlink failed. */
  ghost predicate LockLeft(l: L.State, epoch: nat, release: Release)
  {
    && (release.Removed? ==> Gone(l, epoch))
    && (release.NotOurs? ==>
      && release.found.Some? && release.found.value.epoch == epoch
      && !release.found.value.payload.Doc?)
  }

  lemma ReleasedLeft(me: Self, c: State, c': State, release: Release)
    requires Inv(c) && L.Alive(c.l, me.a) && LockPc(me, c).Holding? && Released(me, c, c', release)
    ensures LockLeft(c'.l, LockPc(me, c).epoch, release) && LockPc(me, c').Idle?
  {
    hide Inv, Gone;
    InsideOwns(c, me.a);
  }

  /** What has been reached stays so while this process moves no record but `w`. */
  lemma Lasts(me: Self, c: State, c': State, w: S.Id, target: S.Name, version: nat, data: Bytes, tmp: S.Name,
      epoch: nat,
              release: Release)
    requires Keeps(me, c, c', {w}, {})
    ensures Shows(c.s.d, target, version, data) ==> Shows(c'.s.d, target, version, data)
    ensures tmp in me.names && tmp !in c.s.d.dir ==> tmp !in c'.s.d.dir
    ensures LockLeft(c.l, epoch, release) ==> LockLeft(c'.l, epoch, release)
    ensures CameAfter(me, c.last, {w}) ==> CameAfter(me, c'.last, {w})
    ensures SI.Grows(c.s.d, c'.s.d)
  {
    hide Gone, SI.Grows, Shows;
    if Shows(c.s.d, target, version, data) { ShowsStays(c.s.d, c'.s.d, target, version, data); }
  }

  /** What one call does once it has the lock, if it takes one: lines 394-446. */
  method WriteInside(p: Process, w: S.Id, tmp: S.Name, x: S.Writer, data: Bytes, locking: bool)
    returns (ok: bool, placed: Option<nat>, unlinkFailed: bool, release: Option<Release>)
    requires p.Valid() && w in p.me.ids && w !in p.c.s.writers && w !in p.c.blocks
    requires tmp in p.me.names && tmp !in p.c.s.d.dir
    requires x.pc.Begun? && x.goal == Some(data) && x.target in p.c.s.d.targets && (locking <==> x.target == p.c.t)
    requires locking ==> !p.c.wholeOnly && LockPc(p.me, p.c).Holding? && NoBlockHolds(p.me, p.c)
    requires !locking ==> LockPc(p.me, p.c).Idle?
    modifies p
    ensures p.Valid() && Adds(p.me, old(p.run), p.run, {w}, {tmp}) && SI.Grows(old(p.c.s.d), p.c.s.d)
    ensures p.c.t == old(p.c.t)
    ensures p.open == old(p.open) && LockPc(p.me, p.c).Idle? && (unlinkFailed || tmp !in p.c.s.d.dir)
    ensures w in p.c.s.writers && p.c.s.writers[w] == x.(pc := p.Pc(w))
    ensures ok ==> placed.Some? && p.Pc(w) == S.Returned(placed.value, data)
    ensures !ok ==> p.Pc(w) == S.Raised(placed.Some?)
    ensures if placed.Some? then ReplacedOnce(p, x.target, placed.value, data)
            else Replacements(p.mine) == old(Replacements(p.mine))
    ensures placed.Some? ==> !unlinkFailed && (ok || x.safety == S.Strict || x.sidecar)
    ensures ok && locking ==> CameAfter(p.me, p.c.last, {w}) && (x.sidecar ==> CameAfter(p.me, p.c.scribe, {w}))
    ensures locking ==> release.Some? && LockLeft(p.c.l, old(LockPc(p.me, p.c)).epoch, release.value)
    ensures Explained(old(p.failures), p.failures, x.safety, ok, placed.Some?, unlinkFailed, release)
  {
    hide Inv, Keeps, Adds, OwnOf, Reaches, Replacements, Shows, SI.Grows, BeforeReplace, Released, Turn, LockLeft,
        CameAfter, TryFailures, Explained, FailsLate, NewFailures;
    Begin(p, w, x, locking);
    label trying:
    Own(p.me, p.c, w);
    placed, unlinkFailed, release := TryExceptFinally(p, w, tmp, data, locking);
    label tried:
    if locking { ReleasedLeft(p.me, old@trying(p.c), p.c, release.value); }
    KeptOpen(p.me, old@trying(p.c), p.c, w, {tmp});
    Grown(p.me, old@trying(p.c), p.c, {w}, {tmp});
    AddsTwice(p.me, old(p.run), old@trying(p.run), p.run, {w}, {tmp}, {w}, {}, {w}, {tmp});
    ok := placed.Some?;
    ghost var triedFailures := p.failures;
    if placed.Some? {
      ok := Aftermath(p, w);
      Lasts(p.me, old@tried(p.c), p.c, w, x.target, placed.value, data, tmp,
            if locking then old(LockPc(p.me, p.c)).epoch else 0, if locking then release.value else Removed);
      KeptOpen(p.me, old@tried(p.c), p.c, w, {});
      ST.GrowsTwice(old(p.c.s.d), old@tried(p.c.s.d), p.c.s.d);
      AddsTwice(p.me, old(p.run), old@tried(p.run), p.run, {w}, {tmp}, {w}, {tmp}, {w}, {});
    }
    AllFailures(old(p.failures), triedFailures, p.failures, x.safety, ok, placed.Some?, unlinkFailed, release);
  }

  /** The same for the whole call: it returns normally exactly if no call failed that it depends on. */
  predicate Explained(before: seq<Failure>, after: seq<Failure>, safety: S.Safety, ok: bool, placed: bool,
                      unlinkFailed: bool, release: Option<Release>)
  {
    var failed := NewFailures(before, after);
    && before <= after
    && (placed <==> failed * TRYING == {}) && (ok <==> placed && !FailsLate(safety, failed))
    && (unlinkFailed <==> TmpUnlink in failed)
    && (release == Some(UnlinkFailed) <==> LockUnlink in failed)
    && (release == Some(Unreadable) <==> LockRead in failed)
  }

  lemma AllFailures(before: seq<Failure>, tried: seq<Failure>, after: seq<Failure>, safety: S.Safety, ok: bool,
                    placed: bool, unlinkFailed: bool, release: Option<Release>)
    requires TryFailures(before, tried, placed, unlinkFailed, release)
    requires if placed then
        && tried <= after && NewFailures(tried, after) <= {DirFsync} + REWRITING
        && (ok <==> !FailsLate(safety, NewFailures(tried, after)))
      else after == tried && !ok
    ensures Explained(before, after, safety, ok, placed, unlinkFailed, release)
  {
    FailuresAdd(before, tried, after);
    hide NewFailures;
  }

  lemma Own(me: Self, c: State, w: S.Id)
    requires Turn(me, c, w)
    ensures w in me.ids && w in c.s.writers && L.Alive(c.l, me.a)
  {
  }

  /**
    Where commits are serial, as they are if all writers of the target hold
    the lock to their end, the sidecar speaks for the target's newest content,
    unless another process has committed since.
   */
  ghost predicate SidecarLeft(p: Process, w: S.Id)
    requires p.Valid() && w in p.c.s.writers
    reads p
  {
    Init(p.start) && SA.HexHash(p.start.s.d) && Exec(p.start, p.run) == Some(p.c)
    && (p.start.wholeOnly || SC.RunSerial(p.start, p.run)) ==>
      (p.c.last.Some? && p.c.last.value !in p.me.ids) || SA.Agrees(p.c.s.d, p.c.t, p.c.s.writers[w].algo)
  }

  lemma SidecarAfterWrite(p: Process, w: S.Id)
    requires p.Valid() && w in p.c.s.writers && p.Pc(w).Returned? && p.c.s.writers[w].sidecar
    requires CameAfter(p.me, p.c.last, {w})
    ensures SidecarLeft(p, w)
  {
    hide Inv, Exec, Init, SA.HexHash, SA.Agrees, OwnOf, GoodNames, Owned, SC.RunSerial;
    if Init(p.start) && SA.HexHash(p.start.s.d) && Exec(p.start, p.run) == Some(p.c) {
      if p.start.wholeOnly { SC.WholeIsSerial(p.start, p.run, p.c); }
      if SC.RunSerial(p.start, p.run) && p.c.last == Some(w) { SC.SidecarSpeaksForTarget(p.start, p.run, p.c); }
    }
  }

  /**
    Calls one after the other: after a serial run that left no other block
    under way, a call during which nobody else enters leaves such a run again,
    and target and sidecar agree.
   */
  ghost predicate AgreesUncontended(start: State, run: seq<Step>, c: State, run': seq<Step>, c': State, w: S.Id,
      algo: string)
    requires Reaches(start, run, c) && Reaches(start, run', c')
  {
    Init(start) && SA.HexHash(start.s.d) && SC.RunSerial(start, run) && SC.Calm(c, w)
    && SC.OnlyEnters(Gained(run, run'), w) ==>
      SC.RunSerial(start, run') && SC.Calm(c', w) && c'.last == Some(w) && SA.Agrees(c'.s.d, c'.t, algo)
  }

  lemma UncontendedWrite(me: Self, start: State, run: seq<Step>, c: State, run': seq<Step>, c': State,
                         w: S.Id, tmp: S.Name, version: nat, data: Bytes)
    requires Reaches(start, run, c) && Reaches(start, run', c') && Adds(me, run, run', {w}, {tmp})
    requires Inv(c) && Inv(c') && c'.t == c.t && w in c'.s.writers
    requires c'.s.writers[w].pc.Returned? && c'.s.writers[w].sidecar
    requires Shows(c'.s.d, c.t, version, data) && S.Latest(c.s.d, c.t) < version
    ensures AgreesUncontended(start, run, c, run', c', w, c'.s.writers[w].algo)
  {
    hide Can, Do, Init, SA.HexHash, SA.Agrees, SC.RunSerial, SC.Calm, SC.OnlyEnters, SC.NoLoss, Exec;
    hide Inv, Shows, S.Latest, Adds;
    MoreShown(c, c', version, data);
    NoLossAdded(me, run, run', w, tmp);
    RunSplits(start, run, c, run', c');
    var more := Gained(run, run');
    assert run' == run + more;
    if Init(start) && SA.HexHash(start.s.d) && SC.RunSerial(start, run) && SC.Calm(c, w) && SC.OnlyEnters(more, w) {
      SC.UncontendedCommitAgrees(start, run, c, more, c', w);
    }
  }

  lemma NoLossAdded(me: Self, run: seq<Step>, run': seq<Step>, w: S.Id, tmp: S.Name)
    requires Adds(me, run, run', {w}, {tmp})
    ensures SC.NoLoss(Gained(run, run')) && run <= run'
  {
    hide Foreign, OwnStep;
    var more := Gained(run, run');
    forall i | 0 <= i < |more| ensures !more[i].Loss? {
      assert more[i] == run'[|run| + i];
      NoOwnLoss(me, more[i], w, tmp);
    }
  }

  lemma NoOwnLoss(me: Self, step: Step, w: S.Id, tmp: S.Name)
    requires Foreign(me, step) || OwnStep(me, step, {w}, {tmp})
    ensures !step.Loss?
  {
  }

  lemma MoreShown(c: State, c': State, version: nat, data: Bytes)
    requires Inv(c) && Inv(c') && c'.t == c.t && Shows(c'.s.d, c.t, version, data) && S.Latest(c.s.d, c.t) < version
    ensures |c.shown| < |c'.shown|
  {
    hide BlocksOk, ViewOk, SI.Inv, L.Inv, Fold;
  }

  /** The lock comes first; a writer record and a temporary name that are free stay so. */
  method AcquireFirst(p: Process, w: S.Id, tmp: S.Name, retries: nat, delay: bool)
    returns (attempt: Attempt, creates: nat, sleeps: nat)
    requires p.Valid() && LockPc(p.me, p.c).Idle? && p.c.t in p.c.s.d.targets
    requires w in p.me.ids && w !in p.c.s.writers && w !in p.c.blocks && tmp in p.me.names && tmp !in p.c.s.d.dir
    modifies p
    ensures p.Valid() && old(p.run) <= p.run && Adds(p.me, old(p.run), p.run, {w}, {tmp}) && p.open == old(p.open)
    ensures Replacements(p.mine) == old(Replacements(p.mine)) && SI.Grows(old(p.c.s.d), p.c.s.d)
    ensures w !in p.c.s.writers && w !in p.c.blocks && tmp !in p.c.s.d.dir
    ensures p.c.s.d.targets == old(p.c.s.d.targets) && p.c.t == old(p.c.t) && p.c.wholeOnly == old(p.c.wholeOnly)
    ensures Attempted(p.me.a, old(p.mine), p.mine, retries, creates, attempt)
    ensures 1 <= creates && sleeps == if delay then creates - 1 else 0
    ensures if attempt.Acquired? then p.failures == old(p.failures)
            else p.failures == old(p.failures) + AttemptFailures(attempt)
    ensures if attempt.Acquired? then LockPc(p.me, p.c) == L.Holding(attempt.epoch) && NoBlockHolds(p.me, p.c)
            else LockPc(p.me, p.c).Idle?
    ensures attempt.LockError? && attempt.created.Some? && attempt.undone ==> Gone(p.c.l, attempt.created.value)
  {
    hide Inv, Keeps, Adds, OwnOf, Reaches, Replacements, Gone, SI.Grows, Attempted, AttemptFailures, NoBlockHolds;
    attempt, creates, sleeps := TryAcquireLock(p, retries, delay);
    Grown(p.me, old(p.c), p.c, {}, {});
    StillFree(p.me, old(p.c), p.c, w, tmp);
    AddsMore(p.me, old(p.run), p.run, {}, {}, {w}, {tmp});
    if attempt.Acquired? { NoFailure(old(p.failures), p.failures, attempt); }
  }

  /**
    The whole call.  Whatever fails, and whatever others do meanwhile: the
    target is replaced once, by exactly `data`, or not at all and an error is
    raised; an error after the replace leaves the new version in place and can
    only come from the strict directory fsync or from the sidecar; the
    descriptor is closed; the temporary name is gone unless its unlink failed;
    the lock file is gone unless it was unreadable, damaged or its unlink failed.
    The process's own steps are those of this call alone, and change no other
    directory entry than the four of this call.
   */
  method Write(p: Process, w: S.Id, tmp: S.Name, target: S.Name, data: Bytes, locking: bool,
               safety: S.Safety, sidecar: bool, algo: string, retries: nat, delay: bool)
    returns (ending: Ending, report: Report)
    requires p.Valid() && LockPc(p.me, p.c).Idle?
    requires w in p.me.ids && w !in p.c.s.writers && w !in p.c.blocks
    requires tmp in p.me.names && tmp !in p.c.s.d.dir
    requires target in p.c.s.d.targets && (locking <==> target == p.c.t) && (locking ==> !p.c.wholeOnly)
    modifies p
    ensures p.Valid() && old(p.run) <= p.run && SI.Grows(old(p.c.s.d), p.c.s.d)
    ensures Adds(p.me, old(p.run), p.run, {w}, {tmp})
    ensures Exec(old(p.c), Gained(old(p.run), p.run)) == Some(p.c)
    ensures Spares(p.me, old(p.c), Gained(old(p.run), p.run), NamesOf(target, tmp))
    ensures p.open == old(p.open) && LockPc(p.me, p.c).Idle?
    ensures ending.Refused? ==>
      && locking && !ending.attempt.Acquired? && w !in p.c.s.writers && !report.unlinkFailed
      && Replacements(p.mine) == old(Replacements(p.mine))
      && Attempted(p.me.a, old(p.mine), p.mine, retries, report.creates, ending.attempt)
      && p.failures == old(p.failures) + AttemptFailures(ending.attempt)
    ensures locking ==>
      1 <= report.creates && report.sleeps == if delay then report.creates - 1 else 0
    ensures !ending.Refused? ==>
      && (locking ==> AttemptedFirst(p.me.a, old(p.mine), p.mine, retries, report.creates, Acquired(report.epoch)))
      && Explained(old(p.failures), p.failures, safety, ending.Done?, ending.Done? || ending.placed.Some?,
                   report.unlinkFailed, report.release)
    ensures !ending.Refused? ==>
      && w in p.c.s.writers && p.c.s.writers[w] == S.Writer(target, safety, sidecar, algo, Some(data), p.Pc(w))
    ensures ending.Done? ==>
      && p.Pc(w) == S.Returned(ending.version, data) && ReplacedOnce(p, target, ending.version, data)
      && (safety == S.Strict ==> target in p.c.s.d.acked && ending.version <= p.c.s.d.acked[target])
      && (locking ==> CameAfter(p.me, p.c.last, {w}) && (sidecar ==> CameAfter(p.me, p.c.scribe, {w})))
      && (locking && sidecar ==>
            SidecarLeft(p, w) && AgreesUncontended(p.start, old(p.run), old(p.c), p.run, p.c, w, algo))
    ensures ending.Raised? && ending.placed.Some? ==>
      && p.Pc(w) == S.Raised(true) && (safety == S.Strict || sidecar)
      && ReplacedOnce(p, target, ending.placed.value, data)
    ensures ending.Raised? && ending.placed.None? ==>
      p.Pc(w) == S.Raised(false) && Replacements(p.mine) == old(Replacements(p.mine))
    ensures report.unlinkFailed ==> ending.Raised? && ending.placed.None?
    ensures !report.unlinkFailed ==> tmp !in p.c.s.d.dir
    ensures !ending.Refused? && locking ==>
      report.release.Some? && LockLeft(p.c.l, report.epoch, report.release.value)
    ensures ending.Refused? && ending.attempt.LockError? && ending.attempt.created.Some? && ending.attempt.undone ==>
      Gone(p.c.l, ending.attempt.created.value)
  {
    hide Inv, Keeps, Adds, OwnOf, Reaches, Replacements, Gone, Shows, SI.Grows, BeforeReplace, LockLeft, CameAfter,
        Exec, Spares;
    hide Turn, SidecarLeft, AgreesUncontended, Gained, Attempted, AttemptedFirst, Explained, NewFailures,
        AttemptFailures, L.Alive, S.Latest, LockFile.Took, FailedToTake, NoBlockHolds, NamesOf, GoodNames,
        Owned;
    hide Process.Valid;
    Starting(p);
    report := Report(false, 0, None, 0, 0);
    IsAlive(p);
    KeepsItself(p.me, p.c, p.run);
    if locking {
      var attempt, creates, sleeps := AcquireFirst(p, w, tmp, retries, delay);
      report := report.(creates := creates, sleeps := sleeps);
      if !attempt.Acquired? {
        Starting(p);
        ProcessSparesOthers(p.me, p.start, old(p.run), old(p.c), p.run, p.c, w, tmp, target);
        return Refused(attempt), report;
      }
      report := report.(epoch := attempt.epoch);
    } else {
      StillFree(p.me, p.c, p.c, w, tmp);
      AddsMore(p.me, p.run, p.run, {}, {}, {w}, {tmp});
    }
    LatestOf(old(p.c.s.d), p.c.s.d, target);
    label inside:
    Starting(p);
    var ok, placed, unlinkFailed, release :=
      WriteInside(p, w, tmp, NewWriter(target, data, safety, sidecar, algo), data, locking);
    Starting(p);
    report := report.(unlinkFailed := unlinkFailed, release := release);
    ST.GrowsTwice(old(p.c.s.d), old@inside(p.c.s.d), p.c.s.d);
    AddsMore(p.me, old@inside(p.run), p.run, {w}, {tmp}, {w}, {tmp});
    if locking {
      AttemptsLast(p, old(p.mine), old@inside(p.run), old@inside(p.mine), retries, report.creates, report.epoch);
    }
    AddsTwice(p.me, old(p.run), old@inside(p.run), p.run, {w}, {tmp}, {w}, {tmp}, {w}, {tmp});
    AddsMore(p.me, old(p.run), p.run, {w}, {tmp}, {w}, {tmp});
    ProcessSparesOthers(p.me, p.start, old(p.run), old(p.c), p.run, p.c, w, tmp, target);
    OwnVersion(p.c, w);
    if ok && locking && sidecar {
      SidecarAfterWrite(p, w);
      UncontendedWrite(p.me, p.start, old(p.run), old(p.c), p.run, p.c, w, tmp, placed.value, data);
    }
    ending := if ok then Done(placed.value) else Raised(placed);
  }

  lemma Starting(p: Process)
    requires p.Valid()
    ensures Inv(p.c) && Reaches(p.start, p.run, p.c) && p.mine == OwnOf(p.me, p.run)
  {
    hide Inv, Reaches, OwnOf, GoodNames, Owned;
  }

  /** The attempts come first among the process's own steps. */
  ghost predicate AttemptedFirst(a: L.Actor, before: seq<Step>, after: seq<Step>, retries: nat, creates: nat,
                                 result: Attempt)
  {
    exists n :: 0 <= n <= |after| && Attempted(a, before, after[..n], retries, creates, result)
  }

  lemma NoFailure(before: seq<Failure>, after: seq<Failure>, attempt: Attempt)
    requires after == before + AttemptFailures(attempt) && attempt.Acquired?
    ensures after == before
  {
  }

  lemma AttemptsLast(p: Process, before: seq<Step>, run: seq<Step>, mine: seq<Step>, retries: nat, creates: nat,
                     epoch: nat)
    requires p.Valid() && run <= p.run && mine == OwnOf(p.me, run)
    requires Attempted(p.me.a, before, mine, retries, creates, Acquired(epoch))
    ensures AttemptedFirst(p.me.a, before, p.mine, retries, creates, Acquired(epoch))
  {
    hide Inv, Reaches, OwnOf, GoodNames, Owned, Attempted;
    OwnPrefix(p.me, run, p.run);
    assert p.mine[..|mine|] == mine;
  }

  lemma AddsMore(me: Self, run: seq<Step>, run': seq<Step>, moved: set<S.Id>, made: set<S.Name>,
                 moved': set<S.Id>, made': set<S.Name>)
    requires Adds(me, run, run', moved, made) && moved <= moved' && made <= made'
    ensures Adds(me, run, run', moved', made') && run <= run'
  {
    hide Foreign;
  }

  lemma LatestOf(d: S.Disk, d': S.Disk, t: S.Name)
    requires SI.Grows(d, d')
    ensures S.Latest(d, t) <= S.Latest(d', t)
  {
  }

  lemma Grown(me: Self, c: State, c': State, moved: set<S.Id>, made: set<S.Name>)
    requires Keeps(me, c, c', moved, made)
    ensures SI.Grows(c.s.d, c'.s.d) && c'.t == c.t && c'.wholeOnly == c.wholeOnly && c.l.next <= c'.l.next
    ensures forall e: nat | Gone(c.l, e) :: Gone(c'.l, e)
  {
  }

  /** A fresh writer id and a fresh temporary name stay fresh while others move. */
  lemma StillFree(me: Self, c: State, c': State, w: S.Id, tmp: S.Name)
    requires Keeps(me, c, c', {}, {}) && w in me.ids && w !in c.s.writers && w !in c.blocks
    requires tmp in me.names && tmp !in c.s.d.dir
    ensures w !in c'.s.writers && w !in c'.blocks && tmp !in c'.s.d.dir
    ensures c'.s.d.targets == c.s.d.targets && c'.t == c.t && c'.wholeOnly == c.wholeOnly && SI.Grows(c.s.d, c'.s.d)
  {
  }
}
