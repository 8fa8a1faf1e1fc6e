/**
  The class `AtomicWriter` (src/safeatomic/_io_core.py:943-1146): its methods
  with their fields and exception handlers, run by one process among others
  with any call free to fail.  Each is proved to do what WriterCalls says,
  so what is proved there of sequences of calls holds of the object.
 */
module AtomicWriterObject {
  import opened Basics
  import S = Storage
  import SI = StorageInvariant
  import ST = StorageTheorems
  import L = LockProtocol
  import opened Composite
  import opened Machine
  import opened SystemCalls
  import LF = LockFile
  import WriteCore
  import WC = WriterCalls

  class AtomicWriter {
    const p: Process
    const target: S.Name
    const locking: bool
    const safety: S.Safety
    const sidecar: bool
    const algo: string
    const retries: nat
    const delay: bool

    var tmp: Option<S.Name>
    var fd: Option<S.Ino>
    var committed: bool
    var aborted: bool

    /** The writer record of the latest entry. */
    var id: S.Id
    /** History: the object as WriterCalls sees it, the versions it placed, and the lock acquisitions it made. */
    ghost var o: WC.Obj
    ghost var versions: seq<nat>
    ghost var acquired: set<nat>
    /** History: the calls so far, with their outcomes; what had failed before; the held locks found damaged. */
    ghost var calls: seq<WC.Call>
    ghost const began: seq<Failure>
    ghost var damaged: set<nat>

    constructor (p: Process, target: S.Name, locking: bool, safety: S.Safety, sidecar: bool, algo: string,
                 retries: nat, delay: bool)
      requires p.Valid() && target in p.c.s.d.targets && (locking <==> target == p.c.t)
      requires locking ==> LockPc(p.me, p.c).Idle?
      ensures Valid() && Told() && o == WC.New(locking) && calls == []
      ensures this.p == p && this.target == target && this.locking == locking
      ensures this.safety == safety && this.sidecar == sidecar && this.algo == algo
      ensures this.retries == retries && this.delay == delay
      ensures versions == [] && acquired == {} && damaged == {} && began == p.failures
    {
      hide Inv, Reaches, Turn, GoodNames, Owned, AllShow, OwnOf;
      this.p, this.target, this.locking, this.safety, this.sidecar := p, target, locking, safety, sidecar;
      this.algo, this.retries, this.delay := algo, retries, delay;
      tmp, fd, committed, aborted := None, None, false, false;
      id, o, versions, acquired, calls := 0, WC.New(locking), [], {}, [];
      began, damaged := p.failures, {};
      new;
      FreshIsValid();
    }

    lemma FreshIsValid()
      requires p.Valid() && target in p.c.s.d.targets && (locking <==> target == p.c.t)
      requires locking ==> LockPc(p.me, p.c).Idle?
      requires tmp.None? && fd.None? && !committed && !aborted && o == WC.New(locking) && versions == []
          && acquired == {}
      ensures Valid()
    {
      hide Inv, Reaches, Turn, GoodNames, Owned, OwnOf;
    }

    function Fresh(): S.Writer
    {
      S.Writer(target, safety, sidecar, algo, None, S.Begun)
    }

    /** The temporary file is open, and holds what the object says. */
    ghost predicate FileOk()
      reads this`tmp, this`fd, this`id, this`o, p
    {
      if fd.Some? then
        && tmp.Some? && tmp.value in p.me.names && fd.value in p.open && o.inside.Some?
        && id in p.me.ids && id in p.c.s.writers && Turn(p.me, p.c, id) && (id in p.c.blocks <==> locking)
        && p.c.s.writers[id] == Fresh().(pc := S.Open(tmp.value, fd.value, o.inside.value))
      else
        tmp.None? && o.inside.None?
    }

    /** The lock is held exactly when the object says so, and then it is this object's block that holds it. */
    ghost predicate LockOk()
      reads this`id, this`o, this`acquired, p
    {
      && (!locking ==> o.lock == WC.Free)
      && (locking && o.lock != WC.Held ==> LockPc(p.me, p.c).Idle?)
      && (locking && o.lock == WC.Held ==>
            && id in p.c.blocks && id in p.c.s.writers && id in p.me.ids && p.c.blocks[id].actor == p.me.a
            && LockPc(p.me, p.c) == L.Holding(p.c.blocks[id].epoch) && p.c.blocks[id].epoch in acquired
            && p.c.blocks[id].view.None?)
      && (forall e | e in acquired :: e < p.c.l.next)
      && (o.lock == WC.Free ==> forall e | e in acquired :: Gone(p.c.l, e))
    }

    /** What was placed is in the target's history. */
    ghost predicate PlacedOk()
      reads this`o, this`versions, p
    {
      AllShow(p.c.s.d, target, versions, o.placed)
    }

    ghost predicate Core()
      reads this`tmp, this`fd, this`committed, this`aborted, this`id, this`o, this`versions, this`acquired, p
    {
      && p.Valid() && target in p.c.s.d.targets && (locking <==> target == p.c.t)
      && o.locking == locking && o.committed == committed && o.aborted == aborted
      && FileOk() && LockOk() && PlacedOk()
    }

    /** Between two calls, a lock that is held without a file belongs to a writer that is through. */
    ghost predicate Valid()
      reads this`tmp, this`fd, this`committed, this`aborted, this`id, this`o, this`versions, this`acquired, p
    {
      Core() && (locking && o.lock == WC.Held && fd.None? ==> p.Pc(id).Raised? || p.Pc(id).Returned?)
    }

    /**
      The last commit has returned: the writer's record holds the version
      placed last, and who committed or opened the sidecar after it, if
      anybody, belongs to another process.
     */
    ghost predicate CommitReturned()
      reads this`id, this`o, this`versions, p
    {
      && versions != [] && o.placed != [] && id in p.c.s.writers
      && p.c.s.writers[id] == S.Writer(target, safety, sidecar, algo, None,
                                       S.Returned(versions[|versions| - 1], o.placed[|o.placed| - 1]))
      && (locking ==> CameAfter(p.me, p.c.last, {id}) && (sidecar ==> CameAfter(p.me, p.c.scribe, {id})))
    }

    /** The object is what its calls have made of it, and a lock it still has, or has left behind, has its reason. */
    ghost predicate Told()
      reads this, p
    {
      WC.Possible(WC.New(locking), calls) && o == WC.Run(WC.New(locking), calls) && Reasons()
    }

    /**
      A lock file is left behind only after a call on it has failed, or when
      it was found damaged; a lock is held without a file only after a strict
      directory fsync has failed.
     */
    ghost predicate Reasons()
      reads this`fd, this`o, this`damaged, p`failures
    {
      var failed := NewFailures(began, p.failures);
      && began <= p.failures
      && (o.lock == WC.Stuck ==> failed * {LockRead, LockUnlink} != {} || damaged != {})
      && (locking && o.lock == WC.Held && fd.None? ==> safety == S.Strict && DirFsync in failed)
    }

    ghost method Record(call: WC.Call)
      requires WC.Possible(WC.New(locking), calls) && WC.Can(WC.Run(WC.New(locking), calls), call)
      requires o == WC.Step(WC.Run(WC.New(locking), calls), call) && Reasons()
      modifies this`calls
      ensures Told() && calls == old(calls) + [call]
    {
      WC.OneMoreCall(WC.New(locking), calls, call);
      calls := calls + [call];
    }

    /** What holds of the real object between any two calls, whatever was called before. */
    lemma WhatEveryObjectKeeps()
      requires Valid() && Told()
      ensures |versions| == |o.placed| == if committed then 1 else 0
      ensures committed ==> Shows(p.c.s.d, target, versions[0], o.placed[0])
      ensures fd.Some? ==> p.c.s.writers[id].pc.accepted == WC.AcceptedSince(calls)
      ensures forall before, exit: WC.Call | calls == before + [exit] && exit.Exit? ::
        && (fd.Some? <==> !exit.failed && exists i: nat :: WC.Reenters(before, i))
        && (o.lock == WC.Held <==> locking && (fd.Some? || WC.SyncErrorPending(WC.New(locking), calls)))
    {
      hide Inv, Keeps, Adds, OwnOf, Reaches, Gone, Shows, BeforeReplace, Turn;
      hide WC.Reenters, WC.Run, WC.Possible, WC.SyncErrorPending;
      WC.ReplacedAtMostOnce(locking, calls);
      WC.InsideIsAccepted(locking, calls);
      forall before, exit: WC.Call | calls == before + [exit] && exit.Exit?
        ensures fd.Some? <==> !exit.failed && exists i: nat :: WC.Reenters(before, i)
        ensures o.lock == WC.Held <==> locking && (fd.Some? || WC.SyncErrorPending(WC.New(locking), calls))
      {
        WC.ExitExactly(locking, before, exit);
        WC.LeftOpenExactly(locking, before, exit);
      }
    }

    /**
      A lock file of this object stays only for a reason: if no read or unlink
      of one has failed, none was found damaged, and no strict directory fsync
      has failed, then between any two calls without a file in hand all locks
      it ever took are given back.  WriterCalls.LeftOpenExactly says when
      there is a file in hand after an exit.
     */
    lemma LockIsGivenBack()
      requires Valid() && Told() && locking && fd.None?
      requires NewFailures(began, p.failures) * {LockRead, LockUnlink} == {} && damaged == {}
      requires safety == S.Strict ==> DirFsync !in NewFailures(began, p.failures)
      ensures o.lock == WC.Free && LockPc(p.me, p.c).Idle?
      ensures forall e | e in acquired :: Gone(p.c.l, e)
    {
      hide Inv, Turn, Gone, Shows, BeforeReplace, NewFailures, WC.Run, WC.Possible, Process.Valid, AllShow;
    }

    /** So a block entered once, or left by an exception, ends without its lock in that case. */
    lemma BlockGivesItsLockBack(before: seq<WC.Call>, exit: WC.Call)
      requires Valid() && Told() && locking && calls == before + [exit] && exit.Exit?
      requires exit.failed || !exists i: nat :: WC.Reenters(before, i)
      requires NewFailures(began, p.failures) * {LockRead, LockUnlink} == {} && damaged == {}
      requires safety == S.Strict ==> DirFsync !in NewFailures(began, p.failures)
      ensures fd.None? && o.lock == WC.Free && forall e | e in acquired :: Gone(p.c.l, e)
    {
      hide Inv, Turn, Gone, Shows, NewFailures, WC.Run, WC.Possible, WC.Reenters, AllShow, Valid, Told;
      WhatEveryObjectKeeps();
      LockIsGivenBack();
    }

    // ----- write and flush ----------------------------------------------------------------------------

    /** Bytes a failing write loop had already handed over stay in the temporary file. */
    method Write(data: Bytes) returns (call: WC.Call, raised: bool)
      requires Valid() && Told()
      modifies p, this`o, this`calls
      ensures Told() && calls == old(calls) + [call]
      ensures Valid() && call.Write? && call.data == data && WC.Can(old(o), call) && o == WC.Step(old(o), call)
      ensures raised <==> old(fd).None? || call.written < |data|
      ensures Replacements(p.mine) == old(Replacements(p.mine))
      ensures p.Kept({id}, {}) && id == old(id) && p.open == old(p.open)
      ensures p.failures == old(p.failures) + if raised && old(fd).Some? then [TmpWrite] else []
    {
      hide Inv, Keeps, Adds, OwnOf, Reaches, Replacements, Gone, Shows, BeforeReplace, AllShow;
      hide CameAfter, S.Latest, SI.Grows, Process.Valid;
      Nothing(id);
      if fd.None? {
        call, raised := WC.Write(data, 0), true;
        Record(call);
        return;
      }
      var written := Append(data);
      FailuresGrow(began, old(p.failures), p.failures);
      call := WC.Write(data, written);
      raised := written < |data|;
      Record(call);
    }

    /** Hands bytes over to the temporary file. */
    method Append(data: Bytes) returns (written: nat)
      requires Valid() && fd.Some?
      modifies p, this`o
      ensures Valid() && written <= |data| && o == WC.Step(old(o), WC.Write(data, written))
      ensures Replacements(p.mine) == old(Replacements(p.mine)) && p.Kept({id}, {}) && p.open == old(p.open)
      ensures p.failures == old(p.failures) + if written < |data| then [TmpWrite] else []
    {
      hide Inv, Keeps, Adds, OwnOf, Reaches, Replacements, Gone, Shows, BeforeReplace, AllShow, Turn;
      hide CameAfter, S.Latest, SI.Grows, Process.Valid;
      OwnTurn(p.me, p.c, id);
      var ok;
      ok, written := WriteBytesToFd(p, id, data);
      Coast(p.me, old(p.c), p.c, id, {id}, {}, target, versions, o.placed, acquired);
      o := WC.Step(o, WC.Write(data, written));
    }

    method Flush() returns (call: WC.Call, raised: bool)
      requires Valid() && Told()
      modifies p, this`calls
      ensures Told() && calls == old(calls) + [call]
      ensures Valid() && call.Flush? && o == WC.Step(old(o), call) && (old(fd).None? ==> raised)
      ensures Replacements(p.mine) == old(Replacements(p.mine))
      ensures p.Kept({id}, {}) && id == old(id) && p.open == old(p.open)
      ensures p.failures == old(p.failures) + if raised && old(fd).Some? then [TmpFsync] else []
      ensures !raised ==> fd.Some? && fd.value in p.c.s.d.inodes && p.c.s.d.inodes[fd.value].durable
    {
      hide Inv, Keeps, Adds, OwnOf, Reaches, Replacements, Gone, Shows, BeforeReplace, AllShow;
      hide CameAfter, S.Latest, SI.Grows, Process.Valid;
      Nothing(id);
      call := WC.Flush;
      if fd.None? {
        Record(call);
        return call, true;
      }
      var ok := Fsync(p, id, false);
      FailuresGrow(began, old(p.failures), p.failures);
      Coast(p.me, old(p.c), p.c, id, {id}, {}, target, versions, o.placed, acquired);
      Record(call);
      raised := !ok;
    }

    /** A call that does nothing keeps everything. */
    lemma Nothing(w: S.Id)
      requires p.Valid()
      ensures Keeps(p.me, p.c, p.c, {w}, {}) && Adds(p.me, p.run, p.run, {w}, {})
    {
      hide Inv, Reaches, OwnOf, GoodNames, Owned;
      StartStep(p.me, p.c, p.run, w);
    }

    // ----- commit -----------------------------------------------------------------------------------------

    /** `_release_lock`. */
    method ReleaseQuietly() returns (gone: bool, release: Option<Release>)
      requires Valid() && fd.None?
      modifies p, this`o, this`damaged
      ensures Valid() && p.Kept({}, {}) && o == old(o).(lock := WC.Release(old(o.lock), gone))
      ensures Replacements(p.mine) == old(Replacements(p.mine)) && p.open == old(p.open)
      ensures GivenBack(p.me.a, old(p.mine), p.mine, locking, HeldEpoch(p.me, old(p.c)), release, gone,
                        old(damaged), damaged)
      ensures FailedOnly(old(p.failures), p.failures, {LockRead, LockUnlink})
      ensures ReleaseShows(NewFailures(old(p.failures), p.failures), release)
    {
      hide Inv, Keeps, Adds, OwnOf, Reaches, Replacements, Gone, Shows, BeforeReplace, NewFailures, AllShow;
      hide Turn, CameAfter, S.Latest, SI.Grows, Process.Valid, LF.ReleaseSteps, LockPc;
      OneNewFailure(p.failures, LockRead);
      gone, release := true, None;
      IsAlive(p);
      KeepsItself(p.me, p.c, p.run);
      if locking {
        var result := ReleaseLock();
        gone, release := result.Removed?, Some(result);
        damaged := damaged + FoundDamaged(HeldEpoch(p.me, old(p.c)), release);
        o := o.(lock := WC.Release(o.lock, gone));
      }
    }

    /** The release itself: nobody of this process is in the lock then. */
    method ReleaseLock() returns (result: Release)
      requires Valid() && fd.None? && locking
      modifies p
      ensures p.Valid() && p.Kept({}, {}) && target in p.c.s.d.targets && (locking <==> target == p.c.t)
      ensures FileOk() && PlacedOk() && LockPc(p.me, p.c).Idle?
      ensures forall e | e in acquired :: e < p.c.l.next
      ensures result.Removed? || o.lock == WC.Free ==> forall e | e in acquired :: Gone(p.c.l, e)
      ensures Replacements(p.mine) == old(Replacements(p.mine)) && p.open == old(p.open)
      ensures p.mine == old(p.mine) + LF.ReleaseSteps(p.me.a, result)
      ensures result.NotOurs? && HeldEpoch(p.me, old(p.c)).Some? ==>
        && result.found.Some? && result.found.value.epoch == HeldEpoch(p.me, old(p.c)).value
        && !result.found.value.payload.Doc?
      ensures FailedOnly(old(p.failures), p.failures, {LockRead, LockUnlink})
      ensures ReleaseShows(NewFailures(old(p.failures), p.failures), Some(result))
    {
      hide Inv, Keeps, Adds, OwnOf, Reaches, Replacements, Gone, Shows, BeforeReplace, NewFailures, AllShow;
      hide LF.ReleaseFailures, LF.ReleaseSteps, Turn, CameAfter, S.Latest, SI.Grows;
      if o.lock == WC.Held { WriteCore.DueNow(p.me, p.c, id); }
      result := LF.ReleaseLock(p);
      Coast(p.me, old(p.c), p.c, id, {}, {}, target, versions, o.placed, acquired);
      WriteCore.AddedByRelease(old(p.failures), p.failures, Some(result));
    }

    /** The try block of the commit and its handler, as far as the file goes. */
    method ReplaceFile() returns (ok: bool)
      requires Valid() && fd.Some?
      modifies p
      ensures p.Valid() && target in p.c.s.d.targets && (locking <==> target == p.c.t) && LockOk() && PlacedOk()
      ensures p.Kept({id}, {}) && p.open == old(p.open) - {fd.value} && id in p.c.s.writers
      ensures !ok ==> p.Pc(id) == S.Raised(false) && Replacements(p.mine) == old(Replacements(p.mine))
      ensures ok ==>
        && Replacements(p.mine) == old(Replacements(p.mine)) + 1
        && Turn(p.me, p.c, id) && (id in p.c.blocks <==> locking) && p.Pc(id).Placed?
        && p.c.s.writers[id] == Fresh().(pc := S.Placed(p.Pc(id).version, o.inside.value))
        && Shows(p.c.s.d, target, p.Pc(id).version, o.inside.value)
        && old(S.Latest(p.c.s.d, target)) < p.Pc(id).version
        && (locking ==> CameAfter(p.me, p.c.last, {id}))
      ensures if ok then p.failures == old(p.failures) else PlacingFailed(old(p.failures), p.failures)
      ensures TmpUnlink !in NewFailures(old(p.failures), p.failures) ==> tmp.value !in p.c.s.d.dir
      ensures LockPc(p.me, p.c) == old(LockPc(p.me, p.c))
    {
      hide Inv, Keeps, Adds, OwnOf, Reaches, Replacements, Gone, Shows, BeforeReplace, AllShow, Turn, Process.Valid,
          S.Latest;
      hide CameAfter;
      OwnTurn(p.me, p.c, id);
      ok := ReplaceOrCleanUp(p, id, tmp.value);
      Coast(p.me, old(p.c), p.c, id, {id}, {}, target, versions, o.placed, acquired);
    }

    /** The fields when the file is gone: its content placed, or not. */
    ghost method NoteOutcome(placed: bool)
      requires p.Valid() && target in p.c.s.d.targets && (locking <==> target == p.c.t) && LockOk() && PlacedOk()
      requires o.locking == locking && o.committed == committed && o.aborted == aborted && o.inside.Some?
      requires fd.None? && tmp.None? && id in p.c.s.writers
      requires if placed then
          && Turn(p.me, p.c, id) && (id in p.c.blocks <==> locking) && p.Pc(id).Placed?
          && p.c.s.writers[id] == Fresh().(pc := S.Placed(p.Pc(id).version, o.inside.value))
          && Shows(p.c.s.d, target, p.Pc(id).version, o.inside.value) && (locking ==> CameAfter(p.me, p.c.last, {id}))
        else p.Pc(id) == S.Raised(false)
      modifies this`o, this`versions
      ensures Core()
      ensures if placed then
          && o == old(o).(inside := None, placed := old(o).placed + [old(o).inside.value])
          && JustPlaced() && versions[|versions| - 1] == p.Pc(id).version
        else Valid() && o == old(o).(inside := None)
    {
      hide Inv, Keeps, OwnOf, Reaches, Gone, Shows, BeforeReplace, AllShow, Turn, Process.Valid, CameAfter;
      if placed {
        OneMoreShown(p.c.s.d, target, versions, o.placed, p.Pc(id).version, o.inside.value);
        versions := versions + [p.Pc(id).version];
        o := o.(inside := None, placed := o.placed + [o.inside.value]);
      } else {
        o := o.(inside := None);
      }
    }

    /** Up to the replace; the handler's file cleanup included, the release of the lock not. */
    method TryCommit() returns (ok: bool)
      requires Valid() && fd.Some?
      modifies p, this`fd, this`tmp, this`o, this`versions
      ensures Core() && fd.None? && p.Kept({id}, {}) && p.open == old(p.open) - {old(fd).value}
      ensures !ok ==> Valid() && o == old(o).(inside := None) && Replacements(p.mine) == old(Replacements(p.mine))
      ensures ok ==>
        && o == old(o).(inside := None, placed := old(o).placed + [old(o).inside.value])
        && Replacements(p.mine) == old(Replacements(p.mine)) + 1
        && JustPlaced() && old(S.Latest(p.c.s.d, target)) < versions[|versions| - 1]
      ensures if ok then p.failures == old(p.failures) else PlacingFailed(old(p.failures), p.failures)
      ensures TmpUnlink !in NewFailures(old(p.failures), p.failures) ==> old(tmp).value !in p.c.s.d.dir
      ensures LockPc(p.me, p.c) == old(LockPc(p.me, p.c))
    {
      hide Inv, Keeps, Adds, OwnOf, Reaches, Replacements, Gone, Shows, BeforeReplace, AllShow, Turn, Process.Valid,
          S.Latest;
      hide CameAfter, LockPc, NewFailures;
      ok := ReplaceFile();
      tmp, fd := None, None;
      hide LockOk, PlacedOk, FileOk;
      NoteOutcome(ok);
    }

    /** The content is in place, and the rest of the commit is to come. */
    ghost predicate JustPlaced()
      reads this`id, this`o, this`versions, p
    {
      && versions != [] && o.placed != [] && id in p.c.s.writers && Turn(p.me, p.c, id)
          && (id in p.c.blocks <==> locking)
      && p.c.s.writers[id] == Fresh().(pc := S.Placed(versions[|versions| - 1], o.placed[|o.placed| - 1]))
      && (locking ==> CameAfter(p.me, p.c.last, {id}))
    }

    /** Lines 1110-1123: what follows the replace. */
    method FinishCommit() returns (fate: WC.CommitFate, release: Option<Release>)
      requires Core() && fd.None? && JustPlaced() && !committed
      modifies p, this`committed, this`o, this`damaged
      ensures Valid() && committed && !fate.FailedBeforeReplace? && Replacements(p.mine) == old(Replacements(p.mine))
      ensures p.Kept({id}, {}) && p.open == old(p.open) && (fate.Finished? ==> CommitReturned())
      ensures LateFate(safety, NewFailures(old(p.failures), p.failures), fate)
      ensures o == old(o).(committed := true,
        lock := if fate.SyncDirRaised? then old(o).lock else WC.Release(old(o).lock, fate.released))
      ensures FailedOnly(old(p.failures), p.failures, {DirFsync} + REWRITING + {LockRead, LockUnlink})
      ensures ReleaseShows(NewFailures(old(p.failures), p.failures), release)
      ensures if fate.SyncDirRaised? then release.None? && damaged == old(damaged)
              else GivenBack(p.me.a, old(p.mine), p.mine, locking, HeldEpoch(p.me, old(p.c)), release, fate.released,
                             old(damaged), damaged)
    {
      hide Inv, Keeps, Adds, OwnOf, Reaches, Replacements, Gone, Shows, BeforeReplace, AllShow, Turn, CameAfter;
      hide Process.Valid, NewFailures, FileOk, LockOk, PlacedOk, S.Latest, LateFate, GivenBack, LockPc;
      CoreSteps();
      MarkCommitted();
      fate := SyncAndSidecar();
      ghost var after := p.failures;
      release := None;
      OneNewFailure(after, LockRead);
      AfterRelease(old(p.failures), after, after, safety, fate, release);
      if !fate.SyncDirRaised? {
        label releasing:
        MineGrows(p, old(p.run), old(p.mine), {id}, {});
        var gone;
        gone, release := ReleaseQuietly();
        GivenBackSince(p.me.a, old(p.mine), old@releasing(p.mine), p.mine, locking, HeldEpoch(p.me, old(p.c)), release,
            gone, old(damaged), damaged);
        AfterRelease(old(p.failures), after, p.failures, safety, fate, release);
        KeepsTwice(p.me, old(p.c), old(p.run), old@releasing(p.c), old@releasing(p.run), p.c, p.run, {id}, {}, {id},
            {}, {}, {});
        NotesStay(p.me, old@releasing(p.c), p.c, id, {}, {});
        WriteCore.KeptRecords(p.me, old@releasing(p.c), p.c, id);
        LabelledLock(safety, NewFailures(old(p.failures), p.failures), fate, gone);
        fate := if fate.Finished? then WC.Finished(gone) else WC.SidecarRaised(gone);
      }
    }

    lemma CoreSteps()
      requires Core()
      ensures p.Valid() && p.mine == OwnOf(p.me, p.run)
    {
      hide Inv, OwnOf, Reaches, Gone, Shows, BeforeReplace, AllShow, Turn, Process.Valid, FileOk, LockOk, PlacedOk;
      OwnSteps(p);
    }

    method MarkCommitted()
      requires Core() && fd.None? && JustPlaced()
      modifies this`committed, this`o
      ensures Core() && JustPlaced() && committed && o == old(o).(committed := true)
    {
      hide Inv, Keeps, OwnOf, Reaches, Gone, Shows, BeforeReplace, AllShow, Turn, CameAfter, Process.Valid;
      committed, o := true, o.(committed := true);
    }

    /** Directory fsync and sidecar, for the object. */
    method SyncAndSidecar() returns (fate: WC.CommitFate)
      requires Core() && fd.None? && JustPlaced()
      modifies p
      ensures Valid() && !fate.FailedBeforeReplace? && LockPc(p.me, p.c) == old(LockPc(p.me, p.c))
      ensures Replacements(p.mine) == old(Replacements(p.mine))
      ensures p.Kept({id}, {}) && p.open == old(p.open) && id in p.me.ids && id in p.c.s.writers
      ensures fate.Finished? ==> CommitReturned()
      ensures FailedOnly(old(p.failures), p.failures, {DirFsync} + REWRITING)
      ensures LateFate(safety, NewFailures(old(p.failures), p.failures), fate)
    {
      hide Inv, Keeps, Adds, OwnOf, Reaches, Replacements, Gone, Shows, BeforeReplace, AllShow, Turn, CameAfter;
      hide Process.Valid, NewFailures, LateFate, S.Latest;
      OwnTurn(p.me, p.c, id);
      fate := AfterReplacing(p, id);
      Coast(p.me, old(p.c), p.c, id, {id}, {}, target, versions, o.placed, acquired);
      NotesStay(p.me, old(p.c), p.c, id, {id}, {});
    }

    method RunCommit() returns (call: WC.Call, raised: bool, release: Option<Release>)
      requires Valid()
      modifies p, this`tmp, this`fd, this`committed, this`aborted, this`id, this`o, this`versions, this`damaged
      ensures Valid() && call.Commit? && WC.Can(old(o), call) && o == WC.Step(old(o), call)
      ensures raised <==> old(committed) || old(fd).None? || !call.fate.Finished?
      ensures Replacements(p.mine) == old(Replacements(p.mine)) + |o.placed| - |old(o).placed|
      ensures p.Kept({id}, {}) && id == old(id)
      ensures raised || (CommitReturned() && old(S.Latest(p.c.s.d, target)) < versions[|versions| - 1])
      ensures p.open == old(p.open) - if old(fd).Some? && !old(committed) then {old(fd).value} else {}
      ensures if old(fd).Some? && !old(committed) then
          && CommitFailures(old(p.failures), p.failures, safety, call.fate, release)
          && CommitRelease(p.me.a, old(p.mine), p.mine, locking, HeldEpoch(p.me, old(p.c)), call.fate, release,
                           old(damaged), damaged)
          && (TmpUnlink !in NewFailures(old(p.failures), p.failures) ==>
                old(tmp).Some? && old(tmp).value !in p.c.s.d.dir)
        else p.failures == old(p.failures) && p.mine == old(p.mine) && damaged == old(damaged)
    {
      hide Inv, Keeps, Adds, OwnOf, Reaches, Replacements, Gone, Shows, BeforeReplace, AllShow, Turn, FileOk, LockOk,
          PlacedOk;
      hide JustPlaced, CommitReturned, S.Latest, Process.Valid, NewFailures, GivenBack, LateFate, LockPc, ReleaseShows;
      hide CommitFailures, CommitRelease, L.Alive, SI.Grows, CameAfter;
      FileMeans();
      CoreSteps();
      Nothing(id);
      release := None;
      if committed || fd.None? {
        return WC.Commit(WC.Finished(true)), true, None;
      }
      var ok := TryCommit();
      label tried:
      MineGrows(p, old(p.run), old(p.mine), {id}, {});
      var fate;
      fate, release := EndCommit(ok);
      KeepsTwice(p.me, old(p.c), old(p.run), old@tried(p.c), old@tried(p.run), p.c, p.run, {id}, {}, {id}, {}, {id},
          {});
      WriteCore.StillAway(p.me, old@tried(p.c), p.c, {id}, old(tmp).value);
      ReleasedSince(p.me.a, old(p.mine), old@tried(p.mine), p.mine, locking, HeldEpoch(p.me, old(p.c)), fate, release,
          old(damaged), damaged);
      FailuresAdd(old(p.failures), old@tried(p.failures), p.failures);
      CollectFailures(old(p.failures), old@tried(p.failures), p.failures, safety, ok, fate, release);
      call, raised := WC.Commit(fate), !fate.Finished?;
    }

    /** After the try statement: its handler's release, or lines 1110-1123. */
    method EndCommit(ok: bool) returns (fate: WC.CommitFate, release: Option<Release>)
      requires fd.None? && if ok then Core() && JustPlaced() && !committed else Valid()
      modifies p, this`committed, this`o, this`damaged
      ensures Valid() && (ok <==> !fate.FailedBeforeReplace?) && (fate.Finished? ==> CommitReturned())
      ensures p.Kept({id}, {}) && p.open == old(p.open) && Replacements(p.mine) == old(Replacements(p.mine))
      ensures o == old(o).(committed := if ok then true else old(o).committed,
        lock := if fate.SyncDirRaised? then old(o).lock else WC.Release(old(o).lock, fate.released))
      ensures FailedOnly(old(p.failures), p.failures, {DirFsync} + REWRITING + {LockRead, LockUnlink})
      ensures ok ==> LateFate(safety, NewFailures(old(p.failures), p.failures), fate)
      ensures ReleaseShows(NewFailures(old(p.failures), p.failures), release)
      ensures CommitRelease(p.me.a, old(p.mine), p.mine, locking, HeldEpoch(p.me, old(p.c)), fate, release,
                            old(damaged), damaged)
    {
      hide Inv, Keeps, Adds, OwnOf, Reaches, Replacements, Gone, Shows, BeforeReplace, AllShow, Turn, FileOk, LockOk,
          PlacedOk;
      hide JustPlaced, CommitReturned, S.Latest, Process.Valid, NewFailures, GivenBack, LateFate, LockPc, ReleaseShows;
      if ok {
        fate, release := FinishCommit();
      } else {
        var gone;
        gone, release := ReleaseQuietly();
        WriteCore.AddsMore(p.me, old(p.run), p.run, {}, {}, {id}, {});
        KeepsMore(p.me, old(p.c), p.c, id);
        fate := WC.FailedBeforeReplace(gone);
      }
    }

    method Commit() returns (call: WC.Call, raised: bool, release: Option<Release>)
      requires Valid() && Told()
      modifies p, this`tmp, this`fd, this`committed, this`aborted, this`id, this`o, this`versions, this`damaged,
        this`calls
      ensures Told() && calls == old(calls) + [call]
      ensures Valid() && call.Commit? && o == WC.Step(old(o), call)
      ensures raised <==> old(committed) || old(fd).None? || !call.fate.Finished?
      ensures Replacements(p.mine) == old(Replacements(p.mine)) + |o.placed| - |old(o).placed|
      ensures p.Kept({id}, {}) && id == old(id)
      ensures raised || (CommitReturned() && old(S.Latest(p.c.s.d, target)) < versions[|versions| - 1])
      ensures p.open == old(p.open) - if old(fd).Some? && !old(committed) then {old(fd).value} else {}
      ensures if old(fd).Some? && !old(committed) then
          && CommitFailures(old(p.failures), p.failures, safety, call.fate, release)
          && CommitRelease(p.me.a, old(p.mine), p.mine, locking, HeldEpoch(p.me, old(p.c)), call.fate, release,
                           old(damaged), damaged)
          && (TmpUnlink !in NewFailures(old(p.failures), p.failures) ==>
                old(tmp).Some? && old(tmp).value !in p.c.s.d.dir)
        else p.failures == old(p.failures) && p.mine == old(p.mine) && damaged == old(damaged)
    {
      hide Inv, Keeps, Adds, OwnOf, Reaches, Replacements, Gone, Shows, BeforeReplace, AllShow, Turn, FileOk, LockOk,
          PlacedOk;
      hide CameAfter, S.Latest, Process.Valid, NewFailures, GivenBack, CommitFailures, CommitRelease, ReleaseShows;
      hide CommitReturned, LockPc;
      FileMeans();
      HeldMeans();
      call, raised, release := RunCommit();
      FileMeans();
      if old(fd).Some? && !old(committed) {
        CommitHasReason(p.me.a, began, old(p.failures), p.failures, old(p.mine), p.mine, locking, safety, old(o).lock,
            o.lock, HeldEpoch(p.me, old(p.c)), call.fate, release, old(damaged), damaged);
      }
      Record(call);
    }

    lemma HeldMeans()
      requires Valid()
      ensures locking && o.lock == WC.Held ==> HeldEpoch(p.me, p.c).Some?
      ensures !locking ==> o.lock == WC.Free
    {
      hide Inv, Turn, Gone, AllShow, FileOk, Process.Valid;
    }

    lemma FileMeans()
      requires Valid()
      ensures fd.Some? <==> o.inside.Some?
      ensures fd.Some? <==> tmp.Some?
      ensures fd.Some? ==> tmp.value in p.me.names
    {
    }

    // ----- enter ----------------------------------------------------------------------------------------------

    /** Acquiring leaves the object as it was, unless it succeeds. */
    method AcquireForEntry() returns (attempt: Attempt, creates: nat, sleeps: nat)
      requires Valid() && locking
      modifies p
      ensures p.Kept({}, {}) && SI.Grows(old(p.c.s.d), p.c.s.d)
      ensures Replacements(p.mine) == old(Replacements(p.mine)) && p.open == old(p.open)
      ensures (forall w | w in p.me.ids && w !in old(p.c.s.writers) && w !in old(p.c.blocks) ::
                 w !in p.c.s.writers && w !in p.c.blocks)
      ensures forall n | n in p.me.names && n !in old(p.c.s.d.dir) :: n !in p.c.s.d.dir
      ensures !attempt.Acquired? ==> Valid()
      ensures attempt.LockError? && attempt.created.Some? ==> o.lock != WC.Held && attempt.created.value < p.c.l.next
      ensures attempt.Acquired? ==>
        && o.lock != WC.Held && fd.None? && EntryOk()
        && LockPc(p.me, p.c) == L.Holding(attempt.epoch) && attempt.epoch < p.c.l.next && LF.NoBlockHolds(p.me, p.c)
      ensures LF.Attempted(p.me.a, old(p.mine), p.mine, retries, creates, attempt)
      ensures 1 <= creates && sleeps == if delay then creates - 1 else 0
      ensures p.failures == old(p.failures) + LF.AttemptFailures(attempt)
    {
      hide Inv, Keeps, Adds, OwnOf, Reaches, Replacements, Gone, Shows, BeforeReplace, AllShow, Turn, Process.Valid;
      if fd.Some? { HoldsWhileOpen(); }
      attempt, creates, sleeps := LF.TryAcquireLock(p, retries, delay);
      Coast(p.me, old(p.c), p.c, id, {}, {}, target, versions, o.placed, acquired);
      WriteCore.Grown(p.me, old(p.c), p.c, {}, {});
      StaysAway(p.me, old(p.c), p.c);
      if fd.Some? && !attempt.Acquired? {
        IsAlive(p);
        TurnStays(p.me, old(p.c), p.c, id);
      }
    }

    /** What is left of the object's state when the lock changes hands. */
    ghost predicate EntryOk()
      reads this`tmp, this`fd, this`committed, this`aborted, this`id, this`o, this`versions, this`acquired, p
    {
      && p.Valid() && target in p.c.s.d.targets && (locking <==> target == p.c.t)
      && o.locking == locking && o.committed == committed && o.aborted == aborted
      && FileOk() && PlacedOk()
      && (forall e | e in acquired :: e < p.c.l.next)
    }

    lemma HoldsWhileOpen()
      requires Valid() && locking && fd.Some?
      ensures o.lock == WC.Held && LockPc(p.me, p.c).Holding?
    {
      OpenIsBefore(p.Pc(id));
      hide BeforeReplace, Inv;
    }

    /** The lock first, then a new temporary file; without the file the lock is given back. */
    method Enter(newId: S.Id, newTmp: S.Name)
      returns (call: WC.Call, raised: bool, attempt: Option<Attempt>, creates: nat,
               sleeps: nat, release: Option<Release>)
      requires Told()
      requires Valid() && newId in p.me.ids && newId !in p.c.s.writers && newId !in p.c.blocks
      requires newTmp in p.me.names && newTmp !in p.c.s.d.dir
      modifies this, p
      ensures Told() && calls == old(calls) + [call]
      ensures Valid() && call.Enter? && WC.Can(old(o), call) && o == WC.Step(old(o), call)
      ensures raised <==> !call.entry.Entered?
      ensures Adds(p.me, old(p.run), p.run, {newId}, {newTmp}) && old(p.run) <= p.run
      ensures Replacements(p.mine) == old(Replacements(p.mine)) && SI.Grows(old(p.c.s.d), p.c.s.d)
      ensures raised ==> p.open == old(p.open) && newTmp !in p.c.s.d.dir
      ensures !raised ==>
        && id == newId && fd.Some? && tmp == Some(newTmp)
        && p.open == old(p.open) + {fd.value} && fd.value !in old(p.open)
      ensures attempt.Some? <==> locking
      ensures locking ==> (call.entry.Refused? <==> !attempt.value.Acquired?)
      ensures locking ==> 1 <= creates && sleeps == if delay then creates - 1 else 0
      ensures locking && call.entry.Refused? ==>
        && LF.Attempted(p.me.a, old(p.mine), p.mine, retries, creates, attempt.value)
        && p.failures == old(p.failures) + LF.AttemptFailures(attempt.value)
      ensures locking && !call.entry.Refused? ==>
        WriteCore.AttemptedFirst(p.me.a, old(p.mine), p.mine, retries, creates, attempt.value)
      ensures acquired == old(acquired) + Taken(attempt) && versions == old(versions)
      ensures call.entry.Refused? || call.entry.Entered? ==> release.None? && damaged == old(damaged)
      ensures call.entry.Entered? ==> p.failures == old(p.failures)
      ensures call.entry.OpenFailed? ==>
        && OpenFailed(old(p.failures), p.failures, release)
        && GivenBack(p.me.a, old(p.mine), p.mine, locking, EpochOf(attempt), release, call.entry.released,
                     old(damaged), damaged)
    {
      hide Inv, Keeps, Adds, OwnOf, Reaches, Replacements, Gone, Shows, BeforeReplace, AllShow, Turn, SI.Grows,
          Bystanders, Process.Valid;
      hide NewFailures, OpenFailed, LF.Attempted, WriteCore.AttemptedFirst, GivenBack, LockPc;
      hide FileOk, LockOk, PlacedOk;
      attempt, creates, sleeps, release := None, 0, 0, None;
      if locking {
        var result;
        call, raised, result, creates, sleeps, release := EnterLocked(newId, newTmp);
        attempt := Some(result);
      } else {
        call, raised := OpenWithoutLock(newId, newTmp);
        EnteredUnlocked(old(p.failures), old(p.mine), old(o), raised);
      }
      WriteCore.AddsMore(p.me, old(p.run), p.run, {newId}, {newTmp}, {newId}, {newTmp});
      Record(call);
    }

    lemma EnteredUnlocked(failures: seq<Failure>, mine: seq<Step>, before: WC.Obj, raised: bool)
      requires Valid() && !locking && began <= failures
      requires p.failures == failures + if raised then [TmpOpen] else []
      ensures Reasons()
      ensures raised ==> OpenFailed(failures, p.failures, None)
      ensures GivenBack(p.me.a, mine, p.mine, locking, None, None, true, damaged, damaged)
    {
      hide Inv, Turn, Gone, AllShow, FileOk, Process.Valid, NewFailures, OpenFailed;
      FailuresGrow(began, failures, p.failures);
      if raised { OpenedNothing(p.me.a, failures, p.failures, mine, p.mine, damaged); }
    }

    /** `__enter__` with a lock. */
    method EnterLocked(newId: S.Id, newTmp: S.Name)
      returns (call: WC.Call, raised: bool, attempt: Attempt, creates: nat,
               sleeps: nat, release: Option<Release>)
      requires Valid() && Reasons() && locking && newId in p.me.ids && newId !in p.c.s.writers && newId !in p.c.blocks
      requires newTmp in p.me.names && newTmp !in p.c.s.d.dir
      modifies p, this`tmp, this`fd, this`committed, this`aborted, this`id, this`o, this`acquired, this`damaged
      ensures Valid() && Reasons() && call.Enter? && WC.Can(old(o), call) && o == WC.Step(old(o), call)
      ensures raised <==> !call.entry.Entered?
      ensures Adds(p.me, old(p.run), p.run, {newId}, {newTmp})
      ensures Replacements(p.mine) == old(Replacements(p.mine)) && SI.Grows(old(p.c.s.d), p.c.s.d)
      ensures raised ==> p.open == old(p.open) && newTmp !in p.c.s.d.dir
      ensures !raised ==>
        && id == newId && fd.Some? && tmp == Some(newTmp)
        && p.open == old(p.open) + {fd.value} && fd.value !in old(p.open)
      ensures 1 <= creates && sleeps == if delay then creates - 1 else 0
      ensures call.entry.Refused? <==> !attempt.Acquired?
      ensures call.entry.Refused? ==>
        && LF.Attempted(p.me.a, old(p.mine), p.mine, retries, creates, attempt)
        && p.failures == old(p.failures) + LF.AttemptFailures(attempt)
      ensures !call.entry.Refused? ==>
        WriteCore.AttemptedFirst(p.me.a, old(p.mine), p.mine, retries, creates, attempt)
      ensures acquired == old(acquired) + Taken(Some(attempt)) && versions == old(versions)
      ensures call.entry.Refused? || call.entry.Entered? ==> release.None? && damaged == old(damaged)
      ensures call.entry.Entered? ==> p.failures == old(p.failures)
      ensures call.entry.OpenFailed? ==>
        && OpenFailed(old(p.failures), p.failures, release)
        && GivenBack(p.me.a, old(p.mine), p.mine, locking, EpochOf(Some(attempt)), release, call.entry.released,
                     old(damaged), damaged)
    {
      hide Inv, Keeps, Adds, OwnOf, Reaches, Replacements, Gone, Shows, BeforeReplace, AllShow, Turn, SI.Grows,
          Bystanders, Process.Valid;
      hide NewFailures, LF.Attempted, WriteCore.AttemptedFirst, GivenBack, LF.AttemptFailures;
      hide FileOk, LockOk, PlacedOk;
      release := None;
      attempt, creates, sleeps := AcquireForEntry();
      label attempted:
      RefusedReason(began, old(p.failures), p.failures, attempt);
      if !attempt.Acquired? {
        FileMeans();
        call := Refuse(attempt);
        raised := true;
        WriteCore.AddsMore(p.me, old(p.run), p.run, {}, {}, {newId}, {newTmp});
        FileMeans();
        return;
      }
      OwnSteps(p);
      WriteCore.NoFailure(old(p.failures), p.failures, attempt);
      acquired := acquired + {attempt.epoch};
      call, raised, release := OpenWithLock(newId, newTmp);
      AddsTwice(p.me, old(p.run), old@attempted(p.run), p.run, {newId}, {newTmp}, {}, {}, {newId}, {newTmp});
      WriteCore.AddsMore(p.me, old@attempted(p.run), p.run, {newId}, {newTmp}, {newId}, {newTmp});
      WriteCore.AttemptsLast(p, old(p.mine), old@attempted(p.run), old@attempted(p.mine), retries, creates,
          attempt.epoch);
      ST.GrowsTwice(old(p.c.s.d), old@attempted(p.c.s.d), p.c.s.d);
      if raised {
        AttemptedGrows(p.me.a, old(p.mine), old@attempted(p.mine), retries, creates, attempt);
        GivenBackSince(p.me.a, old(p.mine), old@attempted(p.mine), p.mine, locking, Some(attempt.epoch), release,
            call.entry.released, old(damaged), damaged);
        StuckHasReason(p.me.a, began, old(p.failures), p.failures, old(p.mine), p.mine, locking, WC.Held, o.lock,
            Some(attempt.epoch), release, call.entry.released, old(damaged), damaged);
      }
    }

    method OpenWithLock(newId: S.Id, newTmp: S.Name) returns (call: WC.Call, raised: bool, release: Option<Release>)
      requires newId in p.me.ids && newId !in p.c.s.writers && newId !in p.c.blocks
      requires newTmp in p.me.names && newTmp !in p.c.s.d.dir
      requires EntryOk() && locking && o.lock != WC.Held && fd.None? && LF.NoBlockHolds(p.me, p.c)
      requires LockPc(p.me, p.c).Holding? && LockPc(p.me, p.c).epoch in acquired
      modifies p, this`tmp, this`fd, this`committed, this`aborted, this`id, this`o, this`damaged
      ensures Valid() && call.Enter? && WC.Can(old(o), call) && o == WC.Step(old(o), call)
      ensures (call.entry.Entered? <==> !raised) && !call.entry.Refused?
      ensures Adds(p.me, old(p.run), p.run, {newId}, {newTmp})
      ensures Replacements(p.mine) == old(Replacements(p.mine)) && SI.Grows(old(p.c.s.d), p.c.s.d)
      ensures raised ==> p.open == old(p.open) && newTmp !in p.c.s.d.dir
      ensures !raised ==>
        && id == newId && fd.Some? && tmp == Some(newTmp)
        && p.open == old(p.open) + {fd.value} && fd.value !in old(p.open)
      ensures if raised then
          && OpenFailed(old(p.failures), p.failures, release)
          && GivenBack(p.me.a, old(p.mine), p.mine, locking, HeldEpoch(p.me, old(p.c)), release, call.entry.released,
                       old(damaged), damaged)
        else p.failures == old(p.failures) && release.None? && damaged == old(damaged)
    {
      hide Inv, Keeps, Adds, OwnOf, Reaches, Replacements, Gone, Shows, BeforeReplace, AllShow, Turn, SI.Grows,
          Bystanders, Process.Valid;
      hide CameAfter, L.Alive, LF.NoBlockHolds, NewFailures, GivenBack;
      OwnSteps(p);
      release := None;
      var f := StartWriter(p, newId, newTmp, Fresh(), locking);
      SameTargets(old(p.c.s.d), p.c.s.d);
      StillShown(old(p.c.s.d), p.c.s.d, target, versions, o.placed);
      raised := f.None?;
      if f.Some? {
        call := TakeEntry(newId, newTmp, f.value);
      } else {
        label backing:
        ghost var failedOpen := p.failures;
        MineGrows(p, old(p.run), old(p.mine), {newId}, {newTmp});
        call, release := BackOut(newId);
        WriteCore.Grown(p.me, old@backing(p.c), p.c, {}, {});
        ST.GrowsTwice(old(p.c.s.d), old@backing(p.c.s.d), p.c.s.d);
        WriteCore.StillAway(p.me, old@backing(p.c), p.c, {}, newTmp);
        GivenBackSince(p.me.a, old(p.mine), old@backing(p.mine), p.mine, locking, HeldEpoch(p.me, old(p.c)), release,
            call.entry.released, old(damaged), damaged);
        FailedToOpen(old(p.failures), failedOpen, p.failures, release);
        AddsTwice(p.me, old(p.run), old@backing(p.run), p.run, {newId}, {newTmp}, {newId}, {newTmp}, {}, {});
      }
    }

    /** The fields after a successful entry. */
    method TakeEntry(newId: S.Id, newTmp: S.Name, f: S.Ino) returns (call: WC.Call)
      requires p.Valid() && target in p.c.s.d.targets && (locking <==> target == p.c.t) && PlacedOk()
      requires o.locking == locking && o.committed == committed && o.aborted == aborted && o.lock != WC.Held
      requires newTmp in p.me.names && f in p.open && Turn(p.me, p.c, newId) && newId in p.c.s.writers
      requires newId in p.c.blocks <==> locking
      requires p.c.s.writers[newId] == Fresh().(pc := S.Open(newTmp, f, []))
      requires locking ==>
        && p.c.blocks[newId].actor == p.me.a && p.c.blocks[newId].view.None?
        && LockPc(p.me, p.c) == L.Holding(p.c.blocks[newId].epoch) && p.c.blocks[newId].epoch in acquired
      requires !locking ==> forall e | e in acquired :: Gone(p.c.l, e)
      requires forall e | e in acquired :: e < p.c.l.next
      modifies this`tmp, this`fd, this`id, this`o
      ensures Valid() && call == WC.Enter(WC.Entered) && WC.Can(old(o), call) && o == WC.Step(old(o), call)
      ensures id == newId && tmp == Some(newTmp) && fd == Some(f)
    {
      hide Inv, OwnOf, Reaches, Gone, Shows, BeforeReplace, AllShow, Process.Valid;
      OwnTurn(p.me, p.c, newId);
      hide Turn;
      id, tmp, fd := newId, Some(newTmp), Some(f);
      call := WC.Enter(WC.Entered);
      o := WC.Step(o, call);
    }

    /** Without a lock an object that is entered while it is open loses track of its earlier file. */
    method OpenWithoutLock(newId: S.Id, newTmp: S.Name) returns (call: WC.Call, raised: bool)
      requires newId in p.me.ids && newId !in p.c.s.writers && newId !in p.c.blocks
      requires newTmp in p.me.names && newTmp !in p.c.s.d.dir
      requires Valid() && !locking
      modifies p, this`tmp, this`fd, this`committed, this`aborted, this`id, this`o
      ensures Valid() && call.Enter? && WC.Can(old(o), call) && o == WC.Step(old(o), call)
      ensures (call.entry.Entered? <==> !raised) && !call.entry.Refused?
      ensures Adds(p.me, old(p.run), p.run, {newId}, {newTmp})
      ensures Replacements(p.mine) == old(Replacements(p.mine)) && SI.Grows(old(p.c.s.d), p.c.s.d)
      ensures raised ==> p.open == old(p.open) && newTmp !in p.c.s.d.dir
      ensures !raised ==>
        && id == newId && fd.Some? && tmp == Some(newTmp)
        && p.open == old(p.open) + {fd.value} && fd.value !in old(p.open)
      ensures p.failures == old(p.failures) + (if raised then [TmpOpen] else []) && (raised ==> call.entry.released)
      ensures old(p.mine) <= p.mine
    {
      hide Inv, Keeps, Adds, OwnOf, Reaches, Replacements, Gone, Shows, BeforeReplace, AllShow, Turn, SI.Grows,
          Bystanders, Process.Valid;
      OwnSteps(p);
      var f := StartWriter(p, newId, newTmp, Fresh(), locking);
      SameTargets(old(p.c.s.d), p.c.s.d);
      StillShown(old(p.c.s.d), p.c.s.d, target, versions, o.placed);
      raised := f.None?;
      MineGrows(p, old(p.run), old(p.mine), {newId}, {newTmp});
      if f.Some? {
        call := TakeEntry(newId, newTmp, f.value);
      } else {
        if fd.Some? {
          IsAlive(p);
          StillOpen(p.me, old(p.c), p.c, newId, id);
        }
        call := WC.Enter(WC.OpenFailed(true));
      }
    }

    /** Somebody else has the lock, or it could not be created. */
    method Refuse(attempt: Attempt) returns (call: WC.Call)
      requires Valid() && locking && !attempt.Acquired?
      requires attempt.LockError? && attempt.created.Some? ==> o.lock != WC.Held && attempt.created.value < p.c.l.next
      modifies this`o, this`acquired
      ensures Valid() && call.Enter? && call.entry.Refused? && WC.Can(old(o), call) && o == WC.Step(old(o), call)
      ensures acquired == old(acquired) + Taken(Some(attempt))
      ensures call.entry.left <==> attempt.LockError? && attempt.created.Some? && !attempt.undone
    {
      hide Inv, Keeps, Adds, OwnOf, Reaches, Gone, Shows, BeforeReplace, AllShow, Turn, Process.Valid;
      var left := attempt.LockError? && attempt.created.Some? && !attempt.undone;
      if left {
        o, acquired := o.(lock := WC.Stuck), acquired + {attempt.created.value};
      }
      call := WC.Enter(WC.Refused(left));
    }

    /** The lock is given back when the temporary file cannot be created. */
    method BackOut(newId: S.Id) returns (call: WC.Call, release: Option<Release>)
      requires EntryOk() && locking && fd.None? && o.lock != WC.Held
      requires newId in p.c.blocks && newId in p.c.s.writers && newId in p.me.ids && p.Pc(newId).Raised?
      requires p.c.blocks[newId].actor == p.me.a && p.c.blocks[newId].view.None?
      requires LockPc(p.me, p.c) == L.Holding(p.c.blocks[newId].epoch) && p.c.blocks[newId].epoch in acquired
      modifies p, this`tmp, this`fd, this`committed, this`aborted, this`id, this`o, this`damaged
      ensures Valid() && p.Kept({}, {}) && call.Enter? && call.entry.OpenFailed? && o == WC.Step(old(o), call)
      ensures Replacements(p.mine) == old(Replacements(p.mine)) && p.open == old(p.open)
      ensures FailedOnly(old(p.failures), p.failures, {LockRead, LockUnlink})
      ensures ReleaseShows(NewFailures(old(p.failures), p.failures), release)
      ensures GivenBack(p.me.a, old(p.mine), p.mine, locking, HeldEpoch(p.me, old(p.c)), release, call.entry.released,
                        old(damaged), damaged)
    {
      hide Inv, Keeps, Adds, OwnOf, Reaches, Replacements, Gone, Shows, BeforeReplace, AllShow, Turn, Process.Valid;
      hide GivenBack, NewFailures, ReleaseShows;
      id, o := newId, o.(lock := WC.Held);
      var gone;
      gone, release := ReleaseQuietly();
      call := WC.Enter(WC.OpenFailed(gone));
    }

    // ----- abort and exit ---------------------------------------------------------------------------------

    /** Close and unlink, errors suppressed. */
    method DropFile()
      requires Valid() && fd.Some?
      modifies p, this`fd, this`tmp, this`o
      ensures Valid() && fd.None? && tmp.None? && o == old(o).(inside := None)
      ensures Replacements(p.mine) == old(Replacements(p.mine)) && p.Kept({id}, {})
          && p.open == old(p.open) - {old(fd).value}
      ensures p.failures == old(p.failures) || p.failures == old(p.failures) + [TmpUnlink]
      ensures p.failures == old(p.failures) ==> old(tmp).value !in p.c.s.d.dir
      ensures LockPc(p.me, p.c) == old(LockPc(p.me, p.c))
    {
      hide Inv, Keeps, Adds, OwnOf, Reaches, Replacements, Gone, Shows, BeforeReplace, AllShow, Turn, Process.Valid;
      OwnTurn(p.me, p.c, id);
      var unlinkFailed := WriteCore.ExceptBlock(p, id, tmp.value, fd);
      Coast(p.me, old(p.c), p.c, id, {id}, {}, target, versions, o.placed, acquired);
      fd, tmp, o := None, None, o.(inside := None);
    }

    method MarkAborted()
      requires Valid()
      modifies this`aborted, this`o
      ensures Valid() && aborted && o == old(o).(aborted := true)
    {
      hide Inv, Keeps, OwnOf, Reaches, Gone, Shows, BeforeReplace, AllShow, Turn, Process.Valid;
      aborted, o := true, o.(aborted := true);
    }

    method RunAbort() returns (call: WC.Call, release: Option<Release>)
      requires Valid() && Reasons()
      modifies p, this`tmp, this`fd, this`committed, this`aborted, this`id, this`o, this`damaged
      ensures Valid() && Reasons() && call.Abort? && o == WC.Step(old(o), call) && fd.None?
      ensures Replacements(p.mine) == old(Replacements(p.mine)) && p.Kept({id}, {}) && id == old(id)
      ensures p.open == old(p.open) - if old(fd).Some? then {old(fd).value} else {}
      ensures FailedOnly(old(p.failures), p.failures, {TmpUnlink, LockRead, LockUnlink})
      ensures ReleaseShows(NewFailures(old(p.failures), p.failures), release)
      ensures GivenBack(p.me.a, old(p.mine), p.mine, locking, HeldEpoch(p.me, old(p.c)), release, call.gone,
                        old(damaged), damaged)
      ensures TmpUnlink !in NewFailures(old(p.failures), p.failures) && old(tmp).Some? ==>
        old(tmp).value !in p.c.s.d.dir
    {
      hide Inv, Keeps, Adds, OwnOf, Reaches, Replacements, Gone, Shows, BeforeReplace, AllShow, Turn, Process.Valid;
      hide FileOk, LockOk, PlacedOk, NewFailures, GivenBack, LockPc;
      Nothing(id);
      FileMeans();
      CoreSteps();
      HeldMeans();
      OneNewFailure(p.failures, TmpUnlink);
      if fd.Some? {
        DropFile();
      }
      label cleaned:
      ghost var cleaned := p.failures;
      MineGrows(p, old(p.run), old(p.mine), {id}, {});
      MarkAborted();
      var gone;
      gone, release := ReleaseQuietly();
      KeepsTwice(p.me, old(p.c), old(p.run), old@cleaned(p.c), old@cleaned(p.run), p.c, p.run, {id}, {}, {id}, {},
          {}, {});
      if old(tmp).Some? { WriteCore.StillAway(p.me, old@cleaned(p.c), p.c, {}, old(tmp).value); }
      GivenBackSince(p.me.a, old(p.mine), old@cleaned(p.mine), p.mine, locking, HeldEpoch(p.me, old(p.c)), release,
          gone, old(damaged), damaged);
      FailuresAdd(old(p.failures), cleaned, p.failures);
      StuckHasReason(p.me.a, began, old(p.failures), p.failures, old(p.mine), p.mine, locking, old(o).lock, o.lock,
          HeldEpoch(p.me, old(p.c)), release, gone, old(damaged), damaged);
      call := WC.Abort(gone);
    }

    method Abort() returns (call: WC.Call, release: Option<Release>)
      requires Valid() && Told()
      modifies p, this`tmp, this`fd, this`committed, this`aborted, this`id, this`o, this`damaged,
        this`calls
      ensures Told() && calls == old(calls) + [call]
      ensures Valid() && call.Abort? && o == WC.Step(old(o), call) && fd.None?
      ensures Replacements(p.mine) == old(Replacements(p.mine)) && p.Kept({id}, {}) && id == old(id)
      ensures p.open == old(p.open) - if old(fd).Some? then {old(fd).value} else {}
      ensures FailedOnly(old(p.failures), p.failures, {TmpUnlink, LockRead, LockUnlink})
      ensures ReleaseShows(NewFailures(old(p.failures), p.failures), release)
      ensures GivenBack(p.me.a, old(p.mine), p.mine, locking, HeldEpoch(p.me, old(p.c)), release, call.gone,
                        old(damaged), damaged)
      ensures TmpUnlink !in NewFailures(old(p.failures), p.failures) && old(tmp).Some? ==>
        old(tmp).value !in p.c.s.d.dir
    {
      hide Inv, Keeps, Adds, OwnOf, Reaches, Replacements, Gone, Shows, BeforeReplace, AllShow, Turn, FileOk, LockOk,
          PlacedOk;
      hide Process.Valid, NewFailures, GivenBack;
      call, release := RunAbort();
      Record(call);
    }

    /** Commit after a clean block that did neither commit nor abort; abort after an exception. */
    method Exit(failed: bool) returns (call: WC.Call, raised: bool, release: Option<Release>)
      requires Valid() && Told()
      modifies p, this`tmp, this`fd, this`committed, this`aborted, this`id, this`o, this`versions, this`damaged,
        this`calls
      ensures Told() && calls == old(calls) + [call]
      ensures Valid() && call.Exit? && call.failed == failed && o == WC.Step(old(o), call)
      ensures Replacements(p.mine) == old(Replacements(p.mine)) + |o.placed| - |old(o).placed|
      ensures p.Kept({id}, {}) && id == old(id)
      ensures var commits := !failed && !old(committed) && !old(aborted);
        && (raised <==> commits && (old(fd).None? || !call.fate.Finished?))
        && (commits && !raised ==> CommitReturned() && old(S.Latest(p.c.s.d, target)) < versions[|versions| - 1])
        && p.open == old(p.open) - if old(fd).Some? && (failed || commits) then {old(fd).value} else {}
      ensures if failed then
          && FailedOnly(old(p.failures), p.failures, {TmpUnlink, LockRead, LockUnlink})
          && ReleaseShows(NewFailures(old(p.failures), p.failures), release)
          && GivenBack(p.me.a, old(p.mine), p.mine, locking, HeldEpoch(p.me, old(p.c)), release, call.gone,
                       old(damaged), damaged)
        else if !old(committed) && !old(aborted) && old(fd).Some? then
          && CommitFailures(old(p.failures), p.failures, safety, call.fate, release)
          && CommitRelease(p.me.a, old(p.mine), p.mine, locking, HeldEpoch(p.me, old(p.c)), call.fate, release,
                           old(damaged), damaged)
        else p.failures == old(p.failures) && p.mine == old(p.mine) && damaged == old(damaged)
      ensures failed || (!old(committed) && !old(aborted)) ==>
        old(tmp).Some? && TmpUnlink !in NewFailures(old(p.failures), p.failures) ==> old(tmp).value !in p.c.s.d.dir
    {
      hide Inv, Keeps, Adds, OwnOf, Reaches, Replacements, Gone, Shows, BeforeReplace, AllShow, Turn, FileOk, LockOk,
          PlacedOk;
      hide CameAfter, S.Latest, Process.Valid, NewFailures, GivenBack, CommitFailures, CommitRelease, ReleaseShows;
      hide CommitReturned, LockPc, HeldEpoch, L.Alive, SI.Grows;
      Nothing(id);
      FileMeans();
      HeldMeans();
      raised, release := false, None;
      var inner: WC.Call;
      if failed {
        inner, release := RunAbort();
        call := WC.Exit(true, WC.SyncDirRaised, inner.gone);
      } else if !committed && !aborted {
        inner, raised, release := RunCommit();
        FileMeans();
        call := WC.Exit(false, inner.fate, true);
        if old(fd).Some? {
          CommitHasReason(p.me.a, began, old(p.failures), p.failures, old(p.mine), p.mine, locking, safety,
              old(o).lock, o.lock, HeldEpoch(p.me, old(p.c)), inner.fate, release, old(damaged), damaged);
        }
      } else {
        call := WC.Exit(false, WC.SyncDirRaised, true);
      }
      Record(call);
    }
  }

  // ----- what became of the lock -----------------------------------------------------------------------------

  /** The acquisition this process is in, if any. */
  function HeldEpoch(me: Self, c: State): Option<nat>
  {
    if LockPc(me, c).Holding? then Some(LockPc(me, c).epoch) else None
  }

  function EpochOf(attempt: Option<Attempt>): Option<nat>
  {
    if attempt.Some? && attempt.value.Acquired? then Some(attempt.value.epoch) else None
  }

  /** The acquisitions of an attempt that may have left a lock file. */
  function Taken(attempt: Option<Attempt>): set<nat>
  {
    if attempt.None? then {} else
    match attempt.value
    case Acquired(epoch) => {epoch}
    case LockError(Some(epoch), undone) => if undone then {} else {epoch}
    case _ => {}
  }

  /** A holder that does not recognise its own lock file has found it damaged. */
  function FoundDamaged(held: Option<nat>, release: Option<Release>): set<nat>
  {
    if held.Some? && release.Some? && release.value.NotOurs? then {held.value} else {}
  }

  ghost predicate LastSteps(before: seq<Step>, after: seq<Step>, steps: seq<Step>)
  {
    exists mid :: before <= mid && after == mid + steps
  }

  /**
    A locking object's call has ended with a release, step by step as
    reported: it worked, or its failed call is on record, or the lock file of
    acquisition `held` was there and did not parse.
   */
  ghost predicate GivenBack(a: L.Actor, before: seq<Step>, after: seq<Step>, locking: bool, held: Option<nat>,
                            release: Option<Release>, gone: bool, damaged: set<nat>, damaged': set<nat>)
  {
    && (release.Some? <==> locking) && (gone <==> release.None? || release.value.Removed?)
    && damaged' == damaged + FoundDamaged(held, release)
    && (release.Some? ==> LastSteps(before, after, LF.ReleaseSteps(a, release.value)))
    && (held.Some? && release.Some? && release.value.NotOurs? ==>
          var found := release.value.found;
          found.Some? && found.value.epoch == held.value && !found.value.payload.Doc?)
  }

  lemma GivenBackSince(a: L.Actor, before: seq<Step>, mid: seq<Step>, after: seq<Step>, locking: bool,
                       held: Option<nat>,
                       release: Option<Release>, gone: bool, damaged: set<nat>, damaged': set<nat>)
    requires before <= mid && GivenBack(a, mid, after, locking, held, release, gone, damaged, damaged')
    ensures GivenBack(a, before, after, locking, held, release, gone, damaged, damaged')
  {
    hide LF.ReleaseSteps, FoundDamaged;
    if release.Some? {
      var steps := LF.ReleaseSteps(a, release.value);
      var middle :| mid <= middle && after == middle + steps;
      assert before <= middle;
    }
  }

  lemma ReleasedSince(a: L.Actor, before: seq<Step>, mid: seq<Step>, after: seq<Step>, locking: bool, held: Option<nat>,
                      fate: WC.CommitFate, release: Option<Release>, damaged: set<nat>, damaged': set<nat>)
    requires before <= mid && CommitRelease(a, mid, after, locking, held, fate, release, damaged, damaged')
    ensures CommitRelease(a, before, after, locking, held, fate, release, damaged, damaged')
  {
    hide GivenBack;
    if !fate.SyncDirRaised? {
      GivenBackSince(a, before, mid, after, locking, held, release, fate.released, damaged, damaged');
    }
  }

  lemma KeepsMore(me: Self, c: State, c': State, w: S.Id)
    requires Keeps(me, c, c', {}, {})
    ensures Keeps(me, c, c', {w}, {})
  {
    hide Gone, SI.Grows;
  }

  /** The failures of a release are those of its result. */
  predicate ReleaseShows(failed: set<Failure>, release: Option<Release>)
  {
    && (release == Some(UnlinkFailed) <==> LockUnlink in failed)
    && (release == Some(Unreadable) <==> LockRead in failed)
  }

  /** After a release a lock that stays behind has its reason. */
  lemma StuckHasReason(a: L.Actor, began: seq<Failure>, before: seq<Failure>, after: seq<Failure>, mine: seq<Step>,
                       mine': seq<Step>, locking: bool, lock: WC.Lock, lock': WC.Lock, held: Option<nat>,
                       release: Option<Release>, gone: bool, damaged: set<nat>, damaged': set<nat>)
    requires began <= before <= after && (lock == WC.Held ==> held.Some?) && lock' == WC.Release(lock, gone)
    requires lock == WC.Stuck ==> NewFailures(began, before) * {LockRead, LockUnlink} != {} || damaged != {}
    requires GivenBack(a, mine, mine', locking, held, release, gone, damaged, damaged')
    requires ReleaseShows(NewFailures(before, after), release)
    ensures lock' != WC.Held && began <= after
    ensures lock' == WC.Stuck ==> NewFailures(began, after) * {LockRead, LockUnlink} != {} || damaged' != {}
  {
    FailuresGrow(began, before, after);
    hide NewFailures, LastSteps, LF.ReleaseSteps;
    if lock == WC.Held && !gone {
      match release.value {
        case NotOurs(_) => assert held.value in damaged';
        case Unreadable => assert LockRead in NewFailures(began, after) * {LockRead, LockUnlink};
        case UnlinkFailed => assert LockUnlink in NewFailures(began, after) * {LockRead, LockUnlink};
      }
    } else if lock == WC.Stuck && damaged == {} {
      var f :| f in NewFailures(began, before) * {LockRead, LockUnlink};
      assert f in NewFailures(began, after) * {LockRead, LockUnlink};
    }
  }

  /** After a commit a lock that stays, held or behind, has its reason. */
  lemma CommitHasReason(a: L.Actor, began: seq<Failure>, before: seq<Failure>, after: seq<Failure>, mine: seq<Step>,
                        mine': seq<Step>, locking: bool, safety: S.Safety, lock: WC.Lock, lock': WC.Lock,
                        held: Option<nat>, fate: WC.CommitFate, release: Option<Release>, damaged: set<nat>,
                        damaged': set<nat>)
    requires began <= before && (lock == WC.Held ==> held.Some?)
    requires lock == WC.Stuck ==> NewFailures(began, before) * {LockRead, LockUnlink} != {} || damaged != {}
    requires lock' == if fate.SyncDirRaised? then lock else WC.Release(lock, fate.released)
    requires CommitFailures(before, after, safety, fate, release)
    requires CommitRelease(a, mine, mine', locking, held, fate, release, damaged, damaged')
    ensures began <= after
    ensures lock' == WC.Stuck ==> NewFailures(began, after) * {LockRead, LockUnlink} != {} || damaged' != {}
    ensures lock' == WC.Held ==> safety == S.Strict && DirFsync in NewFailures(began, after)
  {
    hide NewFailures, GivenBack;
    FailuresGrow(began, before, after);
    if fate.SyncDirRaised? {
      if f :| f in NewFailures(began, before) * {LockRead, LockUnlink} {
        assert f in NewFailures(began, after) * {LockRead, LockUnlink};
      }
    } else {
      StuckHasReason(a, began, before, after, mine, mine', locking, lock, lock', held, release, fate.released, damaged,
          damaged');
    }
  }

  /** A refused entry leaves a lock file behind only if its unlink failed. */
  lemma RefusedReason(began: seq<Failure>, before: seq<Failure>, after: seq<Failure>, attempt: Attempt)
    requires began <= before && after == before + LF.AttemptFailures(attempt)
    ensures began <= after && NewFailures(began, before) <= NewFailures(began, after)
    ensures attempt.LockError? && attempt.created.Some? && !attempt.undone ==>
      NewFailures(began, after) * {LockRead, LockUnlink} != {}
    ensures NewFailures(began, before) * {LockRead, LockUnlink} != {} ==>
      NewFailures(began, after) * {LockRead, LockUnlink} != {}
  {
    FailuresGrow(began, before, after);
    if attempt.LockError? && attempt.created.Some? && !attempt.undone {
      assert after[|before|..] == [LockWrite, LockUnlink];
      assert LockUnlink in after[|before|..];
      assert LockUnlink in NewFailures(began, after) * {LockRead, LockUnlink};
    }
    hide NewFailures;
    if f :| f in NewFailures(began, before) * {LockRead, LockUnlink} {
      assert f in NewFailures(began, after) * {LockRead, LockUnlink};
    }
  }

  lemma AttemptedGrows(a: L.Actor, before: seq<Step>, after: seq<Step>, retries: nat, creates: nat, result: Attempt)
    requires LF.Attempted(a, before, after, retries, creates, result) && result.Acquired?
    ensures before <= after
  {
  }

  lemma OpenedNothing(a: L.Actor, before: seq<Failure>, after: seq<Failure>, mine: seq<Step>, mine': seq<Step>,
                      damaged: set<nat>)
    requires after == before + [TmpOpen]
    ensures OpenFailed(before, after, None)
    ensures GivenBack(a, mine, mine', false, None, None, true, damaged, damaged)
  {
    OneNewFailure(before, TmpOpen);
  }

  lemma OwnTurn(me: Self, c: State, w: S.Id)
    requires Turn(me, c, w)
    ensures w in me.ids && w in c.s.writers
  {
  }

  lemma StillOpen(me: Self, c: State, c': State, w: S.Id, v: S.Id)
    requires Turn(me, c, v) && v != w && Bystanders(me, c, c', w) && c'.wholeOnly == c.wholeOnly
    requires L.Alive(c'.l, me.a) && LockPc(me, c') == LockPc(me, c)
    ensures Turn(me, c', v) && v in c'.s.writers && c'.s.writers[v] == c.s.writers[v]
        && (v in c'.blocks <==> v in c.blocks)
  {
    TurnOfBystander(me, c, c', w, v);
  }

  lemma StillShown(d: S.Disk, d': S.Disk, target: S.Name, versions: seq<nat>, placed: seq<Bytes>)
    requires AllShow(d, target, versions, placed) && SI.Grows(d, d')
    ensures AllShow(d', target, versions, placed)
  {
    hide Shows, SI.Grows;
    forall i | 0 <= i < |versions| ensures Shows(d', target, versions[i], placed[i]) {
      ShowsStays(d, d', target, versions[i], placed[i]);
    }
  }

  lemma OpenIsBefore(pc: S.WriterPc)
    ensures pc.Open? ==> BeforeReplace(pc)
  {
  }

  lemma StaysAway(me: Self, c: State, c': State)
    requires Keeps(me, c, c', {}, {})
    ensures forall w | w in me.ids && w !in c.s.writers && w !in c.blocks :: w !in c'.s.writers && w !in c'.blocks
    ensures forall n | n in me.names && n !in c.s.d.dir :: n !in c'.s.d.dir
  {
    hide Gone, SI.Grows;
  }

  /** The other records of this process are as they were. */
  ghost predicate Bystanders(me: Self, c: State, c': State, w: S.Id)
  {
    forall v | v in me.ids && v != w ::
      && (v in c'.s.writers <==> v in c.s.writers) && (v in c.s.writers ==> c'.s.writers[v] == c.s.writers[v])
      && (v in c'.blocks <==> v in c.blocks) && (v in c.blocks ==> c'.blocks[v] == c.blocks[v])
  }

  lemma KeptBystanders(me: Self, c0: State, c: State, c': State, w: S.Id, made: set<S.Name>)
    requires Bystanders(me, c0, c, w) && Keeps(me, c, c', {w}, made)
    ensures Bystanders(me, c0, c', w)
  {
    hide Gone, SI.Grows;
  }

  lemma TurnOfBystander(me: Self, c: State, c': State, w: S.Id, v: S.Id)
    requires Turn(me, c, v) && v != w && Bystanders(me, c, c', w) && c'.wholeOnly == c.wholeOnly
    requires L.Alive(c'.l, me.a) && LockPc(me, c') == LockPc(me, c)
    ensures Turn(me, c', v)
  {
    hide BeforeReplace;
  }

  /** The writer record and its temporary file; without a file the record is done for. */
  method StartWriter(p: Process, w: S.Id, tmp: S.Name, x: S.Writer, locking: bool) returns (fd: Option<S.Ino>)
    requires p.Valid() && w in p.me.ids && w !in p.c.s.writers && w !in p.c.blocks
    requires tmp in p.me.names && tmp !in p.c.s.d.dir
    requires x.pc.Begun? && x.goal.None? && x.target in p.c.s.d.targets && (locking <==> x.target == p.c.t)
    requires locking ==> LockPc(p.me, p.c).Holding? && LF.NoBlockHolds(p.me, p.c)
    modifies p
    ensures p.Valid() && LockPc(p.me, p.c) == old(LockPc(p.me, p.c)) && Bystanders(p.me, old(p.c), p.c, w)
    ensures Adds(p.me, old(p.run), p.run, {w}, {tmp})
    ensures Replacements(p.mine) == old(Replacements(p.mine))
    ensures SI.Grows(old(p.c.s.d), p.c.s.d) && p.c.t == old(p.c.t) && p.c.wholeOnly == old(p.c.wholeOnly)
    ensures old(p.c.l.next) <= p.c.l.next && forall e: nat | Gone(old(p.c.l), e) :: Gone(p.c.l, e)
    ensures w in p.c.s.writers && (w in p.c.blocks <==> locking)
    ensures locking ==> p.c.blocks[w].actor == p.me.a && p.c.blocks[w].view.None?
    ensures locking ==> LockPc(p.me, p.c) == L.Holding(p.c.blocks[w].epoch)
    ensures fd.Some? ==>
      && Turn(p.me, p.c, w) && p.open == old(p.open) + {fd.value} && fd.value !in old(p.open)
      && p.c.s.writers[w] == x.(pc := S.Open(tmp, fd.value, []))
    ensures fd.None? ==> p.open == old(p.open) && p.Pc(w) == S.Raised(false) && tmp !in p.c.s.d.dir
    ensures p.failures == old(p.failures) + if fd.Some? then [] else [TmpOpen]
  {
    hide Inv, Keeps, Adds, OwnOf, Reaches, Replacements, Gone, BeforeReplace, SI.Grows;
    assert BeforeReplace(x.pc) by { Beginning(x.pc); }
    WriteCore.Begin(p, w, x, locking);
    label began:
    BeginGrows(old(p.c.s.d), p.c.s.d);
    fd := OpenTmp(p, w, tmp);
    label tried:
    WriteCore.Grown(p.me, old@began(p.c), p.c, {w}, {tmp});
    WriteCore.KeptOpen(p.me, old@began(p.c), p.c, w, {tmp});
    KeptBystanders(p.me, old(p.c), old@began(p.c), p.c, w, {tmp});
    AddsTwice(p.me, old(p.run), old@began(p.run), p.run, {w}, {tmp}, {w}, {}, {w}, {tmp});
    if fd.None? {
      GiveUp(p, w);
      WriteCore.StillAway(p.me, old@tried(p.c), p.c, {w}, tmp);
      WriteCore.Grown(p.me, old@tried(p.c), p.c, {w}, {});
      ST.GrowsTwice(old(p.c.s.d), old@tried(p.c.s.d), p.c.s.d);
      WriteCore.KeptOpen(p.me, old@tried(p.c), p.c, w, {});
      KeptBystanders(p.me, old(p.c), old@tried(p.c), p.c, w, {});
      AddsTwice(p.me, old(p.run), old@tried(p.run), p.run, {w}, {tmp}, {w}, {tmp}, {w}, {});
    }
  }

  lemma Beginning(pc: S.WriterPc)
    requires pc.Begun?
    ensures BeforeReplace(pc)
  {
  }

  lemma BeginGrows(d: S.Disk, d': S.Disk)
    requires d' == d
    ensures SI.Grows(d, d')
  {
  }

  /** Directory fsync and sidecar; the two flags of the result that concern the lock come later. */
  method AfterReplacing(p: Process, w: S.Id) returns (fate: WC.CommitFate)
    requires p.Valid() && Turn(p.me, p.c, w) && p.Pc(w).Placed?
    modifies p
    ensures p.Stepped(w, {}) && Turn(p.me, p.c, w) && p.open == old(p.open)
    ensures Replacements(p.mine) == old(Replacements(p.mine)) && !fate.FailedBeforeReplace?
    ensures if fate.Finished? then p.Pc(w) == S.Returned(old(p.Pc(w)).version, old(p.Pc(w)).content)
            else p.Pc(w) == S.Raised(true)
    ensures fate.SidecarRaised? ==> p.c.s.writers[w].sidecar
    ensures fate.Finished? && p.c.s.writers[w].sidecar && w in p.c.blocks ==> CameAfter(p.me, p.c.scribe, {w})
    ensures FailedOnly(old(p.failures), p.failures, {DirFsync} + REWRITING)
    ensures LateFate(p.c.s.writers[w].safety, NewFailures(old(p.failures), p.failures), fate)
  {
    hide Inv, Keeps, Adds, OwnOf, Reaches, Replacements, BeforeReplace;
    var ok, warned := FsyncDir(p, w);
    label synced:
    ghost var synced := p.failures;
    OneNewFailure(old(p.failures), DirFsync);
    WriteCore.KeptOpen(p.me, old(p.c), p.c, w, {});
    if !ok {
      return WC.SyncDirRaised;
    }
    if p.c.s.writers[w].sidecar {
      ok := WriteSidecar(p, w);
      FailuresAdd(old(p.failures), synced, p.failures);
      WriteCore.SidecarFailure(synced, p.failures);
      KeepsTwice(p.me, old(p.c), old(p.run), old@synced(p.c), old@synced(p.run), p.c, p.run, {w}, {}, {w}, {}, {w}, {});
      WriteCore.KeptOpen(p.me, old(p.c), p.c, w, {});
      if !ok {
        return WC.SidecarRaised(false);
      }
    }
    label returning:
    Return(p, w);
    WriteCore.KeptOpen(p.me, old@returning(p.c), p.c, w, {});
    NotesStay(p.me, old@returning(p.c), p.c, w, {w}, {});
    KeepsTwice(p.me, old(p.c), old(p.run), old@returning(p.c), old@returning(p.run), p.c, p.run, {w}, {}, {w}, {},
        {w}, {});
    fate := WC.Finished(false);
  }

  lemma AfterRelease(before: seq<Failure>, mid: seq<Failure>, after: seq<Failure>, safety: S.Safety,
                     fate: WC.CommitFate,
                     release: Option<Release>)
    requires FailedOnly(before, mid, {DirFsync} + REWRITING) && LateFate(safety, NewFailures(before, mid), fate)
    requires FailedOnly(mid, after, {LockRead, LockUnlink}) && ReleaseShows(NewFailures(mid, after), release)
    ensures FailedOnly(before, after, {DirFsync} + REWRITING + {LockRead, LockUnlink})
    ensures LateFate(safety, NewFailures(before, after), fate) && ReleaseShows(NewFailures(before, after), release)
  {
    FailuresAdd(before, mid, after);
    hide NewFailures;
  }

  /** Whether the release worked is no matter of the failures before it. */
  lemma LabelledLock(safety: S.Safety, failed: set<Failure>, fate: WC.CommitFate, gone: bool)
    requires LateFate(safety, failed, fate) && !fate.SyncDirRaised?
    ensures LateFate(safety, failed, if fate.Finished? then WC.Finished(gone) else WC.SidecarRaised(gone))
  {
  }

  /** There is no file, because it could not be opened; besides that at most the release has failed. */
  predicate OpenFailed(before: seq<Failure>, after: seq<Failure>, release: Option<Release>)
  {
    var failed := NewFailures(before, after);
    before <= after && TmpOpen in failed && failed <= {TmpOpen, LockRead, LockUnlink} && ReleaseShows(failed, release)
  }

  lemma FailedToOpen(before: seq<Failure>, mid: seq<Failure>, after: seq<Failure>, release: Option<Release>)
    requires mid == before + [TmpOpen] && FailedOnly(mid, after, {LockRead, LockUnlink})
    requires ReleaseShows(NewFailures(mid, after), release)
    ensures OpenFailed(before, after, release)
  {
    OneNewFailure(before, TmpOpen);
    FailuresAdd(before, mid, after);
    hide NewFailures;
  }

  /** The content was not placed, for which some call up to the replace has failed. */
  predicate PlacingFailed(before: seq<Failure>, after: seq<Failure>)
  {
    var failed := NewFailures(before, after);
    before <= after && failed * TRYING != {} && failed <= TRYING + {TmpUnlink}
  }

  lemma PlacingFails(before: seq<Failure>, tried: seq<Failure>, after: seq<Failure>)
    requires OneFailure(before, tried, TRYING) && (after == tried || after == tried + [TmpUnlink])
    ensures PlacingFailed(before, after) && (after != tried ==> TmpUnlink in NewFailures(before, after))
  {
    hide NewFailures;
    OneNewFailure(before, tried[|before|]);
    assert tried == before + [tried[|before|]];
    OneNewFailure(tried, TmpUnlink);
    FailuresAdd(before, tried, after);
    assert tried[|before|] in NewFailures(before, after) * TRYING;
  }

  /** How a commit that has placed its content ends, by what has failed since. */
  predicate LateFate(safety: S.Safety, failed: set<Failure>, fate: WC.CommitFate)
  {
    && !fate.FailedBeforeReplace?
    && (fate.SyncDirRaised? <==> safety == S.Strict && DirFsync in failed)
    && (fate.SidecarRaised? <==> !(safety == S.Strict && DirFsync in failed) && failed * REWRITING != {})
  }

  /** Every way a commit ends has its failures, and every such failure its ending. */
  predicate CommitFailures(before: seq<Failure>, after: seq<Failure>, safety: S.Safety, fate: WC.CommitFate,
                           release: Option<Release>)
  {
    var failed := NewFailures(before, after);
    && before <= after && ReleaseShows(failed, release)
    && if failed * TRYING != {} then fate.FailedBeforeReplace? else LateFate(safety, failed, fate)
  }

  /** A commit gives the lock back unless a strict directory fsync raises. */
  ghost predicate CommitRelease(a: L.Actor, before: seq<Step>, after: seq<Step>, locking: bool, held: Option<nat>,
                                fate: WC.CommitFate, release: Option<Release>, damaged: set<nat>, damaged': set<nat>)
  {
    if fate.SyncDirRaised? then release.None? && damaged' == damaged
    else GivenBack(a, before, after, locking, held, release, fate.released, damaged, damaged')
  }

  lemma CollectFailures(before: seq<Failure>, tried: seq<Failure>, after: seq<Failure>, safety: S.Safety, ok: bool,
                        fate: WC.CommitFate, release: Option<Release>)
    requires if ok then tried == before else PlacingFailed(before, tried)
    requires FailedOnly(tried, after, {DirFsync} + REWRITING + {LockRead, LockUnlink})
    requires if ok then LateFate(safety, NewFailures(tried, after), fate) else fate.FailedBeforeReplace?
    requires ReleaseShows(NewFailures(tried, after), release)
    ensures CommitFailures(before, after, safety, fate, release)
  {
    hide NewFailures;
    OneNewFailure(before, TmpUnlink);
    FailuresAdd(before, tried, after);
  }

  /** Lines 1084-1106: the try block and, if it raises, the handler's cleanup of the file. */
  method ReplaceOrCleanUp(p: Process, w: S.Id, tmp: S.Name) returns (ok: bool)
    requires p.Valid() && Turn(p.me, p.c, w) && p.Pc(w).Open? && p.c.s.writers[w].goal.None?
    requires tmp in p.me.names && p.Pc(w).tmp == tmp
    modifies p
    ensures p.Stepped(w, {}) && p.open == old(p.open) - {old(p.Pc(w)).ino} && w in p.c.s.writers
    ensures !ok ==> p.Pc(w) == S.Raised(false) && Replacements(p.mine) == old(Replacements(p.mine))
    ensures ok ==>
      && Turn(p.me, p.c, w) && p.Pc(w).Placed? && p.Pc(w).content == old(p.Pc(w)).accepted
      && Replacements(p.mine) == old(Replacements(p.mine)) + 1
      && Shows(p.c.s.d, p.c.s.writers[w].target, p.Pc(w).version, p.Pc(w).content)
      && old(S.Latest(p.c.s.d, p.c.s.writers[w].target)) < p.Pc(w).version
      && (w in p.c.blocks ==> CameAfter(p.me, p.c.last, {w}))
    ensures if ok then p.failures == old(p.failures) else PlacingFailed(old(p.failures), p.failures)
    ensures TmpUnlink !in NewFailures(old(p.failures), p.failures) ==> tmp !in p.c.s.d.dir
  {
    hide Inv, Keeps, Adds, OwnOf, Reaches, Replacements, Gone, Shows, BeforeReplace, NewFailures;
    var left;
    ok, left := SyncAndReplace(p, w);
    if !ok {
      label raising:
      ghost var tried := p.failures;
      var unlinkFailed := WriteCore.ExceptBlock(p, w, tmp, left);
      KeepsTwice(p.me, old(p.c), old(p.run), old@raising(p.c), old@raising(p.run), p.c, p.run, {w}, {}, {w}, {}, {w},
          {});
      PlacingFails(old(p.failures), tried, p.failures);
    }
  }

  /** Lines 1084-1095: fsync, close, replace; `left` is the descriptor if it is still open. */
  method SyncAndReplace(p: Process, w: S.Id) returns (ok: bool, left: Option<S.Ino>)
    requires p.Valid() && Turn(p.me, p.c, w) && p.Pc(w).Open? && p.c.s.writers[w].goal.None?
    modifies p
    ensures p.Stepped(w, {}) && Turn(p.me, p.c, w) && p.open <= old(p.open)
    ensures !ok ==>
      && (p.Pc(w).Open? || p.Pc(w).Synced? || p.Pc(w).Closed?) && p.Pc(w).tmp == old(p.Pc(w)).tmp
      && Replacements(p.mine) == old(Replacements(p.mine))
      && p.open - (if left.Some? then {left.value} else {}) == old(p.open) - {old(p.Pc(w)).ino}
    ensures ok ==>
      && p.Pc(w).Placed? && p.Pc(w).content == old(p.Pc(w)).accepted && p.open == old(p.open) - {old(p.Pc(w)).ino}
      && old(p.Pc(w)).tmp !in p.c.s.d.dir
      && Replacements(p.mine) == old(Replacements(p.mine)) + 1
      && Shows(p.c.s.d, p.c.s.writers[w].target, p.Pc(w).version, p.Pc(w).content)
      && old(S.Latest(p.c.s.d, p.c.s.writers[w].target)) < p.Pc(w).version
      && (w in p.c.blocks ==> CameAfter(p.me, p.c.last, {w}))
    ensures if ok then p.failures == old(p.failures) else OneFailure(old(p.failures), p.failures, TRYING)
  {
    hide Inv, Keeps, Adds, OwnOf, Reaches, Replacements, Gone, Shows, BeforeReplace;
    left := Some(p.Pc(w).ino);
    ok := Fsync(p, w, true);
    label synced:
    WriteCore.KeptOpen(p.me, old(p.c), p.c, w, {});
    if !ok {
      return;
    }
    ok := Close(p, w);
    KeepsTwice(p.me, old(p.c), old(p.run), old@synced(p.c), old@synced(p.run), p.c, p.run, {w}, {}, {w}, {}, {w}, {});
    WriteCore.KeptOpen(p.me, old(p.c), p.c, w, {});
    label closed:
    if !ok {
      return;
    }
    left := None;
    // copystat never raises
    LatestGrows(p.me, old(p.c), p.c, w, {});
    ok := Replace(p, w);
    KeepsTwice(p.me, old(p.c), old(p.run), old@closed(p.c), old@closed(p.run), p.c, p.run, {w}, {}, {w}, {}, {w}, {});
    if ok { TurnKept(p.me, old@closed(p.c), p.c, w); }
  }

  /** Placing the content does not end the turn of a writer that keeps its lock. */
  lemma TurnKept(me: Self, c: State, c': State, w: S.Id)
    requires Turn(me, c, w) && Keeps(me, c, c', {w}, {}) && LockPc(me, c') == LockPc(me, c) && L.Alive(c'.l, me.a)
    requires w in c.blocks ==> c.s.writers[w].goal.None?
    ensures Turn(me, c', w)
  {
    hide Gone, SI.Grows, BeforeReplace;
  }

  /** A returned commit of a locked object leaves a sidecar as WriteCore says of a returned call. */
  lemma SidecarAfterCommit(w: AtomicWriter)
    requires w.Valid() && w.CommitReturned() && w.locking && w.sidecar
    ensures WriteCore.SidecarLeft(w.p, w.id)
  {
    hide Inv, Exec, Init, OwnOf, GoodNames, Owned, CameAfter, WriteCore.SidecarLeft;
    WriteCore.SidecarAfterWrite(w.p, w.id);
  }

  /** What an object relies on while its own writer moves and the lock stays as it is. */
  lemma Coast(me: Self, c: State, c': State, w: S.Id, moved: set<S.Id>, made: set<S.Name>, target: S.Name,
              versions: seq<nat>, placed: seq<Bytes>, acquired: set<nat>)
    requires Keeps(me, c, c', moved, made)
    ensures c'.t == c.t && c'.wholeOnly == c.wholeOnly && c'.s.d.targets == c.s.d.targets
    ensures w in me.ids ==>
      && (w in c'.s.writers <==> w in c.s.writers) && (w in c'.blocks <==> w in c.blocks)
      && (w in c.s.writers ==> c'.s.writers[w] == c.s.writers[w].(pc := c'.s.writers[w].pc))
      && (w in c.s.writers && w !in moved ==> c'.s.writers[w] == c.s.writers[w])
      && (w in c.blocks ==> c'.blocks[w] == c.blocks[w])
    ensures AllShow(c.s.d, target, versions, placed) ==> AllShow(c'.s.d, target, versions, placed)
    ensures (forall e | e in acquired :: e < c.l.next) ==> (forall e | e in acquired :: e < c'.l.next)
    ensures (forall e | e in acquired :: Gone(c.l, e)) ==> (forall e | e in acquired :: Gone(c'.l, e))
  {
    hide Gone, Shows, SI.Grows;
    if AllShow(c.s.d, target, versions, placed) {
      forall i | 0 <= i < |versions| ensures Shows(c'.s.d, target, versions[i], placed[i]) {
        ShowsStays(c.s.d, c'.s.d, target, versions[i], placed[i]);
      }
    }
    SameTargets(c.s.d, c'.s.d);
  }

  lemma SameTargets(d: S.Disk, d': S.Disk)
    requires SI.Grows(d, d')
    ensures d'.targets == d.targets
  {
  }

  lemma OneMoreShown(d: S.Disk, target: S.Name, versions: seq<nat>, placed: seq<Bytes>, version: nat, content: Bytes)
    requires AllShow(d, target, versions, placed) && Shows(d, target, version, content)
    ensures AllShow(d, target, versions + [version], placed + [content])
  {
    hide Shows;
  }

  /** Every content placed is in the target's history. */
  ghost predicate AllShow(d: S.Disk, target: S.Name, versions: seq<nat>, placed: seq<Bytes>)
  {
    |versions| == |placed| && forall i | 0 <= i < |versions| :: Shows(d, target, versions[i], placed[i])
  }
}
