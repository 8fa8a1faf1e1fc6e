/**
  Acquiring and releasing the lock of the target, as the code runs it
  (src/safeatomic/_locks.py:427-484 and 487-534): a bounded loop of exclusive
  creates, and a release that looks before it unlinks.
 */
module LockFile {
  import opened Basics
  import SI = StorageInvariant
  import L = LockProtocol
  import opened Composite
  import opened Machine

  /** Between two uses of the lock, or while holding it. */
  ghost predicate Settled(me: Self, c: State)
  {
    LockPc(me, c).Idle? || LockPc(me, c).Holding?
  }

  /** No block of this process holds the lock. */
  ghost predicate NoBlockHolds(me: Self, c: State)
  {
    forall w | w in c.blocks && c.blocks[w].actor == me.a :: !Held(c, w)
  }

  /** The block in the lock, if any, is one that may let go. */
  ghost predicate ReleaseIsDue(me: Self, c: State)
  {
    forall w | w in c.blocks && w in c.s.writers && c.blocks[w].actor == me.a && Held(c, w) ::
      MayRelease(c.s.writers[w])
  }

  // ----- one step in the lock protocol ----------------------------------------------------------

  /** A step of our own that only concerns the lock. */
  ghost predicate OwnLockStep(me: Self, c: State, step: L.Step)
  {
    && (step.Contend? || step.CreateError? || step.Create? || step.WritePayload? || step.FailPayload? || step.Undo?
        || step.InspectOwn? || step.Unlock?)
    && step.a == me.a
  }

  lemma LockStepKeeps(me: Self, c: State, step: L.Step)
    requires Inv(c) && L.Alive(c.l, me.a) && OwnLockStep(me, c, step) && CanLock(c, step)
    ensures Keeps(me, c, Do(c, Lock(step)), {}, {})
    ensures Do(c, Lock(step)).l == L.Do(c.l, step) && Do(c, Lock(step)).blocks == c.blocks && Do(c, Lock(step)).s == c.s
  {
    hide L.Running, Gone, Inv;
    forall e: nat | Gone(c.l, e) ensures Gone(L.Do(c.l, step), e) { GoneStays(c.l, step, e); }
    hide L.Can;
    SameDiskKeeps(me, c, Do(c, Lock(step)));
  }

  /** Takes a lock step. */
  method Step(p: Process, step: L.Step)
    requires p.Valid() && OwnLockStep(p.me, p.c, step) && CanLock(p.c, step)
    modifies p
    ensures p.Valid() && p.Kept({}, {}) && p.open == old(p.open)
    ensures p.c.l == old(L.Do(p.c.l, step)) && p.c.blocks == old(p.c.blocks) && p.c.s == old(p.c.s)
    ensures p.mine == old(p.mine) + [Lock(step)] && Replacements(p.mine) == old(Replacements(p.mine))
    ensures p.failures == old(p.failures)
  {
    hide Inv, Keeps, Adds, OwnOf, Reaches, Replacements, L.Do, CanLock;
    LockStepKeeps(p.me, p.c, step);
    OwnedStays(p.me, p.c, Do(p.c, Lock(step)), {}, {});
    OneMore(p.mine, Lock(step));
    AddsOne(p.me, p.run, Lock(step), {}, {});
    p.Act(Lock(step));
  }

  /** What the lock protocol guarantees to a process inside. */
  lemma InsideOwns(c: State, a: L.Actor)
    requires Inv(c) && L.Alive(c.l, a)
    ensures var pc := c.l.procs[a].pc;
      pc.Created? || pc.Undoing? || pc.Holding? || pc.Releasing? ==>
        && c.l.file.Some? && c.l.file.value.creator == a && c.l.file.value.epoch == pc.epoch < c.l.next
  {
    hide BlocksOk, LogOk, ViewOk, SI.Inv;
    ProcKnown(c.l, a);
  }

  lemma ProcKnown(l: L.State, a: L.Actor)
    requires L.Inv(l) && L.Alive(l, a)
    ensures L.ProcOk(l, a) && (l.file.Some? ==> L.FileOk(l, l.file.value))
  {
  }

  lemma NewEpoch(c: State, a: L.Actor)
    requires Inv(c) && L.Alive(c.l, a) && c.l.procs[a].pc.Created?
    ensures forall w | w in c.blocks && c.blocks[w].actor == a :: c.blocks[w].epoch != c.l.procs[a].pc.epoch
  {
    hide LogOk, ViewOk, SI.Inv, L.Inv;
    forall w | w in c.blocks && c.blocks[w].actor == a ensures c.blocks[w].epoch != c.l.procs[a].pc.epoch {
      assert BlockOk(c, w);
    }
  }

  // ----- try_acquire_lock ------------------------------------------------------------------------------

  /** Exclusive creates that found a lock file. */
  function Contends(a: L.Actor, n: nat): seq<Step>
  {
    seq(n, i => Lock(L.Contend(a)))
  }

  /**
    The process's own steps between `before` and `after`: `creates` exclusive
    creates, all but the last of which found a lock file there, and what came
    of the last.
   */
  ghost predicate Attempted(a: L.Actor, before: seq<Step>, after: seq<Step>, retries: nat, creates: nat,
                            result: Attempt)
  {
    && 1 <= creates <= retries + 1
    && match result
       case Busy => creates == retries + 1 && after == before + Contends(a, creates)
       case Acquired(_) => Took(before + Contends(a, creates - 1), after, a)
       case LockError(None, _) => after == before + Contends(a, creates - 1) + [Lock(L.CreateError(a))]
       case LockError(Some(_), undone) => FailedToTake(before + Contends(a, creates - 1), after, a, undone)
  }

  /** The failed calls behind the outcome; contention is none. */
  function AttemptFailures(result: Attempt): seq<Failure>
  {
    match result
    case Acquired(_) => []
    case Busy => []
    case LockError(None, _) => [LockCreate]
    case LockError(Some(_), undone) => [LockWrite] + if undone then [] else [LockUnlink]
  }

  /** An error has its failed call, contention is none, and a file is left only by a failed unlink. */
  lemma AttemptFailuresTell(result: Attempt)
    ensures AttemptFailures(result) == [] <==> !result.LockError?
    ensures LockCreate in AttemptFailures(result) <==> result.LockError? && result.created.None?
    ensures LockUnlink in AttemptFailures(result) <==> result.LockError? && result.created.Some? && !result.undone
  {
  }

  lemma OneMoreContend(a: L.Actor, before: seq<Step>, n: nat)
    ensures before + Contends(a, n) + [Lock(L.Contend(a))] == before + Contends(a, n + 1)
    ensures before + Contends(a, 0) == before
  {
  }

  /** Exclusive creates among the steps, whatever came of them. */
  function CreatesIn(steps: seq<Step>): nat
    decreases |steps|
  {
    if steps == [] then 0
    else CreatesIn(steps[..|steps| - 1]) + if IsCreate(steps[|steps| - 1]) then 1 else 0
  }

  predicate IsCreate(step: Step)
  {
    step.Lock? && (step.lstep.Create? || step.lstep.Contend? || step.lstep.CreateError?)
  }

  lemma OneMoreCreate(steps: seq<Step>, step: Step)
    ensures CreatesIn(steps + [step]) == CreatesIn(steps) + if IsCreate(step) then 1 else 0
  {
    assert (steps + [step])[..|steps|] == steps;
  }

  lemma {:induction false} ContendsCount(a: L.Actor, before: seq<Step>, n: nat)
    ensures CreatesIn(before + Contends(a, n)) == CreatesIn(before) + n
  {
    if n == 0 {
      OneMoreContend(a, before, 0);
    } else {
      ContendsCount(a, before, n - 1);
      OneMoreContend(a, before, n - 1);
      OneMoreCreate(before + Contends(a, n - 1), Lock(L.Contend(a)));
    }
  }

  lemma TookCounts(before: seq<Step>, after: seq<Step>, a: L.Actor)
    requires Took(before, after, a)
    ensures CreatesIn(after) == CreatesIn(before) + 1
  {
    hide CreatesIn;
    var n := |before|;
    OneMoreCreate(before, after[n]);
    OneMoreCreate(before + [after[n]], after[n + 1]);
    assert after == before + [after[n]] + [after[n + 1]];
  }

  lemma FailureCounts(before: seq<Step>, after: seq<Step>, a: L.Actor, undone: bool)
    requires FailedToTake(before, after, a, undone)
    ensures CreatesIn(after) == CreatesIn(before) + 1
  {
    hide CreatesIn;
    var n := |before|;
    OneMoreCreate(before, after[n]);
    OneMoreCreate(before + [after[n]], after[n + 1]);
    OneMoreCreate(before + [after[n]] + [after[n + 1]], after[n + 2]);
    assert after == before + [after[n]] + [after[n + 1]] + [after[n + 2]];
  }

  /** What is reported is what was done. */
  lemma CreatesAreCounted(a: L.Actor, before: seq<Step>, after: seq<Step>, retries: nat, creates: nat, result: Attempt)
    requires Attempted(a, before, after, retries, creates, result)
    ensures CreatesIn(after) == CreatesIn(before) + creates && creates <= retries + 1
  {
    hide Contends, CreatesIn, Took, FailedToTake;
    var contended := before + Contends(a, creates - 1);
    ContendsCount(a, before, creates - 1);
    match result {
      case Busy => ContendsCount(a, before, creates);
      case Acquired(_) => TookCounts(contended, after, a);
      case LockError(None, _) => OneMoreCreate(contended, Lock(L.CreateError(a)));
      case LockError(Some(_), undone) => FailureCounts(contended, after, a, undone);
    }
  }

  /** An exclusive create that found a lock file found one: in every run, at every such step. */
  lemma {:induction false} ContendMetAFile(c: State, run: seq<Step>, i: nat)
    requires Exec(c, run).Some? && i < |run| && run[i].Lock? && run[i].lstep.Contend?
    ensures Exec(c, run[..i]).Some? && Exec(c, run[..i]).value.l.file.Some?
    decreases i
  {
    hide Do;
    if i == 0 {
      assert Can(c, run[0]);
      assert run[..0] == [];
    } else {
      hide Can;
      assert run[..i][1..] == run[1..][..i - 1] && run[..i][0] == run[0];
      ContendMetAFile(Do(c, run[0]), run[1..], i - 1);
    }
  }

  /**
    At most `retries` + 1 exclusive creates, each a step of the run, and no
    sleep after the last.  False means that all of them found a lock file;
    besides that only success and a failed payload write leave a trace, and
    the latter only if the cleanup unlink failed as well.
   */
  method TryAcquireLock(p: Process, retries: nat, delay: bool)
    returns (result: Attempt, creates: nat, sleeps: nat)
    requires p.Valid() && Settled(p.me, p.c)
    modifies p
    ensures p.Valid() && p.Kept({}, {}) && p.open == old(p.open)
    ensures Replacements(p.mine) == old(Replacements(p.mine))
    ensures Attempted(p.me.a, old(p.mine), p.mine, retries, creates, result)
    ensures 1 <= creates && sleeps == if delay then creates - 1 else 0
    ensures p.failures == old(p.failures) + AttemptFailures(result)
    ensures !result.Acquired? ==> LockPc(p.me, p.c) == old(LockPc(p.me, p.c))
    ensures result.LockError? && result.created.Some? ==>
      && old(LockPc(p.me, p.c)).Idle? && result.created.value < p.c.l.next
      && (result.undone ==> Gone(p.c.l, result.created.value))
    ensures result.Acquired? ==>
      && LockPc(p.me, p.c) == L.Holding(result.epoch) && old(p.c.l.next) <= result.epoch < p.c.l.next
      && NoBlockHolds(p.me, p.c) && old(LockPc(p.me, p.c)).Idle?
  {
    hide Inv, Keeps, Adds, OwnOf, Reaches, Replacements, L.Do, CanLock, Took, FailedToTake, Contends;
    creates, sleeps := 0, 0;
    KeepsItself(p.me, p.c, p.run);
    var attempt := 0;
    OneMoreContend(p.me.a, p.mine, 0);
    while attempt < retries + 1
      invariant attempt <= retries + 1 && creates == attempt
      invariant sleeps == if !delay then 0 else if attempt == retries + 1 then retries else attempt
      invariant p.Valid() && p.Kept({}, {}) && p.open == old(p.open)
      invariant p.mine == old(p.mine) + Contends(p.me.a, attempt) && LockPc(p.me, p.c) == old(LockPc(p.me, p.c))
      invariant p.failures == old(p.failures)
      invariant Replacements(p.mine) == old(Replacements(p.mine)) && p.c.l.next >= old(p.c.l.next)
    {
      label before:
      p.Others();
      KeepsTwice(p.me, old(p.c), old(p.run), old@before(p.c), old@before(p.run), p.c, p.run, {}, {}, {}, {}, {}, {});
      NextGrows(p.me, old(p.c), p.c);
      creates := creates + 1;
      label creating:
      result := ExclusiveCreate(p);
      KeepsTwice(p.me, old(p.c), old(p.run), old@creating(p.c), old@creating(p.run), p.c, p.run, {}, {}, {}, {}, {},
          {});
      NextGrows(p.me, old(p.c), p.c);
      if !result.Busy? {
        return;
      }
      OneMoreContend(p.me.a, old(p.mine), attempt);
      if attempt < retries && delay {
        sleeps := sleeps + 1;
      }
      attempt := attempt + 1;
    }
    result := Busy;
  }

  /** One attempt: the create, and the payload if it succeeds. */
  method ExclusiveCreate(p: Process) returns (result: Attempt)
    requires p.Valid() && Settled(p.me, p.c)
    modifies p
    ensures p.Valid() && p.Kept({}, {}) && p.open == old(p.open)
    ensures Replacements(p.mine) == old(Replacements(p.mine))
    ensures p.failures == old(p.failures) + AttemptFailures(result)
    ensures result.Busy? ==> p.mine == old(p.mine) + [Lock(L.Contend(p.me.a))] && old(p.c.l.file).Some?
    ensures result.LockError? && result.created.None? ==> p.mine == old(p.mine) + [Lock(L.CreateError(p.me.a))]
    ensures !result.Acquired? ==> LockPc(p.me, p.c) == old(LockPc(p.me, p.c))
    ensures result.LockError? && result.created.Some? ==>
      && FailedToTake(old(p.mine), p.mine, p.me.a, result.undone)
      && old(LockPc(p.me, p.c)).Idle? && result.created.value < p.c.l.next
      && (result.undone ==> Gone(p.c.l, result.created.value))
    ensures result.Acquired? ==>
      && LockPc(p.me, p.c) == L.Holding(result.epoch) && result.epoch == old(p.c.l.next) < p.c.l.next
      && NoBlockHolds(p.me, p.c) && old(LockPc(p.me, p.c)).Idle?
      && Took(old(p.mine), p.mine, p.me.a)
  {
    hide Inv, Keeps, Adds, OwnOf, Reaches, Replacements, CanLock, Took, FailedToTake, Gone;
    var failed: bool := *;
    if failed {
      MayStep(p.c, L.CreateError(p.me.a));
      Step(p, L.CreateError(p.me.a));
      p.Fail(LockCreate);
      return LockError(None, false);
    }
    if p.c.l.file.Some? {
      MayStep(p.c, L.Contend(p.me.a));
      Step(p, L.Contend(p.me.a));
      return Busy;
    }
    result := CreateAndFill(p);
  }

  /** Between `before` and `after` this process created the lock file and wrote its payload, nothing else. */
  ghost predicate Took(before: seq<Step>, after: seq<Step>, a: L.Actor)
  {
    && |after| == |before| + 2 && before <= after
    && after[|before|] == Lock(L.Create(a))
    && after[|before| + 1].Lock? && after[|before| + 1].lstep.WritePayload? && after[|before| + 1].lstep.a == a
  }

  /** It created the lock file, failed to write the payload, and tried to unlink it again. */
  ghost predicate FailedToTake(before: seq<Step>, after: seq<Step>, a: L.Actor, undone: bool)
  {
    && |after| == |before| + 3 && before <= after
    && after[|before|] == Lock(L.Create(a))
    && after[|before| + 1].Lock? && after[|before| + 1].lstep.FailPayload? && after[|before| + 1].lstep.a == a
    && after[|before| + 2] == Lock(L.Undo(a, undone))
  }

  lemma NextGrows(me: Self, c: State, c': State)
    requires Keeps(me, c, c', {}, {})
    ensures c.l.next <= c'.l.next
  {
  }

  /** One attempt that found no lock file: create it, then write the payload or give up. */
  method CreateAndFill(p: Process) returns (result: Attempt)
    requires p.Valid() && Settled(p.me, p.c) && p.c.l.file.None?
    modifies p
    ensures p.Valid() && p.Kept({}, {}) && p.open == old(p.open)
    ensures Replacements(p.mine) == old(Replacements(p.mine)) && !result.Busy? && old(LockPc(p.me, p.c)).Idle?
    ensures p.failures == old(p.failures) + AttemptFailures(result)
    ensures result.LockError? ==> LockPc(p.me, p.c).Idle?
    ensures result.LockError? ==>
      && FailedToTake(old(p.mine), p.mine, p.me.a, result.undone)
      && result.created == Some(old(p.c.l.next))
      && old(p.c.l.next) < p.c.l.next && (result.undone ==> Gone(p.c.l, old(p.c.l.next)))
    ensures result.Acquired? ==>
      && result.epoch == old(p.c.l.next) < p.c.l.next && LockPc(p.me, p.c) == L.Holding(result.epoch)
      && NoBlockHolds(p.me, p.c)
      && Took(old(p.mine), p.mine, p.me.a)
  {
    hide Inv, Keeps, Adds, OwnOf, Reaches, Replacements, CanLock;
    InsideOwns(p.c, p.me.a);
    var a, epoch := p.me.a, p.c.l.next;
    MayStep(p.c, L.Create(a));
    Step(p, L.Create(a));
    label created:
    p.Others();
    KeepsTwice(p.me, old(p.c), old(p.run), old@created(p.c), old@created(p.run), p.c, p.run, {}, {}, {}, {}, {}, {});
    label filling:
    var failed: bool := *;
    if !failed {
      var short: bool := *;
      NewEpoch(p.c, a);
      InsideOwns(p.c, a);
      MayStep(p.c, L.WritePayload(a, short));
      Step(p, L.WritePayload(a, short));
      KeepsTwice(p.me, old(p.c), old(p.run), old@filling(p.c), old@filling(p.run), p.c, p.run, {}, {}, {}, {}, {}, {});
      return Acquired(epoch);
    }
    result := GiveUpCreated(p, epoch);
    KeepsTwice(p.me, old(p.c), old(p.run), old@filling(p.c), old@filling(p.run), p.c, p.run, {}, {}, {}, {}, {}, {});
    NextGrows(p.me, old@filling(p.c), p.c);
  }

  /** The payload cannot be written: the empty or damaged file is unlinked again, if that works. */
  method GiveUpCreated(p: Process, epoch: nat) returns (result: Attempt)
    requires p.Valid() && LockPc(p.me, p.c) == L.Created(epoch)
    modifies p
    ensures p.Valid() && p.Kept({}, {}) && p.open == old(p.open) && Replacements(p.mine) == old(Replacements(p.mine))
    ensures result.LockError? && result.created == Some(epoch) && LockPc(p.me, p.c).Idle? && epoch < p.c.l.next
    ensures |p.mine| == |old(p.mine)| + 2 && old(p.mine) <= p.mine
    ensures var step := p.mine[|old(p.mine)|]; step.Lock? && step.lstep.FailPayload? && step.lstep.a == p.me.a
    ensures p.mine[|old(p.mine)| + 1] == Lock(L.Undo(p.me.a, result.undone))
    ensures result.undone ==> Gone(p.c.l, epoch)
    ensures p.failures == old(p.failures) + AttemptFailures(result)
  {
    hide Inv, Keeps, Adds, OwnOf, Reaches, Replacements, CanLock;
    var a := p.me.a;
    var left: L.Payload := *;
    if left.Doc? { left := L.Doc(p.c.l.procs[a].id); }
    MayStep(p.c, L.FailPayload(a, left));
    Step(p, L.FailPayload(a, left));
    p.Fail(LockWrite);
    label undoing:
    p.Others();
    KeepsTwice(p.me, old(p.c), old(p.run), old@undoing(p.c), old@undoing(p.run), p.c, p.run, {}, {}, {}, {}, {}, {});
    label unlinking:
    InsideOwns(p.c, a);
    var undone: bool := *;
    MayStep(p.c, L.Undo(a, undone));
    Step(p, L.Undo(a, undone));
    if !undone { p.Fail(LockUnlink); }
    KeepsTwice(p.me, old(p.c), old(p.run), old@unlinking(p.c), old@unlinking(p.run), p.c, p.run, {}, {}, {}, {}, {},
        {});
    result := LockError(Some(epoch), undone);
  }

  /** Our own lock steps break no rule. */
  lemma MayStep(c: State, step: L.Step)
    requires L.Can(c.l, step)
    requires step.Contend? || step.CreateError? || step.Create? || step.WritePayload? || step.FailPayload?
      || step.Undo? || step.Unlock?
    ensures CanLock(c, step)
  {
    hide L.Running, L.Can, Held;
  }

  // ----- release_lock -------------------------------------------------------------------------------------

  /**
    When a release has worked, there is no lock file of any earlier
    acquisition; a holder whose file was not recognised had it damaged.
   */
  ghost predicate Released(me: Self, c: State, c': State, result: Release)
  {
    && LockPc(me, c').Idle?
    && (result.Removed? ==> forall e: nat | e < c.l.next :: Gone(c'.l, e))
    && (result.NotOurs? && LockPc(me, c).Holding? ==>
          && result.found.Some? && result.found.value.epoch == LockPc(me, c).epoch
          && !result.found.value.payload.Doc?)
  }

  /** What a release did, step by step. */
  function ReleaseSteps(a: L.Actor, result: Release): seq<Step>
  {
    match result
    case NotOurs(_) => [Lock(L.InspectOwn(a, true))]
    case Unreadable => [Lock(L.InspectOwn(a, false))]
    case UnlinkFailed => [Lock(L.InspectOwn(a, true)), Lock(L.Unlock(a, false))]
    case Removed => [Lock(L.InspectOwn(a, true)), Lock(L.Unlock(a, true))]
  }

  function ReleaseFailures(result: Release): seq<Failure>
  {
    match result
    case Unreadable => [LockRead]
    case UnlinkFailed => [LockUnlink]
    case _ => []
  }

  /**
    Inspect, then unlink.  A holder's own lock file stays only if it could not
    be read, does not parse any more, or the unlink failed.
   */
  method ReleaseLock(p: Process) returns (result: Release)
    requires p.Valid() && Settled(p.me, p.c) && (LockPc(p.me, p.c).Holding? ==> ReleaseIsDue(p.me, p.c))
    modifies p
    ensures p.Valid() && p.Kept({}, {}) && p.open == old(p.open)
    ensures Replacements(p.mine) == old(Replacements(p.mine))
    ensures Released(p.me, old(p.c), p.c, result) && p.mine == old(p.mine) + ReleaseSteps(p.me.a, result)
    ensures p.failures == old(p.failures) + ReleaseFailures(result)
  {
    hide Inv, Keeps, Adds, OwnOf, Reaches, Replacements, CanLock, L.Careful;
    var a := p.me.a;
    p.Others();
    DueStays(p.me, old(p.c), p.c);
    InsideOwns(p.c, a);
    label inspecting:
    var readable: bool := *;
    MayInspect(p.me, p.c, readable);
    if LockPc(p.me, p.c).Holding? { HolderPayload(p.c, a); }
    var found := p.c.l.file;
    Step(p, L.InspectOwn(a, readable));
    KeepsTwice(p.me, old(p.c), old(p.run), old@inspecting(p.c), old@inspecting(p.run), p.c, p.run, {}, {}, {}, {},
        {}, {});
    if !LockPc(p.me, p.c).Releasing? {
      if !readable { p.Fail(LockRead); }
      return if readable then NotOurs(found) else Unreadable;
    }
    label found:
    p.Others();
    KeepsTwice(p.me, old(p.c), old(p.run), old@found(p.c), old@found(p.run), p.c, p.run, {}, {}, {}, {}, {}, {});
    InsideOwns(p.c, a);
    label unlinking:
    var failed: bool := *;
    MayStep(p.c, L.Unlock(a, !failed));
    Step(p, L.Unlock(a, !failed));
    if failed { p.Fail(LockUnlink); }
    KeepsTwice(p.me, old(p.c), old(p.run), old@unlinking(p.c), old@unlinking(p.run), p.c, p.run, {}, {}, {}, {}, {},
        {});
    NextGrows(p.me, old(p.c), old@unlinking(p.c));
    result := if failed then UnlinkFailed else Removed;
  }

  lemma HolderPayload(c: State, a: L.Actor)
    requires Inv(c) && L.Alive(c.l, a) && c.l.procs[a].pc.Holding?
    ensures c.l.file.Some? && (c.l.file.value.payload.Doc? ==> c.l.file.value.payload == L.Doc(c.l.procs[a].id))
  {
    hide BlocksOk, LogOk, ViewOk, SI.Inv;
    ProcKnown(c.l, a);
  }

  lemma MayInspect(me: Self, c: State, readable: bool)
    requires L.Alive(c.l, me.a) && Settled(me, c) && (LockPc(me, c).Holding? ==> ReleaseIsDue(me, c))
    ensures CanLock(c, L.InspectOwn(me.a, readable))
  {
    hide Held;
  }

  /** A block in the lock that may let go stays so while others move. */
  lemma DueStays(me: Self, c: State, c': State)
    requires Keeps(me, c, c', {}, {}) && LockPc(me, c') == LockPc(me, c) && Owned(me, c) && L.Alive(c.l, me.a)
    requires LockPc(me, c).Holding? ==> ReleaseIsDue(me, c)
    ensures LockPc(me, c').Holding? ==> ReleaseIsDue(me, c')
  {
  }
}
