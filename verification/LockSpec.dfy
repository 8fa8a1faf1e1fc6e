/**
  The published lock specification, formal/SafeAtomicLock.tla, and the proof
  that the lock files of any number of processes implement it, as seen from
  any one host, with or without the discipline that exclusion asks for.
 */
module LockSpec {
  import opened Basics
  import opened LockProtocol

  // ----- the specification -----------------------------------------------------------

  datatype Lock = Free | HeldLocalLive | HeldLocalDead | HeldRemote | Corrupt
  datatype Owner = NoOwner | LocalPid | RemotePid | UnknownOwner
  datatype How = ReleaseNone | ReleaseNormal | ReleaseStale | ReleaseForce

  datatype View = View(lock: Lock, owner: Owner, lastRelease: How)

  datatype Action =
    | AcquireLocalLock
    | ReleaseLocalLock
    | CrashLocalOwner
    | RemoteLockAppears
    | CorruptLock
    | ReleaseStaleLocal
    | ForceRelease
    | NoOpReadLockState

  const SPEC_INIT := View(Free, NoOwner, ReleaseNone)

  /** The disjuncts of Next; DetectLocalDead is the stutter NoOpReadLockState under a stronger guard. */
  predicate Happens(action: Action, v: View, v': View)
  {
    match action
    case AcquireLocalLock => v.lock == Free && v' == View(HeldLocalLive, LocalPid, ReleaseNone)
    case ReleaseLocalLock =>
      v.lock == HeldLocalLive && v.owner == LocalPid && v' == View(Free, NoOwner, ReleaseNormal)
    case CrashLocalOwner => v.lock == HeldLocalLive && v.owner == LocalPid && v' == v.(lock := HeldLocalDead)
    case RemoteLockAppears => v.lock == Free && v' == View(HeldRemote, RemotePid, ReleaseNone)
    case CorruptLock =>
      v.lock in {HeldLocalLive, HeldLocalDead, HeldRemote} && v' == v.(lock := Corrupt, owner := UnknownOwner)
    case ReleaseStaleLocal =>
      v.lock == HeldLocalDead && v.owner == LocalPid && v' == View(Free, NoOwner, ReleaseStale)
    case ForceRelease => v.lock != Free && v' == View(Free, NoOwner, ReleaseForce)
    case NoOpReadLockState => v' == v
  }

  predicate Next(v: View, v': View)
  {
    exists action: Action :: Happens(action, v, v')
  }

  /** The five safety invariants of the specification. */
  predicate Safe(v: View)
  {
    && (v.lock == HeldLocalLive ==> v.owner == LocalPid && v.lastRelease == ReleaseNone)
    && (v.lastRelease == ReleaseStale ==> v.lock == Free)
    && (v.lastRelease == ReleaseForce ==> v.lock == Free)
    && (v.lock == Corrupt ==> v.lastRelease != ReleaseStale)
    && (v.owner == RemotePid ==> v.lastRelease != ReleaseStale)
  }

  /** They are not inductive: leaving Free must also forget the release. */
  predicate Inductive(v: View)
  {
    && (v.lock != Free ==> v.lastRelease == ReleaseNone)
    && (v.owner == RemotePid ==> v.lock == HeldRemote)
    && (v.lock == HeldLocalLive ==> v.owner == LocalPid)
  }

  predicate Behaviour(trace: seq<View>)
  {
    && trace != [] && trace[0] == SPEC_INIT
    && forall i | 0 <= i < |trace| - 1 :: Next(trace[i], trace[i + 1])
  }

  lemma {:induction false} SpecIsSafe(trace: seq<View>, i: nat)
    requires Behaviour(trace) && i < |trace|
    ensures Inductive(trace[i]) && Safe(trace[i])
  {
    if i > 0 {
      SpecIsSafe(trace, i - 1);
      assert Next(trace[i - 1], trace[i - 1 + 1]);
    }
  }

  /**
    What the invariants say of states, for the steps: a corrupt or remote lock
    is never recovered as stale, only a live local lock is released normally,
    and a lock is taken only when it is free.
   */
  lemma StepsOfTheSpec(v: View, v': View)
    requires Inductive(v) && Next(v, v') && v' != v
    ensures v'.lastRelease == ReleaseStale ==> v.lock == HeldLocalDead && v.owner == LocalPid
    ensures v'.lastRelease == ReleaseNormal ==> v.lock == HeldLocalLive && v.owner == LocalPid
    ensures v'.lock == Free <==> v.lock != Free && v'.lastRelease != ReleaseNone
    ensures v.lock == Free <==> v'.lock == HeldLocalLive || v'.lock == HeldRemote
    ensures v'.lock == HeldLocalDead ==> v.lock == HeldLocalLive
    ensures v'.lock == Corrupt ==> v.lock != Corrupt
  {
    var action :| Happens(action, v, v');
  }

  // ----- the refinement mapping ----------------------------------------------------------

  predicate OnHost(s: State, a: Actor, host: nat)
  {
    a in s.procs && s.procs[a].id.host == host
  }

  /** How the specification counts the last unlink. */
  function HowReleased(s: State, host: nat): How
  {
    match s.last
    case NoRelease => ReleaseNone
    case Unlinked(who, f, creatorAlive, purpose) =>
      if purpose == Own && who == f.creator && creatorAlive && OnHost(s, f.creator, host) && !f.payload.Damaged?
      then ReleaseNormal
      else if purpose == Recovery && OnHost(s, who, host) && OnHost(s, f.creator, host)
              && !creatorAlive && f.payload.Doc?
      then ReleaseStale
      else ReleaseForce
  }

  /** The lock file, its real creator and its creator's life, as the specification sees them from `host`. */
  function See(s: State, host: nat): View
  {
    if s.file.None? then View(Free, NoOwner, HowReleased(s, host))
    else
      var f := s.file.value;
      if f.payload.Damaged? then View(Corrupt, UnknownOwner, ReleaseNone)
      else if !OnHost(s, f.creator, host) then View(HeldRemote, RemotePid, ReleaseNone)
      else if Alive(s, f.creator) then View(HeldLocalLive, LocalPid, ReleaseNone)
      else if f.payload.Doc? then View(HeldLocalDead, LocalPid, ReleaseNone)
      else View(Corrupt, UnknownOwner, ReleaseNone)
  }

  predicate HasOwnFile(s: State, epoch: nat)
  {
    s.file.Some? && s.file.value.epoch == epoch
  }

  /** Which action of the specification a step of the processes is. */
  function Meaning(s: State, step: Step, host: nat): Action
    requires Can(s, step)
  {
    match step
    case Create(a) => if OnHost(s, a, host) then AcquireLocalLock else RemoteLockAppears
    case Die(a) =>
      if s.file.None? || s.file.value.creator != a || !OnHost(s, a, host) || s.file.value.payload.Damaged?
      then NoOpReadLockState
      else if s.file.value.payload.Doc? then CrashLocalOwner
      else CorruptLock
    case WritePayload(a, short) =>
      if short && HasOwnFile(s, s.procs[a].pc.epoch) then CorruptLock else NoOpReadLockState
    case FailPayload(a, left) =>
      if left.Damaged? && HasOwnFile(s, s.procs[a].pc.epoch) then CorruptLock else NoOpReadLockState
    case Damage => if See(s, host).lock == Corrupt then NoOpReadLockState else CorruptLock
    case Undo(a, ok) => if ok then Releases(s, a, host) else NoOpReadLockState
    case Unlock(a, ok) => if ok then Releases(s, a, host) else NoOpReadLockState
    case Condemn(a, ok) => if ok then Recovers(s, a, host) else NoOpReadLockState
    case Force(_) => if s.file.Some? then ForceRelease else NoOpReadLockState
    case _ => NoOpReadLockState
  }

  /** Unlinking one's own lock file is a normal release; anybody else's, on whatever belief, an override. */
  function Releases(s: State, a: Actor, host: nat): Action
  {
    if s.file.None? then NoOpReadLockState
    else if See(s, host).lock == HeldLocalLive && s.file.value.creator == a then ReleaseLocalLock
    else ForceRelease
  }

  function Recovers(s: State, a: Actor, host: nat): Action
    requires a in s.procs && s.procs[a].pc.Condemning?
  {
    if s.file.None? then NoOpReadLockState
    else if See(s, host).lock == HeldLocalDead && OnHost(s, a, host) && s.procs[a].pc.grounds == DeadPid
    then ReleaseStaleLocal
    else ForceRelease
  }

  // ----- the proof -----------------------------------------------------------------------------

  /** What holds in every run, careful or not. */
  ghost predicate Sound(s: State)
  {
    && (s.file.Some? ==> s.file.value.creator in s.procs && s.file.value.epoch < s.next)
    && (s.last.Unlinked? ==> s.last.who in s.procs && s.last.file.creator in s.procs)
    && (forall a | a in s.procs && s.procs[a].pc.Created? :: StillEmpty(s, a))
  }

  ghost predicate StillEmpty(s: State, a: Actor)
    requires a in s.procs && s.procs[a].pc.Created?
  {
    && s.procs[a].pc.epoch < s.next
    && (HasOwnFile(s, s.procs[a].pc.epoch) ==> s.file.value.creator == a && s.file.value.payload.Empty?)
  }

  lemma SoundStep(s: State, step: Step)
    requires Sound(s) && Can(s, step)
    ensures Sound(Do(s, step))
  {
    hide Running;
    var s' := Do(s, step);
    forall a | a in s'.procs && s'.procs[a].pc.Created? ensures StillEmpty(s', a) {
      if a in s.procs && s.procs[a].pc.Created? { assert StillEmpty(s, a); }
    }
  }

  predicate Unlinks(step: Step)
  {
    step.Undo? || step.Unlock? || step.Condemn? || step.Force?
  }

  /** An unlink is a release, a recovery or an override. */
  lemma UnlinkRefines(s: State, step: Step, host: nat)
    requires Sound(s) && Can(s, step) && Unlinks(step)
    ensures Happens(Meaning(s, step, host), See(s, host), See(Do(s, step), host))
  {
    hide Running, Fill;
  }

  lemma WriteRefines(s: State, step: Step, host: nat)
    requires Sound(s) && Can(s, step) && !Unlinks(step)
    ensures Happens(Meaning(s, step, host), See(s, host), See(Do(s, step), host))
  {
    hide Running, Unlink, HowReleased;
    if step.WritePayload? || step.FailPayload? { assert StillEmpty(s, step.a); }
    if Do(s, step).file.None? { SameRelease(s, Do(s, step), host); }
  }

  /** How the last unlink counts depends on who did what then, and on hosts, which do not change. */
  lemma SameRelease(s: State, s': State, host: nat)
    requires s'.last == s.last
    requires s.last.Unlinked? ==>
      && s.last.who in s.procs && s.last.file.creator in s.procs
      && s.last.who in s'.procs && s.last.file.creator in s'.procs
      && s'.procs[s.last.who].id == s.procs[s.last.who].id
      && s'.procs[s.last.file.creator].id == s.procs[s.last.file.creator].id
    ensures HowReleased(s', host) == HowReleased(s, host)
  {
  }

  /** Every step of every process is the action of the specification that `Meaning` names. */
  lemma StepRefines(s: State, step: Step, host: nat)
    requires Sound(s) && Can(s, step)
    ensures Happens(Meaning(s, step, host), See(s, host), See(Do(s, step), host))
  {
    hide Sound, Can, Do, Meaning, See, Happens;
    if Unlinks(step) {
      UnlinkRefines(s, step, host);
    } else {
      WriteRefines(s, step, host);
    }
  }

  /** The views a host has along a run. */
  function Views(s: State, run: seq<Step>, host: nat): (trace: seq<View>)
    requires Exec(s, run).Some?
    ensures |trace| == |run| + 1 && trace[0] == See(s, host)
    decreases |run|
  {
    [See(s, host)] + if run == [] then [] else Views(Do(s, run[0]), run[1..], host)
  }

  lemma {:induction false} ViewsFollow(s: State, run: seq<Step>, s': State, host: nat)
    requires Sound(s) && Exec(s, run) == Some(s')
    ensures Sound(s') && Views(s, run, host)[|run|] == See(s', host)
    ensures forall i | 0 <= i < |run| :: Next(Views(s, run, host)[i], Views(s, run, host)[i + 1])
    decreases |run|
  {
    hide Sound, Can, Do, See, Happens, Meaning;
    if run != [] {
      var s1, rest := Do(s, run[0]), run[1..];
      SoundStep(s, run[0]);
      StepRefines(s, run[0], host);
      ViewsFollow(s1, rest, s', host);
      var trace := Views(s, run, host);
      assert trace[1..] == Views(s1, rest, host);
      forall i | 0 <= i < |run| ensures Next(trace[i], trace[i + 1]) {
        if i > 0 { assert Next(Views(s1, rest, host)[i - 1], Views(s1, rest, host)[i - 1 + 1]); }
      }
    }
  }

  /**
    The refinement: what any host sees of any run is a behaviour of the
    specification, and every reachable lock file satisfies its invariants.
   */
  lemma LockFilesImplementTheSpecification(run: seq<Step>, s: State, host: nat)
    requires Exec(START, run) == Some(s)
    ensures Behaviour(Views(START, run, host)) && Views(START, run, host)[|run|] == See(s, host)
    ensures Safe(See(s, host))
  {
    hide Exec, Next, Safe, Inductive;
    ViewsFollow(START, run, s, host);
    SpecIsSafe(Views(START, run, host), |run|);
  }

  /** Under the rules of exclusion, no step takes a lock from its live owner. */
  lemma LiveOwnersKeepTheirLock(run: seq<Step>, s: State, step: Step, host: nat)
    requires Exec(START, run) == Some(s) && CarefulRun(START, run) && Can(s, step) && Careful(s, step)
    requires See(s, host).lock == HeldLocalLive && See(Do(s, step), host).lock == Free
    ensures Meaning(s, step, host) == ReleaseLocalLock && Inside(s, step.a) && s.file.value.creator == step.a
  {
    hide Exec, CarefulRun, Running;
    assert Inv(START);
    RunKeeps(START, run, s);
    if step.Undo? || step.Unlock? || step.Condemn? { assert ProcOk(s, step.a); }
  }
}
