/**
  The lock-file protocol of src/safeatomic/_locks.py for one target, as a
  transition system over any number of processes on any number of hosts.
  Exclusive create, payload write, inspection, liveness probe and unlink are
  separate steps, and every one of them may fail.
 */
module LockProtocol {
  import opened Basics

  type Actor = nat

  /** What the payload records of its writer. */
  datatype Ident = Ident(host: nat, pid: nat)

  /** `Empty`: created, payload not yet written.  `Damaged`: anything that does not parse. */
  datatype Payload = Empty | Doc(id: Ident) | Damaged

  /** `epoch` tells the inodes apart that the lock name has pointed to. */
  datatype LockFile = LockFile(epoch: nat, creator: Actor, payload: Payload)

  /** Why `is_stale_lock` said yes. */
  datatype Grounds = DeadPid | TooOld

  datatype Pc =
    | Idle
    | Created(epoch: nat)
    | Undoing(epoch: nat)
    | Holding(epoch: nat)
    | Releasing(epoch: nat)
    | Suspecting(epoch: nat, id: Ident)
    | Condemning(epoch: nat, grounds: Grounds)

  datatype Proc = Proc(id: Ident, alive: bool, pc: Pc)

  /** What an unlink of the lock name was for: one's own release, stale recovery, or an override. */
  datatype Purpose = Own | Recovery | Override

  /** A history variable: how the lock file went away last, seen at that moment. */
  datatype Release =
    | NoRelease
    | Unlinked(who: Actor, file: LockFile, creatorAlive: bool, purpose: Purpose)

  datatype State = State(file: Option<LockFile>, procs: map<Actor, Proc>, next: nat, last: Release)

  datatype Step =
    | Spawn(a: Actor, id: Ident)
    | Die(a: Actor)
    // try_acquire_lock
    | Create(a: Actor)
    | Contend(a: Actor)
    | CreateError(a: Actor)
    | WritePayload(a: Actor, short: bool)
    | FailPayload(a: Actor, left: Payload)
    | Undo(a: Actor, ok: bool)
    // release_lock
    | InspectOwn(a: Actor, readable: bool)
    | Unlock(a: Actor, ok: bool)
    // release_stale_lock
    | Suspect(a: Actor)
    | Probe(a: Actor, aged: bool)
    | Condemn(a: Actor, ok: bool)
    // force_release_lock, and the disk itself
    | Force(a: Actor)
    | Damage

  predicate Alive(s: State, a: Actor)
  {
    a in s.procs && s.procs[a].alive
  }

  /** `os.kill(pid, 0)` on the prober's own host finds a process. */
  predicate Running(s: State, id: Ident)
  {
    exists b | b in s.procs :: s.procs[b].alive && s.procs[b].id == id
  }

  function SetPc(s: State, a: Actor, pc: Pc): State
    requires a in s.procs
  {
    s.(procs := s.procs[a := s.procs[a].(pc := pc)])
  }

  /** An unlink by name: it removes whatever lock file is there now. */
  function Unlink(s: State, a: Actor, purpose: Purpose): State
  {
    if s.file.None? then s
    else s.(file := None, last := Unlinked(a, s.file.value, Alive(s, s.file.value.creator), purpose))
  }

  /** An age policy is the operator's decision, not a proof of death. */
  function RecoveryOrOverride(grounds: Grounds): Purpose
  {
    if grounds == DeadPid then Recovery else Override
  }

  /** A write through the creator's descriptor reaches the name only while it still points there. */
  function Fill(s: State, epoch: nat, payload: Payload): State
  {
    if s.file.Some? && s.file.value.epoch == epoch then s.(file := Some(s.file.value.(payload := payload))) else s
  }

  predicate Can(s: State, step: Step)
  {
    match step
    // the kernel gives no two running processes of a host the same pid
    case Spawn(a, id) => a !in s.procs && !Running(s, id)
    case Die(a) => Alive(s, a)
    case Create(a) => Alive(s, a) && s.procs[a].pc.Idle? && s.file.None?
    // the exclusive create finds a file there, possibly one's own, or fails for another reason
    case Contend(a) => Alive(s, a) && (s.procs[a].pc.Idle? || s.procs[a].pc.Holding?) && s.file.Some?
    case CreateError(a) => Alive(s, a) && (s.procs[a].pc.Idle? || s.procs[a].pc.Holding?)
    case WritePayload(a, _) => Alive(s, a) && s.procs[a].pc.Created?
    case FailPayload(a, left) =>
      Alive(s, a) && s.procs[a].pc.Created? && (left.Doc? ==> left.id == s.procs[a].id)
    case Undo(a, _) => Alive(s, a) && s.procs[a].pc.Undoing?
    case InspectOwn(a, _) => Alive(s, a) && (s.procs[a].pc.Idle? || s.procs[a].pc.Holding?)
    case Unlock(a, _) => Alive(s, a) && s.procs[a].pc.Releasing?
    case Suspect(a) => Alive(s, a) && s.procs[a].pc.Idle? && s.file.Some? && s.file.value.payload.Doc?
    case Probe(a, _) => Alive(s, a) && s.procs[a].pc.Suspecting?
    case Condemn(a, _) => Alive(s, a) && s.procs[a].pc.Condemning?
    case Force(a) => Alive(s, a)
    case Damage => s.file.Some? && !s.file.value.payload.Empty?
  }

  function Do(s: State, step: Step): State
    requires Can(s, step)
  {
    match step
    case Spawn(a, id) => s.(procs := s.procs[a := Proc(id, true, Idle)])
    case Die(a) => s.(procs := s.procs[a := s.procs[a].(alive := false)])
    case Create(a) =>
      SetPc(s, a, Created(s.next)).(file := Some(LockFile(s.next, a, Empty)), next := s.next + 1, last := NoRelease)
    case Contend(_) => s
    case CreateError(_) => s
    // `os.write` may be short; the code does not look
    case WritePayload(a, short) =>
      SetPc(Fill(s, s.procs[a].pc.epoch, if short then Damaged else Doc(s.procs[a].id)),
            a, Holding(s.procs[a].pc.epoch))
    case FailPayload(a, left) => SetPc(Fill(s, s.procs[a].pc.epoch, left), a, Undoing(s.procs[a].pc.epoch))
    case Undo(a, ok) => SetPc(if ok then Unlink(s, a, Own) else s, a, Idle)
    // not there, not readable, not parsable or not ours: release_lock returns False
    case InspectOwn(a, readable) =>
      SetPc(s, a, if readable && s.file.Some? && s.file.value.payload == Doc(s.procs[a].id)
                  then Releasing(s.file.value.epoch) else Idle)
    case Unlock(a, ok) => SetPc(if ok then Unlink(s, a, Own) else s, a, Idle)
    case Suspect(a) => SetPc(s, a, Suspecting(s.file.value.epoch, s.file.value.payload.id))
    case Probe(a, aged) =>
      var pc := s.procs[a].pc;
      SetPc(s, a, if pc.id.host == s.procs[a].id.host && !Running(s, pc.id) then Condemning(pc.epoch, DeadPid)
                  else if aged then Condemning(pc.epoch, TooOld)
                  else Idle)
    case Condemn(a, ok) =>
      SetPc(if ok then Unlink(s, a, RecoveryOrOverride(s.procs[a].pc.grounds)) else s, a, Idle)
    case Force(a) => Unlink(s, a, Override)
    case Damage => Fill(s, s.file.value.epoch, Damaged)
  }

  function Exec(s: State, run: seq<Step>): Option<State>
    decreases |run|
  {
    if run == [] then Some(s)
    else if Can(s, run[0]) then Exec(Do(s, run[0]), run[1..])
    else None
  }

  const START := State(None, map[], 0, NoRelease)

  // ----- exclusion ------------------------------------------------------------------------

  /** Between its own successful exclusive create and the end of its own release. */
  predicate Inside(s: State, a: Actor)
  {
    Alive(s, a) && var pc := s.procs[a].pc; pc.Created? || pc.Undoing? || pc.Holding? || pc.Releasing?
  }

  predicate Recovering(s: State, a: Actor)
  {
    Alive(s, a) && (s.procs[a].pc.Suspecting? || s.procs[a].pc.Condemning?)
  }

  /** What exclusion asks of the schedule. */
  datatype Rule =
    | NoOverride      // no forced release and no age policy
    | FreshPids       // no pid of a host is used twice
    | OneRecovery     // one stale recovery in flight at a time
    | SteadyCheck     // nobody replaces the lock file between a recovery's read and its probe

  predicate Respects(s: State, step: Step, rule: Rule)
    requires Can(s, step)
  {
    match rule
    case NoOverride => !step.Force? && !(step.Probe? && step.aged)
    case FreshPids => step.Spawn? ==> forall b | b in s.procs :: s.procs[b].id != step.id
    case OneRecovery => step.Suspect? ==> forall b | b in s.procs && b != step.a :: !Recovering(s, b)
    case SteadyCheck => step.Probe? ==> s.file.Some? && s.file.value.epoch == s.procs[step.a].pc.epoch
  }

  predicate Careful(s: State, step: Step)
    requires Can(s, step)
  {
    Respects(s, step, NoOverride) && Respects(s, step, FreshPids)
    && Respects(s, step, OneRecovery) && Respects(s, step, SteadyCheck)
  }

  predicate RunRespects(s: State, run: seq<Step>, rule: Rule)
    requires Exec(s, run).Some?
    decreases |run|
  {
    run == [] || (Respects(s, run[0], rule) && RunRespects(Do(s, run[0]), run[1..], rule))
  }

  predicate CarefulRun(s: State, run: seq<Step>)
    requires Exec(s, run).Some?
  {
    forall rule: Rule :: RunRespects(s, run, rule)
  }

  ghost predicate FileOk(s: State, f: LockFile)
  {
    && f.creator in s.procs && f.epoch < s.next
    && (f.payload.Doc? ==> f.payload.id == s.procs[f.creator].id)
  }

  /** A process inside still has its own lock file under the lock name; a condemned file has a dead creator. */
  ghost predicate ProcOk(s: State, a: Actor)
    requires a in s.procs
  {
    var p := s.procs[a];
    p.alive ==>
      match p.pc
      case Idle => true
      case Created(e) => OwnsFile(s, a, e)
      case Undoing(e) => OwnsFile(s, a, e)
      case Holding(e) => OwnsFile(s, a, e)
      case Releasing(e) => OwnsFile(s, a, e)
      case Suspecting(e, id) =>
        e < s.next
        && (s.file.Some? && s.file.value.epoch == e ==>
              s.file.value.creator in s.procs && s.procs[s.file.value.creator].id == id)
      case Condemning(e, g) =>
        s.file.Some? && s.file.value.epoch == e && !Alive(s, s.file.value.creator)
  }

  ghost predicate OwnsFile(s: State, a: Actor, epoch: nat)
  {
    s.file.Some? && s.file.value.epoch == epoch && s.file.value.creator == a
  }

  ghost predicate Inv(s: State)
  {
    && (forall a, b | a in s.procs && b in s.procs && s.procs[a].id == s.procs[b].id :: a == b)
    && (s.file.Some? ==> FileOk(s, s.file.value))
    && (forall a | a in s.procs :: ProcOk(s, a))
    && (forall a, b | a in s.procs && b in s.procs && Recovering(s, a) && Recovering(s, b) :: a == b)
  }

  lemma ProcIsOk(s: State, a: Actor)
    requires Inv(s) && a in s.procs
    ensures ProcOk(s, a)
  {
  }

  /** A process relies on the lock file and on its creator's identity and death, nothing else. */
  lemma ProcRelies(s: State, s': State, b: Actor)
    requires b in s.procs && b in s'.procs && s'.procs[b] == s.procs[b] && ProcOk(s, b)
    requires s'.file == s.file && s'.next == s.next
    requires s.file.Some? ==>
      var c := s.file.value.creator;
      c in s.procs && c in s'.procs && s'.procs[c].id == s.procs[c].id && (Alive(s', c) ==> Alive(s, c))
    ensures ProcOk(s', b)
  {
  }

  lemma RestingIsOk(s: State, a: Actor)
    requires a in s.procs && (s.procs[a].alive ==> s.procs[a].pc.Idle?)
    ensures ProcOk(s, a)
  {
  }

  lemma SpawnKeeps(s: State, a: Actor, id: Ident)
    requires Inv(s) && Can(s, Spawn(a, id)) && Careful(s, Spawn(a, id))
    ensures Inv(Do(s, Spawn(a, id)))
  {
    var s' := Do(s, Spawn(a, id));
    RestingIsOk(s', a);
    hide ProcOk, Running;
    forall b | b in s.procs ensures ProcOk(s', b) {
      ProcRelies(s, s', b);
    }
  }

  lemma DieKeeps(s: State, a: Actor)
    requires Inv(s) && Can(s, Die(a))
    ensures Inv(Do(s, Die(a)))
  {
    var s' := Do(s, Die(a));
    RestingIsOk(s', a);
    hide ProcOk, Running;
    forall b | b in s.procs && b != a ensures ProcOk(s', b) {
      ProcRelies(s, s', b);
    }
  }

  lemma CreateKeeps(s: State, a: Actor)
    requires Inv(s) && Can(s, Create(a))
    ensures Inv(Do(s, Create(a)))
  {
    var s' := Do(s, Create(a));
    forall b | b in s'.procs ensures ProcOk(s', b) {
      ProcIsOk(s, b);
    }
  }

  /** Changing the content of the lock file, by its creator or by damage. */
  lemma FillKeeps(s: State, payload: Payload)
    requires Inv(s) && s.file.Some?
    requires payload.Doc? ==> s.file.value.creator in s.procs && payload.id == s.procs[s.file.value.creator].id
    ensures Inv(Fill(s, s.file.value.epoch, payload))
  {
    var s' := Fill(s, s.file.value.epoch, payload);
    forall b | b in s'.procs ensures ProcOk(s', b) {
      ProcIsOk(s, b);
    }
  }

  lemma PayloadKeeps(s: State, a: Actor, payload: Payload, pc: Pc)
    requires Inv(s) && Alive(s, a) && s.procs[a].pc.Created?
    requires pc == Holding(s.procs[a].pc.epoch) || pc == Undoing(s.procs[a].pc.epoch)
    requires payload.Doc? ==> payload.id == s.procs[a].id
    ensures Inv(SetPc(Fill(s, s.procs[a].pc.epoch, payload), a, pc))
  {
    ProcIsOk(s, a);
    hide Inv;
    FillKeeps(s, payload);
    PcKeeps(Fill(s, s.procs[a].pc.epoch, payload), a, pc);
  }

  /** The lock file goes: nobody else can have been inside, and no other recovery is in flight. */
  lemma UnlinkKeeps(s: State, a: Actor, purpose: Purpose)
    requires Inv(s) && (Inside(s, a) || (Alive(s, a) && s.procs[a].pc.Condemning?))
    ensures Inv(SetPc(Unlink(s, a, purpose), a, Idle))
  {
    ProcIsOk(s, a);
    var s' := SetPc(Unlink(s, a, purpose), a, Idle);
    forall b | b in s'.procs ensures ProcOk(s', b) {
      ProcIsOk(s, b);
    }
  }

  /** A process that only changes its own mind. */
  lemma PcKeeps(s: State, a: Actor, pc: Pc)
    requires Inv(s) && a in s.procs && ProcOk(SetPc(s, a, pc), a)
    requires pc.Suspecting? || pc.Condemning? ==> forall b | b in s.procs && b != a :: !Recovering(s, b)
    ensures Inv(SetPc(s, a, pc))
  {
    hide ProcOk, Running;
    var s' := SetPc(s, a, pc);
    forall b | b in s.procs && b != a ensures ProcOk(s', b) {
      ProcRelies(s, s', b);
    }
  }

  lemma LookKeeps(s: State, step: Step)
    requires step.InspectOwn? || step.Suspect?
    requires Inv(s) && Can(s, step) && Careful(s, step)
    ensures Inv(Do(s, step))
  {
    if s.file.Some? { CreatorIsKnown(s); }
    LiveIdsDiffer(s);
    hide Inv;
    PcKeeps(s, step.a, Do(s, step).procs[step.a].pc);
  }

  lemma CreatorIsKnown(s: State)
    requires Inv(s) && s.file.Some?
    ensures FileOk(s, s.file.value)
  {
  }

  lemma LiveIdsDiffer(s: State)
    requires Inv(s)
    ensures forall a, b | a in s.procs && b in s.procs && s.procs[a].id == s.procs[b].id :: a == b
  {
  }

  /** The probe found no process: with unchanged lock file and unique pids its creator is dead. */
  lemma ProbeKeeps(s: State, a: Actor)
    requires Inv(s) && Can(s, Probe(a, false)) && Careful(s, Probe(a, false))
    ensures Inv(Do(s, Probe(a, false)))
  {
    ProcIsOk(s, a);
    OnlyRecovery(s, a);
    CreatorIsKnown(s);
    hide Inv;
    PcKeeps(s, a, Do(s, Probe(a, false)).procs[a].pc);
  }

  lemma OnlyRecovery(s: State, a: Actor)
    requires Inv(s) && Recovering(s, a)
    ensures forall b | b in s.procs && b != a :: !Recovering(s, b)
  {
  }

  lemma StepKeeps(s: State, step: Step)
    requires Inv(s) && Can(s, step) && Careful(s, step)
    ensures Inv(Do(s, step))
  {
    hide Inv;
    match step {
      case Create(a) => CreateKeeps(s, a);
      case Contend(_) =>
      case CreateError(_) =>
      case WritePayload(a, short) =>
        PayloadKeeps(s, a, if short then Damaged else Doc(s.procs[a].id), Holding(s.procs[a].pc.epoch));
      case FailPayload(a, left) => PayloadKeeps(s, a, left, Undoing(s.procs[a].pc.epoch));
      case Damage => FillKeeps(s, Damaged);
      case Undo(a, _) => UnlinkKeeps(s, a, Own); PcKeeps(s, a, Idle);
      case Unlock(a, _) => UnlinkKeeps(s, a, Own); PcKeeps(s, a, Idle);
      case Condemn(a, _) => UnlinkKeeps(s, a, RecoveryOrOverride(s.procs[a].pc.grounds)); PcKeeps(s, a, Idle);
      case Spawn(a, id) => SpawnKeeps(s, a, id);
      case Die(a) => DieKeeps(s, a);
      case Probe(a, _) => ProbeKeeps(s, a);
      case _ => LookKeeps(s, step);
    }
  }

  lemma {:induction false} RunKeeps(s: State, run: seq<Step>, s': State)
    requires Inv(s) && Exec(s, run) == Some(s') && CarefulRun(s, run)
    ensures Inv(s')
    decreases |run|
  {
    hide Inv, Can, Do, Respects;
    if run != [] {
      forall rule: Rule ensures Respects(s, run[0], rule) && RunRespects(Do(s, run[0]), run[1..], rule) {
        assert RunRespects(s, run, rule);
      }
      StepKeeps(s, run[0]);
      RunKeeps(Do(s, run[0]), run[1..], s');
    }
  }

  /**
    Mutual exclusion, with process deaths, failing system calls, damaged
    payloads and stale recovery, for any number of processes.
   */
  lemma Exclusion(run: seq<Step>, s: State, a: Actor, b: Actor)
    requires Exec(START, run) == Some(s) && CarefulRun(START, run)
    requires Inside(s, a) && Inside(s, b)
    ensures a == b
    ensures s.file.Some? && s.file.value.creator == a
  {
    RunKeeps(START, run, s);
    assert ProcOk(s, a) && ProcOk(s, b);
  }

  // ----- every rule is needed -------------------------------------------------------------------

  lemma {:induction false} RunAppend(s: State, run: seq<Step>, s1: State, step: Step)
    requires Exec(s, run) == Some(s1) && Can(s1, step)
    ensures Exec(s, run + [step]) == Some(Do(s1, step))
    ensures forall rule: Rule | RunRespects(s, run, rule) && Respects(s1, step, rule) ::
      RunRespects(s, run + [step], rule)
    decreases |run|
  {
    hide Do, Can, Respects;
    if run == [] {
      assert run + [step] == [step];
      assert Exec(Do(s, step), [step][1..]) == Some(Do(s, step));
    } else {
      assert (run + [step])[1..] == run[1..] + [step];
      RunAppend(Do(s, run[0]), run[1..], s1, step);
    }
  }

  /** A run from the start that respects every rule but `broken`. */
  predicate AllBut(run: seq<Step>, s: State, broken: Rule)
  {
    Exec(START, run) == Some(s) && forall rule: Rule | rule != broken :: RunRespects(START, run, rule)
  }

  lemma Then(run: seq<Step>, s: State, broken: Rule, step: Step) returns (run': seq<Step>, s': State)
    requires AllBut(run, s, broken) && Can(s, step)
    requires forall rule: Rule | rule != broken :: Respects(s, step, rule)
    ensures run' == run + [step] && s' == Do(s, step) && AllBut(run', s', broken)
  {
    run', s' := run + [step], Do(s, step);
    hide Do, Can, Respects;
    RunAppend(START, run, s, step);
  }

  /** Process `a` takes the lock, from a state in which it is free. */
  lemma Takes(run: seq<Step>, s: State, broken: Rule, a: Actor) returns (run': seq<Step>, s': State)
    requires AllBut(run, s, broken) && Alive(s, a) && s.procs[a].pc.Idle? && s.file.None?
    ensures AllBut(run', s', broken) && run' == run + [Create(a), WritePayload(a, false)]
    ensures s'.file == Some(LockFile(s.next, a, Doc(s.procs[a].id))) && s'.next == s.next + 1
    ensures s'.procs == s.procs[a := s.procs[a].(pc := Holding(s.next))]
  {
    hide AllBut;
    run', s' := Then(run, s, broken, Create(a));
    run', s' := Then(run', s', broken, WritePayload(a, false));
  }

  /** The recovery of `r` finds the holder dead. */
  lemma Condemns(run: seq<Step>, s: State, broken: Rule, r: Actor) returns (run': seq<Step>, s': State)
    requires AllBut(run, s, broken) && Alive(s, r) && s.procs[r].pc.Idle?
    requires s.file.Some? && s.file.value.payload.Doc?
    requires s.file.value.payload.id.host == s.procs[r].id.host && !Running(s, s.file.value.payload.id)
    requires broken == OneRecovery || forall b | b in s.procs && b != r :: !Recovering(s, b)
    ensures AllBut(run', s', broken) && s'.file == s.file && s'.next == s.next
    ensures s'.procs == s.procs[r := s.procs[r].(pc := Condemning(s.file.value.epoch, DeadPid))]
  {
    hide AllBut;
    run', s' := Then(run, s, broken, Suspect(r));
    assert forall b | b in s'.procs ::
        b in s.procs && s'.procs[b].id == s.procs[b].id && s'.procs[b].alive == s.procs[b].alive;
    run', s' := Then(run', s', broken, Probe(r, false));
  }

  lemma Nothing(broken: Rule)
    ensures AllBut([], START, broken)
  {
  }

  /** Processes 1 to 4 on host 0; process `a` has pid `a`. */
  lemma FourProcesses(broken: Rule) returns (run: seq<Step>, s: State)
    ensures AllBut(run, s, broken) && s.file == None && s.next == 0 && forall a :: Force(a) !in run
    ensures s.procs == map[1 := Proc(Ident(0, 1), true, Idle), 2 := Proc(Ident(0, 2), true, Idle),
                           3 := Proc(Ident(0, 3), true, Idle), 4 := Proc(Ident(0, 4), true, Idle)]
  {
    hide AllBut;
    run, s := [], START;
    Nothing(broken);
    run, s := Then(run, s, broken, Spawn(1, Ident(0, 1)));
    run, s := Then(run, s, broken, Spawn(2, Ident(0, 2)));
    run, s := Then(run, s, broken, Spawn(3, Ident(0, 3)));
    run, s := Then(run, s, broken, Spawn(4, Ident(0, 4)));
  }

  /** Process 4 took the lock and died. */
  lemma DeadHolder(broken: Rule) returns (run: seq<Step>, s: State)
    ensures AllBut(run, s, broken) && s.file == Some(LockFile(0, 4, Doc(Ident(0, 4)))) && s.next == 1
    ensures s.procs == map[1 := Proc(Ident(0, 1), true, Idle), 2 := Proc(Ident(0, 2), true, Idle),
                           3 := Proc(Ident(0, 3), true, Idle), 4 := Proc(Ident(0, 4), false, Holding(0))]
  {
    hide AllBut;
    run, s := FourProcesses(broken);
    run, s := Takes(run, s, broken, 4);
    run, s := Then(run, s, broken, Die(4));
  }

  lemma OverrideBreaks() returns (run: seq<Step>, s: State)
    ensures AllBut(run, s, NoOverride) && Inside(s, 1) && Inside(s, 2)
  {
    hide AllBut;
    run, s := FourProcesses(NoOverride);
    run, s := Takes(run, s, NoOverride, 1);
    run, s := Then(run, s, NoOverride, Force(3));
    run, s := Takes(run, s, NoOverride, 2);
  }

  /** The holder is alive and merely slow, and an age policy condemns it. */
  lemma SlowHolderCondemned() returns (run: seq<Step>, s: State)
    ensures AllBut(run, s, NoOverride) && s.file.Some? && s.next == 1 && forall a :: Force(a) !in run
    ensures s.procs == map[1 := Proc(Ident(0, 1), true, Holding(0)), 2 := Proc(Ident(0, 2), true, Idle),
                           3 := Proc(Ident(0, 3), true, Condemning(0, TooOld)), 4 := Proc(Ident(0, 4), true, Idle)]
  {
    hide AllBut;
    run, s := FourProcesses(NoOverride);
    run, s := Takes(run, s, NoOverride, 1);
    run, s := Then(run, s, NoOverride, Suspect(3));
    assert Running(s, Ident(0, 1)) by { assert 1 in s.procs && s.procs[1].alive; }
    run, s := Then(run, s, NoOverride, Probe(3, true));
  }

  /** An age policy alone has the same effect as a forced release. */
  lemma AgePolicyBreaks() returns (run: seq<Step>, s: State)
    ensures AllBut(run, s, NoOverride) && Inside(s, 1) && Inside(s, 2)
    ensures forall a :: Force(a) !in run
  {
    hide AllBut, Running;
    run, s := SlowHolderCondemned();
    run, s := Then(run, s, NoOverride, Condemn(3, true));
    run, s := Takes(run, s, NoOverride, 2);
  }

  /** Two recoveries judge the same dead holder; the slower one unlinks the next holder's lock. */
  lemma TwoRecoveriesBreak() returns (run: seq<Step>, s: State)
    ensures AllBut(run, s, OneRecovery) && Inside(s, 1) && Inside(s, 2)
  {
    hide AllBut;
    run, s := DeadHolder(OneRecovery);
    run, s := Condemns(run, s, OneRecovery, 1);
    run, s := Condemns(run, s, OneRecovery, 3);
    hide Running;
    run, s := Then(run, s, OneRecovery, Condemn(1, true));
    run, s := Takes(run, s, OneRecovery, 1);
    run, s := Then(run, s, OneRecovery, Condemn(3, true));
    run, s := Takes(run, s, OneRecovery, 2);
  }

  /** Process 4 held the lock, was read by process 3's recovery, released it and died; process 1 holds it now. */
  lemma ReadBeforeTheRelease() returns (run: seq<Step>, s: State)
    ensures AllBut(run, s, SteadyCheck) && s.file.Some? && s.file.value.epoch == 1 && s.next == 2
    ensures s.procs == map[1 := Proc(Ident(0, 1), true, Holding(1)), 2 := Proc(Ident(0, 2), true, Idle),
                           3 := Proc(Ident(0, 3), true, Suspecting(0, Ident(0, 4))), 4 := Proc(Ident(0, 4), false,
                               Idle)]
  {
    hide AllBut, Running;
    run, s := FourProcesses(SteadyCheck);
    run, s := Takes(run, s, SteadyCheck, 4);
    run, s := Then(run, s, SteadyCheck, Suspect(3));
    run, s := Then(run, s, SteadyCheck, InspectOwn(4, true));
    run, s := Then(run, s, SteadyCheck, Unlock(4, true));
    run, s := Takes(run, s, SteadyCheck, 1);
    run, s := Then(run, s, SteadyCheck, Die(4));
  }

  /** The holder releases and dies between the read and the probe; the next holder pays for it. */
  lemma UnsteadyCheckBreaks() returns (run: seq<Step>, s: State)
    ensures AllBut(run, s, SteadyCheck) && Inside(s, 1) && Inside(s, 2)
  {
    hide AllBut;
    run, s := ReadBeforeTheRelease();
    run, s := Then(run, s, SteadyCheck, Probe(3, false));
    run, s := Then(run, s, SteadyCheck, Condemn(3, true));
    run, s := Takes(run, s, SteadyCheck, 2);
  }

  /** A new process with the dead holder's pid has found the dead holder's condemned lock file to be its own. */
  lemma NewcomerFindsItsLock() returns (run: seq<Step>, s: State)
    ensures AllBut(run, s, FreshPids) && s.file == Some(LockFile(0, 4, Doc(Ident(0, 4)))) && s.next == 1
    ensures s.procs == map[1 := Proc(Ident(0, 1), true, Idle), 2 := Proc(Ident(0, 2), true, Idle),
                           3 := Proc(Ident(0, 3), true, Condemning(0, DeadPid)), 4 := Proc(Ident(0, 4), false,
                               Holding(0)),
                           5 := Proc(Ident(0, 4), true, Releasing(0))]
  {
    hide AllBut;
    run, s := DeadHolder(FreshPids);
    run, s := Condemns(run, s, FreshPids, 3);
    run, s := Then(run, s, FreshPids, Spawn(5, Ident(0, 4)));
    run, s := Then(run, s, FreshPids, InspectOwn(5, true));
  }

  /** It takes the dead holder's lock for its own, and unlinks the next holder's. */
  lemma ReusedPidBreaks() returns (run: seq<Step>, s: State)
    ensures AllBut(run, s, FreshPids) && Inside(s, 1) && Inside(s, 2)
  {
    hide AllBut, Running;
    run, s := NewcomerFindsItsLock();
    run, s := Then(run, s, FreshPids, Condemn(3, true));
    run, s := Takes(run, s, FreshPids, 1);
    run, s := Then(run, s, FreshPids, Unlock(5, true));
    run, s := Takes(run, s, FreshPids, 2);
  }

  /** None of the four rules can be dropped: without it two processes are inside at once. */
  lemma EveryRuleIsNeeded(rule: Rule) returns (run: seq<Step>, s: State)
    ensures Exec(START, run) == Some(s) && Inside(s, 1) && Inside(s, 2)
    ensures forall r: Rule | r != rule :: RunRespects(START, run, r)
  {
    match rule {
      case NoOverride => run, s := OverrideBreaks();
      case FreshPids => run, s := ReusedPidBreaks();
      case OneRecovery => run, s := TwoRecoveriesBreak();
      case SteadyCheck => run, s := UnsteadyCheckBreaks();
    }
  }
}
