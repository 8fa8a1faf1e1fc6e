/**
  Stale recovery (`is_stale_lock`, `release_stale_lock`): what it takes to
  condemn a lock file, when the file must go, and whose file an unlink can hit.
  None of this needs the rules of exclusion unless it says so.
 */
module StaleLocks {
  import opened Basics
  import opened LockProtocol
  import opened LockSpec

  // ----- what a process knows of the lock file it means to unlink ----------------------------

  /** The lock file a process is about to unlink or to judge, if it is still there, is what the process takes it for. */
  ghost predicate Judged(s: State, a: Actor)
    requires a in s.procs
  {
    var p := s.procs[a];
    match p.pc
    case Suspecting(e, id) => e < s.next && (HasOwnFile(s, e) ==> IdOf(s) == Some(id))
    case Condemning(e, grounds) =>
      e < s.next && (HasOwnFile(s, e) && grounds == DeadPid ==>
        IdOf(s).Some? && IdOf(s).value.host == p.id.host && !Alive(s, s.file.value.creator))
    case Created(e) => e < s.next && (HasOwnFile(s, e) ==> s.file.value.creator == a)
    case Undoing(e) => e < s.next && (HasOwnFile(s, e) ==> s.file.value.creator == a)
    case Releasing(e) => e < s.next && (HasOwnFile(s, e) ==> IdOf(s) == Some(p.id))
    case _ => true
  }

  /** Who really created the lock file. */
  function IdOf(s: State): Option<Ident>
  {
    if s.file.Some? && s.file.value.creator in s.procs then Some(s.procs[s.file.value.creator].id) else None
  }

  ghost predicate Known(s: State)
  {
    && (s.file.Some? ==>
          var f := s.file.value;
          f.creator in s.procs && f.epoch < s.next && (f.payload.Doc? ==> f.payload.id == s.procs[f.creator].id))
    && forall a | a in s.procs :: Judged(s, a)
  }

  /** Steps of others: the file stays, goes, or is a new one, and the dead stay dead. */
  lemma JudgedStays(s: State, s': State, b: Actor)
    requires b in s.procs && b in s'.procs && Judged(s, b) && s'.procs[b].pc == s.procs[b].pc
    requires s'.procs[b].id == s.procs[b].id && s.next <= s'.next
    requires s.file.Some? ==> s.file.value.creator in s.procs
    requires s'.file.Some? ==>
      var f := s'.file.value;
      if s.file.Some? && s.file.value.epoch == f.epoch then
        && f.creator == s.file.value.creator && f.creator in s'.procs
        && s'.procs[f.creator].id == s.procs[f.creator].id && (Alive(s', f.creator) ==> Alive(s, f.creator))
      else f.epoch >= s.next
    ensures Judged(s', b)
  {
  }

  lemma KnownStep(s: State, step: Step)
    requires Known(s) && Can(s, step)
    ensures Known(Do(s, step))
  {
    var s' := Do(s, step);
    if step.Probe? && !Running(s, s.procs[step.a].pc.id) && s.file.Some? && Alive(s, s.file.value.creator) {
      assert s.procs[s.file.value.creator].id != s.procs[step.a].pc.id;
    }
    hide Running;
    if s.file.Some? { assert s.file.value.creator in s.procs; }
    forall b | b in s'.procs ensures Judged(s', b) {
      if b in s.procs && s'.procs[b].pc == s.procs[b].pc {
        hide Judged;
        JudgedStays(s, s', b);
      } else if b in s.procs {
        assert Judged(s, b);
      }
    }
  }

  lemma {:induction false} KnownRun(s: State, run: seq<Step>, s': State)
    requires Known(s) && Exec(s, run) == Some(s')
    ensures Known(s')
    decreases |run|
  {
    hide Known, Can, Do;
    if run != [] {
      KnownStep(s, run[0]);
      KnownRun(Do(s, run[0]), run[1..], s');
    }
  }

  // ----- whose lock file an unlink can hit ------------------------------------------------------

  /** The process has this lock file in mind: it does not unlink by order, by age, or a file that came later. */
  predicate Aimed(s: State, step: Step)
    requires Can(s, step) && !step.Damage? && s.file.Some?
  {
    match step
    case Undo(a, _) => s.procs[a].pc.epoch == s.file.value.epoch
    case Unlock(a, _) => s.procs[a].pc.epoch == s.file.value.epoch
    case Condemn(a, _) => s.procs[a].pc.epoch == s.file.value.epoch && s.procs[a].pc.grounds == DeadPid
    case _ => false
  }

  predicate Removes(s: State, step: Step)
    requires Can(s, step)
  {
    s.file.Some? && Do(s, step).file.None?
  }

  /**
    In every run, whatever the schedule: a lock file goes by a forced release,
    by an age policy, because an unlink hits a file that replaced the one it
    was meant for, or by a process on its creator's host: the creator, a
    process with the creator's pid, or a recovery after the creator's death.
   */
  lemma WhoseLockGoes(run: seq<Step>, s: State, step: Step)
    requires Exec(START, run) == Some(s) && Can(s, step) && Removes(s, step)
    ensures step.Undo? || step.Unlock? || step.Condemn? || step.Force?
    ensures Aimed(s, step) ==>
      var c := s.file.value.creator;
      && c in s.procs && step.a in s.procs && s.procs[c].id.host == s.procs[step.a].id.host
      && (step.Undo? ==> c == step.a)
      && (step.Unlock? ==> s.procs[c].id == s.procs[step.a].id)
      && (step.Condemn? ==> !Alive(s, c))
  {
    hide Exec, Running;
    assert Known(START);
    KnownRun(START, run, s);
    if !step.Damage? && step.a in s.procs { assert Judged(s, step.a); }
  }

  /** So a lock of another host is safe from every unlink that is aimed at it. */
  lemma OtherHostsKeepTheirLocks(run: seq<Step>, s: State, step: Step)
    requires Exec(START, run) == Some(s) && Can(s, step) && Removes(s, step)
    requires var c := s.file.value.creator; c in s.procs && !OnHost(s, step.a, s.procs[c].id.host)
    ensures !Aimed(s, step)
  {
    hide Exec, Can, Do, Aimed;
    WhoseLockGoes(run, s, step);
  }

  ghost predicate NoneByAge(s: State)
  {
    forall a | a in s.procs && s.procs[a].pc.Condemning? :: s.procs[a].pc.grounds == DeadPid
  }

  lemma {:induction false} NoAgePolicy(s: State, run: seq<Step>, s': State)
    requires NoneByAge(s) && Exec(s, run) == Some(s') && RunRespects(s, run, NoOverride)
    ensures NoneByAge(s')
    decreases |run|
  {
    hide Running;
    if run != [] {
      assert NoneByAge(Do(s, run[0])) by { assert Respects(s, run[0], NoOverride); }
      NoAgePolicy(Do(s, run[0]), run[1..], s');
    }
  }

  /** Under the rules of exclusion every unlink is aimed: a lock goes by its creator, or on its host after its death. */
  lemma RulesAim(run: seq<Step>, s: State, step: Step)
    requires Exec(START, run) == Some(s) && CarefulRun(START, run)
    requires Can(s, step) && Careful(s, step) && Removes(s, step)
    ensures var c := s.file.value.creator;
      && Aimed(s, step) && c in s.procs && OnHost(s, step.a, s.procs[c].id.host)
      && (if step.Condemn? then !Alive(s, c) else c == step.a)
  {
    assert RunRespects(START, run, NoOverride);
    hide Exec, Running, CarefulRun;
    assert Inv(START);
    RunKeeps(START, run, s);
    ProcIsOk(s, step.a);
    NoAgePolicy(START, run, s);
    WhoseLockGoes(run, s, step);
  }

  // ----- only its own host's locks are condemned by pid ------------------------------------------

  /** At step `i` process `a` read a lock file of this epoch with this payload. */
  ghost predicate ReadAt(run: seq<Step>, i: nat, a: Actor, epoch: nat, id: Ident)
  {
    && i < |run| && run[i] == Suspect(a) && Exec(START, run[..i]).Some?
    && var s := Exec(START, run[..i]).value;
      s.file.Some? && s.file.value.epoch == epoch && s.file.value.payload == Doc(id)
  }

  /** At step `i` the probe of process `a` found no process with this identity running. */
  ghost predicate ProbedDeadAt(run: seq<Step>, i: nat, a: Actor, id: Ident)
  {
    && i < |run| && run[i].Probe? && run[i].a == a && Exec(START, run[..i]).Some?
    && var s := Exec(START, run[..i]).value;
      forall b | b in s.procs && s.procs[b].alive :: s.procs[b].id != id
  }

  /** What a recovery goes by was seen in the run. */
  ghost predicate OnEvidence(run: seq<Step>, s: State, a: Actor)
    requires a in s.procs
  {
    match s.procs[a].pc
    case Suspecting(e, id) => exists i: nat :: ReadAt(run, i, a, e, id)
    case Condemning(e, DeadPid) =>
      exists i: nat, j: nat, id: Ident ::
        i < j && ReadAt(run, i, a, e, id) && ProbedDeadAt(run, j, a, id) && id.host == s.procs[a].id.host
    case _ => true
  }

  lemma {:induction false} ExecSnoc(s: State, run: seq<Step>, step: Step, s': State) returns (s1: State)
    requires Exec(s, run + [step]) == Some(s')
    ensures Exec(s, run) == Some(s1) && Can(s1, step) && s' == Do(s1, step)
    decreases |run|
  {
    hide Can, Do;
    if run == [] {
      assert run + [step] == [step];
      assert [step][1..] == [];
      s1 := s;
    } else {
      assert (run + [step])[1..] == run[1..] + [step];
      s1 := ExecSnoc(Do(s, run[0]), run[1..], step, s');
    }
  }

  lemma EvidenceLasts(run: seq<Step>, step: Step, i: nat, a: Actor, epoch: nat, id: Ident)
    ensures ReadAt(run, i, a, epoch, id) ==> ReadAt(run + [step], i, a, epoch, id)
    ensures ProbedDeadAt(run, i, a, id) ==> ProbedDeadAt(run + [step], i, a, id)
  {
    if i < |run| { assert (run + [step])[..i] == run[..i]; }
  }

  /** Evidence there was is still there. */
  lemma EvidenceStays(run: seq<Step>, s: State, step: Step, s': State, a: Actor)
    requires a in s.procs && a in s'.procs && s'.procs[a].pc == s.procs[a].pc && s'.procs[a].id == s.procs[a].id
    requires OnEvidence(run, s, a)
    ensures OnEvidence(run + [step], s', a)
  {
    hide ReadAt, ProbedDeadAt;
    match s.procs[a].pc {
      case Suspecting(e, id) =>
        var i: nat :| ReadAt(run, i, a, e, id);
        EvidenceLasts(run, step, i, a, e, id);
      case Condemning(e, DeadPid) =>
        var i: nat, j: nat, id: Ident :|
          i < j && ReadAt(run, i, a, e, id) && ProbedDeadAt(run, j, a, id) && id.host == s.procs[a].id.host;
        EvidenceLasts(run, step, i, a, e, id);
        EvidenceLasts(run, step, j, a, e, id);
      case _ =>
    }
  }

  /** Evidence comes from the read, and from the probe after it. */
  lemma EvidenceComes(run: seq<Step>, s: State, step: Step, a: Actor)
    requires Exec(START, run) == Some(s) && Can(s, step) && a in s.procs && OnEvidence(run, s, a)
    requires Do(s, step).procs[a].pc != s.procs[a].pc
    ensures OnEvidence(run + [step], Do(s, step), a)
  {
    var run', n := run + [step], |run|;
    assert run'[..n] == run && run'[n] == step;
    if step == Suspect(a) {
      assert ReadAt(run', n, a, s.file.value.epoch, s.file.value.payload.id);
    } else if step.Probe? && step.a == a {
      var e, id := s.procs[a].pc.epoch, s.procs[a].pc.id;
      if id.host == s.procs[a].id.host && !Running(s, id) {
        var i: nat :| ReadAt(run, i, a, e, id);
        EvidenceLasts(run, step, i, a, e, id);
        assert ProbedDeadAt(run', n, a, id);
      }
    }
  }

  lemma Newcomer(run: seq<Step>, s: State, step: Step, a: Actor)
    requires Can(s, step) && a !in s.procs && a in Do(s, step).procs
    ensures OnEvidence(run, Do(s, step), a)
  {
    hide Running;
  }

  /**
    In every run, whatever the schedule: a recovery that condemns a lock by
    its pid has read a payload of its own host, and has found no process with
    that pid afterwards.  No lock of another host is ever condemned by pid.
   */
  lemma {:induction false} CondemnsOnEvidence(run: seq<Step>, s: State)
    requires Exec(START, run) == Some(s)
    ensures forall a | a in s.procs :: OnEvidence(run, s, a)
    decreases |run|
  {
    hide OnEvidence;
    if run != [] {
      var front, step := run[..|run| - 1], run[|run| - 1];
      assert front + [step] == run;
      hide Exec;
      var s1 := ExecSnoc(START, front, step, s);
      CondemnsOnEvidence(front, s1);
      forall a | a in s.procs ensures OnEvidence(run, s, a) {
        if a in s1.procs && s.procs[a].pc == s1.procs[a].pc {
          EvidenceStays(front, s1, step, s, a);
        } else if a in s1.procs {
          EvidenceComes(front, s1, step, a);
        } else {
          assert OnEvidence(run, s, a) by { Newcomer(run, s1, step, a); }
        }
      }
    }
  }

  // ----- when a recovery must remove the lock ------------------------------------------------------

  /** Steps of other processes, while this one lives. */
  predicate Elsewhere(run: seq<Step>, a: Actor)
  {
    forall i | 0 <= i < |run| :: run[i].Damage? || run[i].a != a
  }

  lemma {:induction false} OthersLeave(s: State, run: seq<Step>, s': State, a: Actor)
    requires Exec(s, run) == Some(s') && Elsewhere(run, a) && a in s.procs
    ensures a in s'.procs && s'.procs[a] == s.procs[a]
    decreases |run|
  {
    hide Running;
    if run != [] { OthersLeave(Do(s, run[0]), run[1..], s', a); }
  }

  /**
    `release_stale_lock`, with any steps of others between its read, its probe
    and its unlink: it goes on to the unlink if and only if the file is too old
    by the caller's policy, or its payload names this host and a pid that runs
    no more; and an unlink that works leaves no lock file.
   */
  lemma RecoveryDecides(s0: State, before: seq<Step>, s1: State, aged: bool, after: seq<Step>, s2: State, a: Actor)
    requires Can(s0, Suspect(a))
    requires Exec(Do(s0, Suspect(a)), before) == Some(s1) && Elsewhere(before, a)
    requires Can(s1, Probe(a, aged))
    requires Exec(Do(s1, Probe(a, aged)), after) == Some(s2) && Elsewhere(after, a)
    ensures s0.file.Some? && s0.file.value.payload.Doc?
    ensures var id := s0.file.value.payload.id;
      var stale := aged || (id.host == s0.procs[a].id.host
                            && forall b | b in s1.procs && s1.procs[b].id == id :: !s1.procs[b].alive);
      && (stale <==> Can(s2, Condemn(a, true)))
      && (stale ==> Do(s2, Condemn(a, true)).file == None && Do(s2, Condemn(a, false)).file == s2.file)
      && a in s2.procs && (!stale ==> s2.procs[a].pc == Idle)
  {
    OthersLeave(Do(s0, Suspect(a)), before, s1, a);
    OthersLeave(Do(s1, Probe(a, aged)), after, s2, a);
    hide Exec;
  }

  /** Any lock file that parses is looked at, whatever its host, and no other; looking and judging change nothing. */
  lemma LookingIsHarmless(s: State, a: Actor, aged: bool)
    ensures Alive(s, a) && s.procs[a].pc.Idle? ==>
      (Can(s, Suspect(a)) <==> s.file.Some? && !s.file.value.payload.Empty? && !s.file.value.payload.Damaged?)
    ensures Can(s, Suspect(a)) ==> Can(Do(s, Suspect(a)), Probe(a, aged))
    ensures Can(s, Suspect(a)) ==> Do(s, Suspect(a)).file == s.file
    ensures Can(s, Probe(a, aged)) ==> Do(s, Probe(a, aged)).file == s.file
  {
  }

  // ----- an unlink that hits another file ------------------------------------------------------------

  /** Processes 1 and 3 on host 0, process 2 on host 1; 1 holds the lock and 3 has read it. */
  lemma ReadByRecovery() returns (run: seq<Step>, s: State)
    ensures AllBut(run, s, SteadyCheck)
    ensures s.file == Some(LockFile(0, 1, Doc(Ident(0, 1)))) && s.next == 1
    ensures s.procs == map[1 := Proc(Ident(0, 1), true, Holding(0)), 2 := Proc(Ident(1, 2), true, Idle),
                           3 := Proc(Ident(0, 3), true, Suspecting(0, Ident(0, 1)))]
  {
    hide AllBut;
    run, s := [], START;
    Nothing(SteadyCheck);
    run, s := Then(run, s, SteadyCheck, Spawn(1, Ident(0, 1)));
    run, s := Then(run, s, SteadyCheck, Spawn(2, Ident(1, 2)));
    run, s := Then(run, s, SteadyCheck, Spawn(3, Ident(0, 3)));
    run, s := Takes(run, s, SteadyCheck, 1);
    run, s := Then(run, s, SteadyCheck, Suspect(3));
  }

  /** The lock has gone over to process 2 on host 1, and process 1 is dead. */
  lemma LockMovesOn() returns (run: seq<Step>, s: State)
    ensures AllBut(run, s, SteadyCheck)
    ensures s.file == Some(LockFile(1, 2, Doc(Ident(1, 2)))) && s.next == 2
    ensures s.procs == map[1 := Proc(Ident(0, 1), false, Idle), 2 := Proc(Ident(1, 2), true, Holding(1)),
                           3 := Proc(Ident(0, 3), true, Suspecting(0, Ident(0, 1)))]
  {
    hide AllBut, Running;
    run, s := ReadByRecovery();
    run, s := Then(run, s, SteadyCheck, InspectOwn(1, true));
    run, s := Then(run, s, SteadyCheck, Unlock(1, true));
    run, s := Then(run, s, SteadyCheck, Die(1));
    run, s := Takes(run, s, SteadyCheck, 2);
  }

  /**
    The condition that the unlink is aimed is needed: between the read and the
    probe the holder lets go and dies, a process of another host takes the
    lock, and the recovery, right about the pid it read, unlinks that lock.
   */
  lemma RecoveryHitsAnotherHost() returns (run: seq<Step>, s: State)
    ensures AllBut(run, s, SteadyCheck) && Can(s, Condemn(3, true)) && Removes(s, Condemn(3, true))
    ensures s.procs[3].pc.grounds == DeadPid && !Aimed(s, Condemn(3, true))
    ensures Inside(s, 2) && s.file.value.creator == 2 && s.procs[2].id.host != s.procs[3].id.host
  {
    hide AllBut, Running;
    run, s := LockMovesOn();
    assert !Running(s, Ident(0, 1)) by { NotRunning(s); }
    run, s := Then(run, s, SteadyCheck, Probe(3, false));
  }

  lemma NotRunning(s: State)
    requires s.procs.Keys == {1, 2, 3} && !s.procs[1].alive
    requires s.procs[2].id != Ident(0, 1) && s.procs[3].id != Ident(0, 1)
    ensures !Running(s, Ident(0, 1))
  {
  }

  // ----- as the specification sees it ----------------------------------------------------------------

  /**
    A recovery by pid of the file it has judged is ReleaseStaleLocal to the
    host the lock belongs to, as long as the file still parses, and no other
    step ever is: that action is never another host's doing.
   */
  lemma StaleReleasesExactly(run: seq<Step>, s: State, step: Step, host: nat)
    requires Exec(START, run) == Some(s) && Can(s, step) && Removes(s, step)
    requires var c := s.file.value.creator; c in s.procs && s.procs[c].id.host == host
    ensures step.Condemn? && Aimed(s, step) && s.file.value.payload.Doc? ==>
      See(s, host).lock == HeldLocalDead && LockSpec.Meaning(s, step, host) == ReleaseStaleLocal
    ensures LockSpec.Meaning(s, step, host) == ReleaseStaleLocal ==>
      && step.Condemn? && s.procs[step.a].pc.grounds == DeadPid && OnHost(s, step.a, host)
      && !Alive(s, s.file.value.creator)
  {
    hide Exec, Running;
    WhoseLockGoes(run, s, step);
  }

  /** Under the rules nothing is forced: a lock that parses goes by its owner's release or as a stale local lock. */
  lemma NothingIsForced(run: seq<Step>, s: State, step: Step, host: nat)
    requires Exec(START, run) == Some(s) && CarefulRun(START, run)
    requires Can(s, step) && Careful(s, step) && Removes(s, step)
    requires var c := s.file.value.creator; c in s.procs && s.procs[c].id.host == host
    requires See(s, host).lock != Corrupt
    ensures LockSpec.Meaning(s, step, host) == if step.Condemn? then ReleaseStaleLocal else ReleaseLocalLock
  {
    hide Exec, Running, CarefulRun, Careful;
    RulesAim(run, s, step);
    WhoseLockGoes(run, s, step);
  }
}
