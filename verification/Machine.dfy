/**
  One process of the library at work among all the others: its system calls,
  each of which may fail, with any steps of other processes in between.  What
  the process does is a step of the transition system in Composite, so all
  that is proved of runs holds of the methods here and of those built on them.

  Assumed: `close()` gives the descriptor up even when it reports an error,
  and a successful `write()` of a non-empty buffer takes at least one byte.
 */
module Machine {
  import opened Basics
  import Paths
  import S = Storage
  import SI = StorageInvariant
  import ST = StorageTheorems
  import L = LockProtocol
  import opened Composite

  /** The process, the writer and reader records it uses, and the temporary names drawn for it and for nobody else. */
  datatype Self = Self(a: L.Actor, ids: set<S.Id>, names: set<S.Name>)

  /** Steps that other processes may take at any time. */
  predicate Foreign(me: Self, step: Step)
  {
    match step
    case Lock(l) => l.Damage? || l.a != me.a
    case Enter(b, w, _, _) => b != me.a && w !in me.ids
    case Look(w, _) => w !in me.ids
    case LookAbsent(w) => w !in me.ids
    case Disk(d) =>
      && (d.Begin? ==> d.w !in me.ids)
      && (d.W? ==> d.w !in me.ids && (d.wstep.Create? ==> d.wstep.tmp !in me.names))
      && (d.StartRead? || d.R? ==> d.r !in me.ids)
    // a process does not see the power loss that ends it
    case Loss(_, _, _, _) => false
  }

  /** Steps of this process that move no records but those in `moved` and create no file but those in `made`. */
  predicate OwnStep(me: Self, step: Step, moved: set<S.Id>, made: set<S.Name>)
  {
    match step
    case Lock(l) => !l.Damage? && l.a == me.a
    case Enter(a, w, _, _) => a == me.a && w in moved
    case Disk(Begin(w, _)) => w in moved
    case Disk(W(w, wstep)) =>
      w in moved && !wstep.Forget? && !wstep.Collide? && (wstep.Create? ==> wstep.tmp in made)
    case Disk(StartRead(r, _)) => r in moved
    case Disk(R(r, _)) => r in moved
    case _ => false
  }

  /** What one process does, what its application reads, and damage are among what every other process expects. */
  lemma OwnIsForeign(me: Self, other: Self, step: Step)
    requires me.a != other.a && me.ids !! other.ids && me.names !! other.names
    requires || OwnStep(other, step, other.ids, other.names)
             || ((step.Look? || step.LookAbsent?) && step.w in other.ids)
             || step == Lock(L.Damage)
    ensures Foreign(me, step)
  {
  }

  /** The run goes on, and this process's part in it is no more than that. */
  ghost predicate Adds(me: Self, run: seq<Step>, run': seq<Step>, moved: set<S.Id>, made: set<S.Name>)
  {
    && run <= run'
    && forall i | |run| <= i < |run'| :: Foreign(me, run'[i]) || OwnStep(me, run'[i], moved, made)
  }

  /** The steps a run has gained. */
  function Gained(run: seq<Step>, run': seq<Step>): seq<Step>
  {
    if |run| <= |run'| then run'[|run|..] else []
  }

  /** The run goes on without this process. */
  ghost predicate GoesOn(me: Self, run: seq<Step>, run': seq<Step>)
  {
    run <= run' && forall i | |run| <= i < |run'| :: Foreign(me, run'[i])
  }

  /** This process's own steps of a run. */
  function OwnOf(me: Self, run: seq<Step>): seq<Step>
    decreases |run|
  {
    if run == [] then []
    else OwnOf(me, run[..|run| - 1]) + if Foreign(me, run[|run| - 1]) then [] else [run[|run| - 1]]
  }

  lemma OwnSnoc(me: Self, run: seq<Step>, step: Step)
    ensures OwnOf(me, run + [step]) == OwnOf(me, run) + if Foreign(me, step) then [] else [step]
  {
    assert (run + [step])[..|run|] == run;
  }

  /** What a process has done stays at the head of what it will have done. */
  lemma {:induction false} OwnPrefix(me: Self, run: seq<Step>, run': seq<Step>)
    requires run <= run'
    ensures OwnOf(me, run) <= OwnOf(me, run')
    decreases |run'|
  {
    hide Foreign;
    if |run| < |run'| {
      var rest := run'[..|run'| - 1];
      assert run <= rest && rest + [run'[|run'| - 1]] == run';
      OwnPrefix(me, run, rest);
      OwnSnoc(me, rest, run'[|run'| - 1]);
    } else {
      assert run == run';
    }
  }

  lemma AddsOne(me: Self, run: seq<Step>, step: Step, moved: set<S.Id>, made: set<S.Name>)
    requires Foreign(me, step) || OwnStep(me, step, moved, made)
    ensures Adds(me, run, run + [step], moved, made)
  {
    hide Foreign, OwnStep;
  }

  lemma OwnStepWidens(me: Self, step: Step, moved: set<S.Id>, made: set<S.Name>, moved': set<S.Id>, made': set<S.Name>)
    requires OwnStep(me, step, moved, made) && moved <= moved' && made <= made'
    ensures OwnStep(me, step, moved', made')
  {
  }

  lemma AddsTwice(me: Self, run: seq<Step>, run1: seq<Step>, run2: seq<Step>, moved: set<S.Id>, made: set<S.Name>,
                  moved1: set<S.Id>, made1: set<S.Name>, moved2: set<S.Id>, made2: set<S.Name>)
    requires Adds(me, run, run1, moved1, made1) && Adds(me, run1, run2, moved2, made2)
    requires moved1 <= moved && moved2 <= moved && made1 <= made && made2 <= made
    ensures Adds(me, run, run2, moved, made)
  {
    hide Foreign, OwnStep;
    forall i | |run| <= i < |run2| ensures Foreign(me, run2[i]) || OwnStep(me, run2[i], moved, made) {
      if i < |run1| {
        assert run2[i] == run1[i];
        if OwnStep(me, run1[i], moved1, made1) { OwnStepWidens(me, run1[i], moved1, made1, moved, made); }
      } else if OwnStep(me, run2[i], moved2, made2) {
        OwnStepWidens(me, run2[i], moved2, made2, moved, made);
      }
    }
  }

  /** The lock file of acquisition `epoch` is no longer under the lock name, and never will be again. */
  predicate Gone(l: L.State, epoch: nat)
  {
    epoch < l.next && (l.file.Some? ==> l.file.value.epoch != epoch)
  }

  /** What stays for this process while others move, and while it moves writers in `moved` and creates `made`. */
  ghost predicate Keeps(me: Self, c: State, c': State, moved: set<S.Id>, made: set<S.Name>)
  {
    && c'.t == c.t && c'.wholeOnly == c.wholeOnly && SI.Grows(c.s.d, c'.s.d)
    && me.a in c.l.procs && me.a in c'.l.procs && c'.l.procs[me.a].id == c.l.procs[me.a].id
    && (forall w | w in me.ids :: w in c'.s.writers <==> w in c.s.writers)
    && (forall w | w in me.ids && w in c.s.writers && w in c'.s.writers ::
          && c'.s.writers[w] == c.s.writers[w].(pc := c'.s.writers[w].pc)
          && (w !in moved ==> c'.s.writers[w] == c.s.writers[w]))
    && (forall r | r in me.ids && r !in moved :: r in c'.s.readers <==> r in c.s.readers)
    && (forall r | r in me.ids && r !in moved && r in c.s.readers && r in c'.s.readers ::
          c'.s.readers[r] == c.s.readers[r])
    && (forall w | w in me.ids :: w in c'.blocks <==> w in c.blocks)
    && (forall w | w in me.ids && w in c.blocks && w in c'.blocks :: c'.blocks[w] == c.blocks[w])
    && (forall w | w in c'.blocks && c'.blocks[w].actor == me.a ::
          w in me.ids || (w in c.blocks && c.blocks[w].actor == me.a))
    && (forall n | n in me.names && n !in made && n !in c.s.d.dir :: n !in c'.s.d.dir)
    && c.l.next <= c'.l.next && (forall e: nat | Gone(c.l, e) :: Gone(c'.l, e))
    && KeepsNotes(me, c, c', moved)
  }

  /** Whoever else commits, or opens the sidecar, is no writer of this process. */
  ghost predicate KeepsNotes(me: Self, c: State, c': State, moved: set<S.Id>)
  {
    && |c.shown| <= |c'.shown|
    && (c'.last == c.last || (CameAfter(me, c'.last, moved) && |c.shown| < |c'.shown|))
    && (c'.scribe == c.scribe || CameAfter(me, c'.scribe, moved))
    && (forall w | w in me.ids && w !in moved && w in c.hashed :: w in c'.hashed && c'.hashed[w] == c.hashed[w])
  }

  predicate CameAfter(me: Self, who: Option<S.Id>, moved: set<S.Id>)
  {
    who.Some? && (who.value in moved || who.value !in me.ids)
  }

  /** The blocks of this process are those of its writer records. */
  ghost predicate Owned(me: Self, c: State)
  {
    forall w | w in c.blocks && c.blocks[w].actor == me.a :: w in me.ids
  }

  lemma OwnedStays(me: Self, c: State, c': State, moved: set<S.Id>, made: set<S.Name>)
    requires Owned(me, c) && Keeps(me, c, c', moved, made)
    ensures Owned(me, c')
  {
  }

  function LockPc(me: Self, c: State): L.Pc
  {
    if me.a in c.l.procs then c.l.procs[me.a].pc else L.Idle
  }

  lemma KeepsItself(me: Self, c: State, run: seq<Step>)
    requires me.a in c.l.procs
    ensures Keeps(me, c, c, {}, {}) && Adds(me, run, run, {}, {})
  {
  }

  lemma KeepsTwice(me: Self, c: State, run: seq<Step>, c1: State, run1: seq<Step>, c2: State, run2: seq<Step>,
                   moved: set<S.Id>, made: set<S.Name>,
                   moved1: set<S.Id>, made1: set<S.Name>, moved2: set<S.Id>, made2: set<S.Name>)
    requires Keeps(me, c, c1, moved1, made1) && Keeps(me, c1, c2, moved2, made2)
    requires Adds(me, run, run1, moved1, made1) && Adds(me, run1, run2, moved2, made2)
    requires moved1 <= moved && moved2 <= moved && made1 <= made && made2 <= made
    ensures Keeps(me, c, c2, moved, made) && Adds(me, run, run2, moved, made)
  {
    hide Gone, Adds, KeepsNotes;
    NotesTwice(me, c, c1, c2, moved, moved1, moved2);
    AddsTwice(me, run, run1, run2, moved, made, moved1, made1, moved2, made2);
  }

  lemma NotesTwice(me: Self, c: State, c1: State, c2: State, moved: set<S.Id>, moved1: set<S.Id>, moved2: set<S.Id>)
    requires KeepsNotes(me, c, c1, moved1) && KeepsNotes(me, c1, c2, moved2) && moved1 <= moved && moved2 <= moved
    ensures KeepsNotes(me, c, c2, moved)
  {
  }

  // ----- what a step of another process keeps ------------------------------------------------

  lemma GoneStays(l: L.State, step: L.Step, e: nat)
    requires L.Can(l, step) && Gone(l, e)
    ensures Gone(L.Do(l, step), e)
  {
    hide L.Running;
  }

  lemma OtherLockSteps(me: Self, l: L.State, step: L.Step)
    requires L.Can(l, step) && L.Alive(l, me.a) && (step.Damage? || step.a != me.a)
    ensures me.a in L.Do(l, step).procs && L.Do(l, step).procs[me.a] == l.procs[me.a]
    ensures l.next <= L.Do(l, step).next
  {
    hide L.Running;
  }

  /** A temporary name comes into being only by creating it. */
  lemma NameStaysAway(d: S.Disk, w: S.Id, x: S.Writer, step: S.WriterStep, n: S.Name)
    requires S.CanWriter(d, w, x, step) && n !in d.dir && !(step.Create? && step.tmp == n)
    requires n != x.target && n != Paths.ChecksumPath(x.target) && n != Paths.LockPath(x.target)
    ensures n !in S.NextDisk(d, w, x, step).dir
  {
    hide Overwrite, Paths.IsTmpName, Paths.LockPath, Paths.ChecksumPath, S.SidecarBytes;
  }

  /** Names drawn by `tmp_path_for` look like it. */
  ghost predicate GoodNames(names: set<S.Name>)
  {
    forall n | n in names :: Paths.IsTmpName(n)
  }

  lemma TmpIsNoOther(d: S.Disk, t: S.Name, n: S.Name)
    requires SI.NamesOk(d) && t in d.targets && Paths.IsTmpName(n)
    ensures n != t && n != Paths.ChecksumPath(t) && n != Paths.LockPath(t)
  {
    assert Paths.Apart(t, t);
    Paths.DerivedNames(t, t);
  }

  lemma WriterTarget(c: State, w: S.Id)
    requires Inv(c) && w in c.s.writers
    ensures SI.NamesOk(c.s.d) && c.s.writers[w].target in c.s.d.targets
  {
    hide BlocksOk, LogOk, ViewOk, L.Inv;
    SI.DiskIsNamed(c.s.d);
    assert SI.WriterOk(c.s.d, w, c.s.writers[w]);
  }

  lemma NamesStayAway(names: set<S.Name>, c: State, step: S.Step)
    requires Inv(c) && GoodNames(names) && S.Can(c.s, step) && !step.PowerLoss?
    ensures forall n | n in names && n !in c.s.d.dir && !(step.W? && step.wstep == S.Create(n, CreatedIno(step))) ::
      n !in S.Do(c.s, step).d.dir
  {
    hide Inv, S.NextDisk, S.NextPc, S.CanWriter, S.NextReader, S.CanReader;
    if step.W? {
      var x := c.s.writers[step.w];
      WriterTarget(c, step.w);
      forall n | n in names && n !in c.s.d.dir && !(step.wstep == S.Create(n, CreatedIno(step)))
        ensures n !in S.Do(c.s, step).d.dir
      {
        TmpIsNoOther(c.s.d, x.target, n);
        NameStaysAway(c.s.d, step.w, x, step.wstep, n);
      }
    }
  }

  function CreatedIno(step: S.Step): S.Ino
  {
    if step.W? && step.wstep.Create? then step.wstep.ino else 0
  }

  lemma DiskStepGrows(c: State, step: S.Step)
    requires Inv(c) && Can(c, Disk(step))
    ensures SI.Grows(c.s.d, Do(c, Disk(step)).s.d)
  {
    hide Inv, Can, SI.Inv, S.Do, S.Can, SI.Grows;
    DiskStep(c, step);
    SI.StepKeeps(c.s, step);
  }

  lemma DiskStepKeeps(me: Self, c: State, step: S.Step)
    requires Inv(c) && Can(c, Disk(step)) && L.Alive(c.l, me.a) && GoodNames(me.names)
    requires step.Begin? ==> step.w !in me.ids
    requires step.W? ==> !step.wstep.Forget? || step.w !in me.ids
    ensures Keeps(me, c, Do(c, Disk(step)), Movers(step), if step.W? then Created(step.wstep) else {})
  {
    hide S.Do, S.Can, SI.Grows, Inv, Gone, Can, Do, KeepsNotes;
    DiskStepGrows(c, step);
    DiskNames(me.names, c, step);
    DiskRecords(c, step);
    DiskNotes(me, c, step);
  }

  function Movers(step: S.Step): set<S.Id>
  {
    if step.W? then {step.w} else if step.StartRead? || step.R? then {step.r} else {}
  }

  lemma DiskNotes(me: Self, c: State, step: S.Step)
    requires Can(c, Disk(step))
    ensures KeepsNotes(me, c, Do(c, Disk(step)), Movers(step))
  {
    hide Can, Do, Committed, Log, S.Latest;
    NotedLog(c, step);
    NotedSides(c, step);
  }

  lemma DiskNames(names: set<S.Name>, c: State, step: S.Step)
    requires Inv(c) && Can(c, Disk(step)) && GoodNames(names)
    ensures forall n | n in names && n !in c.s.d.dir && !(step.W? && step.wstep.Create? && step.wstep.tmp == n) ::
      n !in Do(c, Disk(step)).s.d.dir
  {
    hide S.Do, S.Can, Inv;
    NamesStayAway(names, c, step);
  }

  /** A moved writer that is not ours does not count, nor does a name. */
  lemma KeepsLess(me: Self, c: State, c': State, moved: set<S.Id>, made: set<S.Name>)
    requires Keeps(me, c, c', moved, made) && moved !! me.ids && made !! me.names
    ensures Keeps(me, c, c', {}, {})
  {
    hide Gone;
  }

  lemma SameDiskKeeps(me: Self, c: State, c': State)
    requires L.Alive(c.l, me.a) && c'.t == c.t && c'.wholeOnly == c.wholeOnly && c'.s.d == c.s.d
    requires me.a in c'.l.procs && c'.l.procs[me.a].id == c.l.procs[me.a].id
    requires forall w | w in me.ids :: w in c'.s.writers <==> w in c.s.writers
    requires forall w | w in me.ids && w in c.s.writers :: c'.s.writers[w] == c.s.writers[w]
    requires c'.s.readers == c.s.readers
    requires forall w | w in me.ids :: w in c'.blocks <==> w in c.blocks
    requires forall w | w in me.ids && w in c.blocks :: c'.blocks[w] == c.blocks[w]
    requires forall w | w in c'.blocks && c'.blocks[w].actor == me.a ::
      w in me.ids || (w in c.blocks && c.blocks[w].actor == me.a)
    requires c'.shown == c.shown && c'.last == c.last && c'.scribe == c.scribe && c'.hashed == c.hashed
    requires c.l.next <= c'.l.next && forall e: nat | Gone(c.l, e) :: Gone(c'.l, e)
    ensures Keeps(me, c, c', {}, {})
  {
    hide Gone;
  }

  lemma ForeignStepKeeps(me: Self, c: State, step: Step)
    requires Inv(c) && L.Alive(c.l, me.a) && GoodNames(me.names) && Foreign(me, step) && Can(c, step)
    ensures Keeps(me, c, Do(c, step), {}, {})
    ensures Inv(Do(c, step)) && L.Alive(Do(c, step).l, me.a) && LockPc(me, Do(c, step)) == LockPc(me, c)
  {
    hide Inv, Keeps, Gone;
    StepKeeps(c, step);
    match step {
      case Disk(dstep) =>
        hide S.Do;
        DiskStepKeeps(me, c, dstep);
        KeepsLess(me, c, Do(c, step), Movers(dstep), if dstep.W? then Created(dstep.wstep) else {});
      case Lock(lstep) =>
        hide L.Do, L.Can;
        OtherLockSteps(me, c.l, lstep);
        forall e: nat | Gone(c.l, e) ensures Gone(Do(c, step).l, e) { GoneStays(c.l, lstep, e); }
        SameDiskKeeps(me, c, Do(c, step));
      case Enter(_, _, _, _) => SameDiskKeeps(me, c, Do(c, step));
      case Look(_, _) => SameDiskKeeps(me, c, Do(c, step));
      case LookAbsent(_) => SameDiskKeeps(me, c, Do(c, step));
      case Loss(_, _, _, _) =>
    }
  }

  // ----- what this process may do next ------------------------------------------------------------

  /** Writer `w` is this process's to move: it has the lock if the target wants one, or has given it back in time. */
  ghost predicate Turn(me: Self, c: State, w: S.Id)
  {
    && w in me.ids && w in c.s.writers && L.Alive(c.l, me.a)
    && (w in c.blocks ==>
          && c.blocks[w].actor == me.a && c.blocks[w].view.None?
          && (if c.s.writers[w].goal.None? || BeforeReplace(c.s.writers[w].pc)
              then LockPc(me, c) == L.Holding(c.blocks[w].epoch)
              else LockPc(me, c).Idle?))
  }

  lemma TurnStays(me: Self, c: State, c': State, w: S.Id)
    requires Turn(me, c, w) && Keeps(me, c, c', {}, {}) && LockPc(me, c') == LockPc(me, c) && L.Alive(c'.l, me.a)
    ensures Turn(me, c', w) && c'.s.writers[w] == c.s.writers[w]
  {
    hide Gone, SI.Grows, BeforeReplace;
  }

  /** The steps a writer's program takes, except those the library never takes. */
  ghost predicate MayMove(me: Self, c: State, w: S.Id, step: S.WriterStep)
  {
    && Turn(me, c, w) && S.CanWriter(c.s.d, w, c.s.writers[w], step) && !step.Forget? && !step.Collide?
  }

  lemma MoveIsAllowed(me: Self, c: State, w: S.Id, step: S.WriterStep)
    requires MayMove(me, c, w, step)
    ensures Can(c, Disk(S.W(w, step)))
  {
    hide S.CanWriter, BeforeReplace;
  }

  function Created(step: S.WriterStep): set<S.Name>
  {
    if step.Create? then {step.tmp} else {}
  }

  /** A block that replaces the target, or opens its sidecar, is the last to have done so. */
  ghost predicate Notes(c: State, c': State, w: S.Id, step: S.WriterStep)
  {
    && c'.last == (if w in c.blocks && step.Place? then Some(w) else c.last)
    && c'.scribe == (if w in c.blocks && step.Truncate? then Some(w) else c.scribe)
  }

  /** What one such step does. */
  ghost predicate Moved(me: Self, c: State, c': State, w: S.Id, step: S.WriterStep)
    requires w in c.s.writers && S.CanWriter(c.s.d, w, c.s.writers[w], step)
  {
    && Keeps(me, c, c', {w}, Created(step))
    && c'.l == c.l && c'.blocks == c.blocks && Notes(c, c', w, step)
    && w in c'.s.writers && c'.s.writers[w].pc == S.NextPc(c.s.d, w, c.s.writers[w], step)
    && c'.s.d == S.NextDisk(c.s.d, w, c.s.writers[w], step)
  }

  lemma MoveMoves(me: Self, c: State, w: S.Id, step: S.WriterStep)
    requires Inv(c) && MayMove(me, c, w, step) && GoodNames(me.names) && Can(c, Disk(S.W(w, step)))
    ensures Moved(me, c, Do(c, Disk(S.W(w, step))), w, step)
  {
    hide Keeps, S.CanWriter, S.NextPc, S.NextDisk, Inv, Can, Do, Committed, Log;
    DiskStepKeeps(me, c, S.W(w, step));
    DiskRecords(c, S.W(w, step));
    NotedLog(c, S.W(w, step));
    NotedSides(c, S.W(w, step));
    MoveEffect(c, w, step);
  }

  lemma WriterHolds(c: State, w: S.Id)
    requires Inv(c) && w in c.s.writers
    ensures var d := c.s.d; d.versions.Keys == d.floor.Keys == d.acked.Keys == d.targets
    ensures SI.WriterOk(c.s.d, w, c.s.writers[w])
  {
    hide BlocksOk, LogOk, ViewOk, L.Inv, SI.DiskOk, SI.WriterOk;
    SI.DiskIsNamed(c.s.d);
  }

  /** What the invariant says of a writer's own files, for the calls that need them. */
  lemma OwnFiles(c: State, w: S.Id)
    requires Inv(c) && w in c.s.writers
    ensures var d, x := c.s.d, c.s.writers[w];
      && (x.pc.Open? ==> x.pc.ino in d.inodes)
      && (x.pc.Closed? ==> x.pc.tmp in d.dir && d.dir[x.pc.tmp] in d.inodes)
      && (x.pc.Rewriting? ==> x.pc.side in d.inodes && (x.pc.text.Some? ==> x.pc.offset <= |x.pc.text.value|))
  {
    hide Inv, Paths.IsTmpName, S.GoalMet;
    WriterHolds(c, w);
  }

  /** What the invariant says of a version a writer has put in place. */
  lemma OwnVersion(c: State, w: S.Id)
    requires Inv(c) && w in c.s.writers
    ensures var d, x := c.s.d, c.s.writers[w];
      (AfterReplace(x.pc) || x.pc.Returned?) ==> Shows(d, x.target, x.pc.version, x.pc.content)
    ensures var d, x := c.s.d, c.s.writers[w];
      x.pc.Returned? && x.safety == S.Strict ==> x.target in d.acked && x.pc.version <= d.acked[x.target]
  {
    hide Inv, Paths.IsTmpName, S.GoalMet;
    WriterHolds(c, w);
  }

  /** Version `v` in the history of `t` has exactly this content. */
  predicate Shows(d: S.Disk, t: S.Name, v: nat, content: Bytes)
  {
    t in d.versions && v < |d.versions[t]| && d.versions[t][v].Present? && d.versions[t][v].data == content
  }

  lemma ShowsStays(d: S.Disk, d': S.Disk, t: S.Name, v: nat, content: Bytes)
    requires Shows(d, t, v, content) && SI.Grows(d, d')
    ensures Shows(d', t, v, content)
  {
  }

  /** How often the steps replace a target. */
  function Replacements(steps: seq<Step>): nat
    decreases |steps|
  {
    if steps == [] then 0
    else Replacements(steps[..|steps| - 1]) + if Replaces(steps[|steps| - 1]) then 1 else 0
  }

  predicate Replaces(step: Step)
  {
    step.Disk? && step.dstep.W? && step.dstep.wstep.Place?
  }

  lemma OneMore(steps: seq<Step>, step: Step)
    ensures Replacements(steps + [step]) == Replacements(steps) + if Replaces(step) then 1 else 0
  {
    assert (steps + [step])[..|steps|] == steps;
  }

  ghost predicate Reaches(start: State, run: seq<Step>, c: State)
  {
    Exec(start, run) == Some(c)
  }

  lemma {:induction false} ReachesOn(start: State, run: seq<Step>, c: State, step: Step)
    requires Reaches(start, run, c) && Can(c, step)
    ensures Reaches(start, run + [step], Do(c, step))
    decreases |run|
  {
    hide Do, Can;
    if run == [] {
      assert run + [step] == [step];
      assert Exec(Do(c, step), [step][1..]) == Some(Do(c, step));
    } else {
      assert (run + [step])[1..] == run[1..] + [step];
      ReachesOn(Do(start, run[0]), run[1..], c, step);
    }
  }

  // ----- the process ----------------------------------------------------------------------------------

  /** How `try_acquire_lock` ends; an error may come after a lock file was created, and undone again or not. */
  datatype Attempt = Acquired(epoch: nat) | Busy | LockError(created: Option<nat>, undone: bool)

  /** How `release_lock` ends. */
  datatype Release = Removed | NotOurs(found: Option<L.LockFile>) | Unreadable | UnlinkFailed

  /** The calls that may fail, and encoding the sidecar's text, which may as well. */
  datatype Failure =
    | TmpOpen | TmpWrite | TmpFsync | TmpClose | DeviceStat | TargetRename | TmpUnlink | DirFsync
    | TargetHash | SideOpen | SideEncode | SideWrite
    | LockCreate | LockWrite | LockRead | LockUnlink
    | SideRead | TargetRead

  /** The kinds of failures after `before`. */
  function NewFailures(before: seq<Failure>, after: seq<Failure>): set<Failure>
  {
    if |before| <= |after| then set f | f in after[|before|..] else {}
  }

  /** Whatever has failed since is of these kinds. */
  predicate FailedOnly(before: seq<Failure>, after: seq<Failure>, kinds: set<Failure>)
  {
    before <= after && NewFailures(before, after) <= kinds
  }

  /** One more call has failed, of one of these kinds. */
  predicate OneFailure(before: seq<Failure>, after: seq<Failure>, kinds: set<Failure>)
  {
    |after| == |before| + 1 && before <= after && after[|before|] in kinds
  }

  lemma FailuresAdd(before: seq<Failure>, mid: seq<Failure>, after: seq<Failure>)
    requires before <= mid <= after
    ensures NewFailures(before, after) == NewFailures(before, mid) + NewFailures(mid, after) && before <= after
  {
    assert after[|before|..] == mid[|before|..] + after[|mid|..];
  }

  lemma OneNewFailure(before: seq<Failure>, f: Failure)
    ensures NewFailures(before, before + [f]) == {f} && NewFailures(before, before) == {}
  {
    assert (before + [f])[|before|..] == [f];
  }

  class Process {
    const me: Self

    /** The state of everything: disk, lock, all processes. */
    var c: State

    /** Descriptors this process has open, by inode. */
    var open: set<S.Ino>

    /** History: where everything started, every step since, and this process's own among them. */
    ghost const start: State
    ghost var run: seq<Step>
    ghost var mine: seq<Step>

    /** History: the calls of this process that failed. */
    ghost var failures: seq<Failure>

    /** The process joins a run that is under way. */
    constructor (me: Self, ghost start: State, ghost run: seq<Step>, c: State)
      requires Inv(c) && L.Alive(c.l, me.a) && GoodNames(me.names) && Owned(me, c) && Reaches(start, run, c)
      ensures Valid() && this.me == me && this.c == c && open == {}
      ensures this.start == start && this.run == run
    {
      hide Inv, Can, Do, GoodNames, Owned, Reaches, OwnOf;
      this.me, this.c, open := me, c, {};
      this.start, this.run, mine, failures := start, run, OwnOf(me, run), [];
    }

    /** The state is one the protocols can reach, and the process's own part in the run is on record. */
    ghost predicate Valid()
      reads this
    {
      && Inv(c) && L.Alive(c.l, me.a) && GoodNames(me.names) && Owned(me, c)
      && Reaches(start, run, c) && mine == OwnOf(me, run)
    }

    /** The run went on; this process moved only records in `moved` and created only `made`. */
    twostate predicate Kept(new moved: set<S.Id>, new made: set<S.Name>)
      reads this
    {
      Keeps(me, old(c), c, moved, made) && Adds(me, old(run), run, moved, made)
    }

    function Pc(w: S.Id): S.WriterPc
      reads this
      requires w in c.s.writers
    {
      c.s.writers[w].pc
    }

    // ----- between two calls ------------------------------------------------------------------------

    /** Any number of steps of other processes. */
    method Others()
      requires Valid()
      modifies this`c, this`run
      ensures Valid() && Kept({}, {}) && LockPc(me, c) == old(LockPc(me, c)) && GoesOn(me, old(run), run)
    {
      hide Keeps, Adds, Inv, Can, Do, Foreign, Reaches, Owned, OwnOf;
      var n: nat := *;
      KeepsItself(me, c, run);
      while n > 0
        invariant Valid() && Kept({}, {}) && LockPc(me, c) == old(LockPc(me, c)) && GoesOn(me, old(run), run)
      {
        var step: Step := *;
        if Foreign(me, step) && Can(c, step) {
          ForeignStepKeeps(me, c, step);
          AddsOne(me, run, step, {}, {});
          KeepsTwice(me, old(c), old(run), c, run, Do(c, step), run + [step], {}, {}, {}, {}, {}, {});
          OwnedStays(me, c, Do(c, step), {}, {});
          ReachesOn(start, run, c, step);
          OwnSnoc(me, run, step);
          c, run := Do(c, step), run + [step];
        }
        n := n - 1;
      }
    }

    /** One step of this process. */
    method Act(step: Step)
      requires Valid() && Can(c, step) && step != Lock(L.Die(me.a)) && !step.Loss?
      requires Owned(me, Do(c, step)) && !Foreign(me, step)
      modifies this`c, this`run, this`mine
      ensures Valid() && c == Do(old(c), step) && run == old(run) + [step] && mine == old(mine) + [step]
    {
      hide Inv, Can, Do, Reaches, Foreign, OwnOf;
      StepKeeps(c, step);
      ReachesOn(start, run, c, step);
      OwnSnoc(me, run, step);
      StillAlive(c, step, me.a);
      c, run, mine := Do(c, step), run + [step], mine + [step];
    }

    method Move(w: S.Id, step: S.WriterStep)
      requires Valid() && MayMove(me, c, w, step) && Created(step) <= me.names
      modifies this`c, this`run, this`mine
      ensures Valid() && Moved(me, old(c), c, w, step) && mine == old(mine) + [Disk(S.W(w, step))]
      ensures Adds(me, old(run), run, {w}, Created(step))
    {
      hide Inv, Can, Do, MayMove, Moved, S.CanWriter, Adds, OwnOf;
      MoveIsAllowed(me, c, w, step);
      MoveMoves(me, c, w, step);
      MovedOwned(me, c, Do(c, Disk(S.W(w, step))), w, step);
      MoveIsOwn(me, c, w, step);
      AddsOne(me, run, Disk(S.W(w, step)), {w}, Created(step));
      Act(Disk(S.W(w, step)));
    }

    ghost method Fail(f: Failure)
      modifies this`failures
      ensures failures == old(failures) + [f]
    {
      failures := failures + [f];
    }

    // ----- system calls, and an exception -----------------------------------------------------------

    /** Only writer `w` moved, and only `made` was created. */
    twostate predicate Stepped(new w: S.Id, new made: set<S.Name>)
      reads this
    {
      && Valid() && Keeps(me, old(c), c, {w}, made) && Adds(me, old(run), run, {w}, made)
      && LockPc(me, c) == old(LockPc(me, c))
    }

    /** Others move; nothing of ours does. */
    method Wait(w: S.Id)
      requires Valid() && Turn(me, c, w)
      modifies this`c, this`run
      ensures Stepped(w, {}) && Turn(me, c, w) && c.s.writers[w] == old(c.s.writers[w])
      ensures forall n | n in me.names && n !in old(c.s.d.dir) :: n !in c.s.d.dir
      ensures c.last == old(c.last) || CameAfter(me, c.last, {})
    {
      hide Inv, Turn, Reaches, Adds;
      Others();
      TurnStays(me, old(c), c, w);
      KeepsItself(me, c, run);
      KeepsTwice(me, old(c), old(run), c, run, c, run, {w}, {}, {}, {}, {}, {});
    }

    /** A step that leaves it this writer's turn. */
    method Go(w: S.Id, step: S.WriterStep)
      requires Valid() && MayMove(me, c, w, step)
      requires !step.Place? && !step.Clean? && Created(step) <= me.names
      modifies this`c, this`run, this`mine
      ensures Stepped(w, Created(step)) && Turn(me, c, w)
      ensures Went(old(c), c, w, step)
      ensures Replacements(mine) == old(Replacements(mine))
    {
      hide Inv, Reaches, S.CanWriter, S.NextPc, S.NextDisk, Keeps, Adds, BeforeReplace, OwnOf;
      assert Turn(me, c, w) && !step.Collide?;
      Move(w, step);
      TurnGoesOn(me, old(c), c, w, step);
      OneMore(old(mine), Disk(S.W(w, step)));
    }
  }

  ghost predicate Went(c: State, c': State, w: S.Id, step: S.WriterStep)
  {
    && w in c.s.writers && w in c'.s.writers && S.CanWriter(c.s.d, w, c.s.writers[w], step)
    && c'.s.writers[w].pc == S.NextPc(c.s.d, w, c.s.writers[w], step)
    && c'.s.d == S.NextDisk(c.s.d, w, c.s.writers[w], step) && Notes(c, c', w, step)
  }

  lemma TurnGoesOn(me: Self, c: State, c': State, w: S.Id, step: S.WriterStep)
    requires Turn(me, c, w) && S.CanWriter(c.s.d, w, c.s.writers[w], step) && Moved(me, c, c', w, step)
    requires !step.Place? && !step.Clean? && !step.Collide?
    requires L.Alive(c'.l, me.a)
    ensures Turn(me, c', w)
  {
    StillBefore(c.s.d, w, c.s.writers[w], step);
    hide S.CanWriter, S.NextPc, S.NextDisk, SI.Grows, Gone, BeforeReplace;
  }

  lemma StillBefore(d: S.Disk, w: S.Id, x: S.Writer, step: S.WriterStep)
    requires S.CanWriter(d, w, x, step) && !step.Place? && !step.Clean? && !step.Collide?
    ensures BeforeReplace(S.NextPc(d, w, x, step)) <==> BeforeReplace(x.pc)
  {
    hide S.SidecarBytes, Paths.ChecksumPath, Paths.LockPath, Paths.IsTmpName;
  }

  /** Started in an initial state, the process is in a run of the system: what is proved of runs holds at this point. */
  lemma CodeNeverLosesUpdates(p: Process)
    requires p.Valid() && Init(p.start)
    ensures ST.Content(S.Show(p.c.s.d, p.c.t)) == Fold(p.c.base, Log(p.c))
    ensures Exec(p.start, p.run) == Some(p.c)
  {
    hide Init, Inv, Exec, Fold, S.Show;
    NoLostUpdates(p.start, p.run, p.c);
  }

  lemma IsAlive(p: Process)
    requires p.Valid()
    ensures L.Alive(p.c.l, p.me.a) && p.me.a in p.c.l.procs
  {
    hide Inv, Reaches, OwnOf, GoodNames, Owned;
  }

  /** The process's own steps are those of the run. */
  lemma OwnSteps(p: Process)
    requires p.Valid()
    ensures p.mine == OwnOf(p.me, p.run)
  {
    hide Inv, Reaches, OwnOf, GoodNames, Owned;
  }

  lemma MineGrows(p: Process, run: seq<Step>, mine: seq<Step>, moved: set<S.Id>, made: set<S.Name>)
    requires p.Valid() && mine == OwnOf(p.me, run) && Adds(p.me, run, p.run, moved, made)
    ensures mine <= p.mine
  {
    hide Inv, Reaches, OwnOf, GoodNames, Owned, Foreign;
    OwnPrefix(p.me, run, p.run);
  }

  lemma FailuresGrow(first: seq<Failure>, before: seq<Failure>, after: seq<Failure>)
    requires first <= before <= after
    ensures first <= after
    ensures NewFailures(first, before) <= NewFailures(first, after)
    ensures NewFailures(before, after) <= NewFailures(first, after)
  {
    FailuresAdd(first, before, after);
  }

  lemma MoveIsOwn(me: Self, c: State, w: S.Id, step: S.WriterStep)
    requires MayMove(me, c, w, step)
    ensures OwnStep(me, Disk(S.W(w, step)), {w}, Created(step)) && !Foreign(me, Disk(S.W(w, step)))
  {
    hide S.CanWriter, BeforeReplace;
  }

  lemma MovedOwned(me: Self, c: State, c': State, w: S.Id, step: S.WriterStep)
    requires MayMove(me, c, w, step) && Moved(me, c, c', w, step) && Owned(me, c)
    ensures Owned(me, c')
  {
    hide S.CanWriter, S.NextPc, S.NextDisk;
  }

  lemma StillAlive(c: State, step: Step, a: L.Actor)
    requires L.Alive(c.l, a) && Can(c, step) && step != Lock(L.Die(a)) && !step.Loss?
    ensures L.Alive(Do(c, step).l, a)
  {
    hide S.Can, S.Do, L.Running, L.Careful;
  }
}
