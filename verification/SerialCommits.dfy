/**
  When the sidecar of a target speaks for its newest version: if a commit
  happens only while no other live writer is between its replace and its
  return.  `AtomicWriter` blocks keep to this by holding the lock; locked
  `_write_core` calls do when they do not overlap past their replace.
 */
module SerialCommits {
  import opened Basics
  import Paths
  import SidecarText
  import S = Storage
  import SI = StorageInvariant
  import L = LockProtocol
  import opened Composite
  import opened SidecarAgreement

  /** Nobody who could still write a sidecar for an older version is left when a new one is placed. */
  predicate Serial(c: State, step: Step)
  {
    step.Disk? && Commits(c, step.dstep) ==>
      forall v | v in c.blocks && v != step.dstep.w && v in c.s.writers && Acting(c, v) ::
        !AfterReplace(c.s.writers[v].pc)
  }

  ghost predicate RunSerial(c: State, run: seq<Step>)
    requires Exec(c, run).Some?
    decreases |run|
  {
    run == [] || (Serial(c, run[0]) && RunSerial(Do(c, run[0]), run[1..]))
  }

  // ----- the invariant -------------------------------------------------------------------------

  /** Whoever is between its replace and its return committed last. */
  ghost predicate InTurn(c: State)
  {
    forall w | w in c.blocks && w in c.s.writers && Acting(c, w) && AfterReplace(c.s.writers[w].pc) :: c.last == Some(w)
  }

  /** What the last committer has hashed is the newest version, and nobody has opened the sidecar after it. */
  ghost predicate UpToDate(c: State, w: S.Id)
    requires w in c.s.writers
  {
    var x := c.s.writers[w];
    && (AfterReplace(x.pc) || x.pc.Returned? || x.pc == S.Raised(true))
    && (x.pc.Hashed? || x.pc.Rewriting? || (x.pc.Returned? && x.sidecar) ==>
          w in c.hashed && c.hashed[w].version == S.Latest(c.s.d, c.t))
    && (x.pc.Rewriting? || (x.pc.Returned? && x.sidecar) ==> c.scribe == Some(w))
  }

  ghost predicate LastOk(c: State)
  {
    c.last.Some? ==> c.last.value in c.blocks && c.last.value in c.s.writers && UpToDate(c, c.last.value)
  }

  ghost predicate SerialInv(c: State)
  {
    Inv(c) && InTurn(c) && LastOk(c)
  }

  /** Commits one after the other keep sidecar writes apart. */
  lemma SerialIsSeparate(c: State, step: Step)
    requires SerialInv(c) && Can(c, step)
    ensures Separate(c, step)
  {
    hide Inv, LastOk, L.Alive;
    if step.Disk? && step.dstep.W? && step.dstep.wstep.Truncate? && step.dstep.w in c.blocks {
      Actor(c, step.dstep);
    }
    hide Can;
  }

  /** A block that takes a step is alive; one that opens the sidecar has hashed. */
  lemma Actor(c: State, step: S.Step)
    requires Can(c, Disk(step)) && step.W? && step.w in c.blocks
    ensures step.w in c.s.writers && Acting(c, step.w)
    ensures step.wstep.Truncate? ==> c.s.writers[step.w].pc.Hashed?
    ensures step.wstep.Place? ==> Commits(c, step) && c.s.writers[step.w].pc.Closed?
  {
    hide S.Show;
  }

  // ----- steps ----------------------------------------------------------------------------------------

  /** How a writer comes to be past its replace, hashed, writing its sidecar, or done. */
  lemma PcComes(d: S.Disk, w: S.Id, x: S.Writer, step: S.WriterStep)
    requires S.CanWriter(d, w, x, step) && !step.Collide? && !step.Forget?
    ensures var pc' := S.NextPc(d, w, x, step);
      && (AfterReplace(pc') && !step.Place? ==> AfterReplace(x.pc))
      && (step.Place? ==> pc'.Placed? && x.pc.Closed?)
      && (AfterReplace(x.pc) ==> AfterReplace(pc') || pc'.Returned? || pc' == S.Raised(true))
      && (x.pc.Returned? || x.pc.Raised? ==> pc' == x.pc)
      && (pc'.Hashed? ==> step.Hash? || x.pc.Hashed?)
      && (step.Hash? ==> pc'.Hashed? && x.pc.Durable?)
      && (pc'.Rewriting? ==> step.Truncate? || x.pc.Rewriting?)
      && (step.Truncate? ==> pc'.Rewriting? && x.pc.Hashed?)
      && (pc'.Returned? && x.sidecar ==> x.pc.Returned? || x.pc.Rewriting?)
  {
    hide S.SidecarBytes, Paths.ChecksumPath, Paths.LockPath, Paths.IsTmpName, S.Show;
  }

  lemma TurnsFollow(c: State, step: S.Step)
    requires SerialInv(c) && Can(c, Disk(step)) && Serial(c, Disk(step))
    ensures InTurn(Do(c, Disk(step)))
  {
    hide Inv, Can, Do, LastOk, S.NextPc, S.NextDisk, S.CanWriter, SI.DiskOk, SI.WriterOk, CanBlockStep, AfterReplace,
        S.Do;
    hide Committed, Log;
    var c' := Do(c, Disk(step));
    BlocksStay(c, step);
    NotedLog(c, step);
    if step.W? && step.w in c.blocks {
      StepParts(c, step);
      PcComes(c.s.d, step.w, c.s.writers[step.w], step.wstep);
    }
  }

  lemma LastFollows(c: State, step: S.Step)
    requires SerialInv(c) && Can(c, Disk(step)) && Serial(c, Disk(step))
    ensures LastOk(Do(c, Disk(step)))
  {
    hide Inv, Can, Do, S.NextPc, S.NextDisk, S.CanWriter, SI.DiskOk, SI.WriterOk, CanBlockStep, S.Do;
    hide Committed, Log, S.Latest;
    var c' := Do(c, Disk(step));
    BlocksStay(c, step);
    NotedLog(c, step);
    NotedSides(c, step);
    SameNewest(c, step);
    if step.W? && step.w in c.blocks {
      StepParts(c, step);
      Actor(c, step);
      PcComes(c.s.d, step.w, c.s.writers[step.w], step.wstep);
    }
  }

  /** Without a commit the newest version stays the newest. */
  lemma SameNewest(c: State, step: S.Step)
    requires Inv(c) && Can(c, Disk(step))
    ensures !Commits(c, step) ==> S.Latest(Do(c, Disk(step)).s.d, c.t) == S.Latest(c.s.d, c.t)
  {
    hide Inv, Can, Do, Committed, Log, S.Latest;
    Composite.StepKeeps(c, Disk(step));
    NotedLog(c, step);
    ShownContent(c);
    ShownContent(Do(c, Disk(step)));
  }

  lemma StepKeepsTurns(c: State, step: Step)
    requires SerialInv(c) && Can(c, step) && Serial(c, step)
    ensures SerialInv(Do(c, step))
  {
    hide Inv, Can, Do, AfterReplace, Acting, S.Latest, S.Do;
    Composite.StepKeeps(c, step);
    match step {
      case Disk(dstep) =>
        TurnsFollow(c, dstep);
        LastFollows(c, dstep);
      case Loss(_, _, _, _) =>
        LossIndexed(c, step);
        LossNotes(c, step);
      case _ =>
        QuietStep(c, step);
        BegunIsBefore(c, Do(c, step));
    }
  }

  lemma BegunIsBefore(c: State, c': State)
    requires SameBlocks(c, c')
    ensures forall w | w in c'.blocks && w !in c.blocks :: w in c'.s.writers && !AfterReplace(c'.s.writers[w].pc)
  {
    hide Acting;
  }

  lemma {:induction false} RunKeepsTurns(c: State, run: seq<Step>, c': State)
    requires SerialInv(c) && Exec(c, run) == Some(c') && RunSerial(c, run)
    ensures SerialInv(c') && RunSeparate(c, run)
    decreases |run|
  {
    hide SerialInv, Can, Do, Separate, Serial;
    if run != [] {
      SerialIsSeparate(c, run[0]);
      StepKeepsTurns(c, run[0]);
      RunKeepsTurns(Do(c, run[0]), run[1..], c');
    }
  }

  lemma StartsInTurn(c: State)
    requires Init(c)
    ensures SerialInv(c)
  {
    InitHolds(c);
    hide S.Init, Inv;
  }

  // ----- agreement -------------------------------------------------------------------------------------

  /**
    For any mix of locked writers that commit one after the other: from the
    moment the last commit has returned, the sidecar's digest is the hash of
    the target, whoever takes the lock next and however far it gets before its
    own replace.
   */
  lemma SidecarSpeaksForTarget(c0: State, run: seq<Step>, c: State)
    requires Init(c0) && HexHash(c0.s.d) && Exec(c0, run) == Some(c) && RunSerial(c0, run)
    requires c.last.Some? && c.last.value in c.s.writers
    requires c.s.writers[c.last.value].pc.Returned? && c.s.writers[c.last.value].sidecar
    ensures Agrees(c.s.d, c.t, c.s.writers[c.last.value].algo)
  {
    hide Inv, Init, Exec, HexHash, InTurn, S.Show, SidecarOf, SidecarText.Describes, S.Latest;
    StartsInTurn(c0);
    RunKeepsTurns(c0, run, c);
    SidecarSpeaksForItsVersion(c0, run, c);
    NewestIsShown(c);
  }

  /** Nothing in the block is under way: its process gave up before the replace, or the commit returned. */
  predicate Settled(pc: S.WriterPc)
  {
    pc.Returned? || BeforeReplace(pc) || pc == S.Raised(false)
  }

  /**
    Idle agreement: all blocks want a sidecar with one algorithm and every
    commit that got past its replace has returned; then after the first commit
    target and sidecar agree.
   */
  lemma IdleTargetAndSidecarAgree(c0: State, run: seq<Step>, c: State, algo: string)
    requires Init(c0) && HexHash(c0.s.d) && Exec(c0, run) == Some(c) && RunSerial(c0, run) && c.last.Some?
    requires forall w | w in c.blocks && w in c.s.writers ::
      c.s.writers[w].sidecar && c.s.writers[w].algo == algo && Settled(c.s.writers[w].pc)
    ensures Agrees(c.s.d, c.t, algo)
  {
    hide Inv, Init, Exec, HexHash, InTurn, Agrees;
    StartsInTurn(c0);
    RunKeepsTurns(c0, run, c);
    SidecarSpeaksForTarget(c0, run, c);
  }

  // ----- the lock makes AtomicWriter commits serial -------------------------------------------------------

  /** An `AtomicWriter` that is not through with its target has the lock. */
  ghost predicate HeldToTheEnd(c: State, w: S.Id)
    requires w in c.blocks
  {
    w in c.s.writers && c.s.writers[w].goal.None? && Acting(c, w) ==>
      c.s.writers[w].pc.Returned? || c.s.writers[w].pc.Raised? || Held(c, w)
  }

  ghost predicate AllHold(c: State)
  {
    forall w | w in c.blocks :: HeldToTheEnd(c, w)
  }

  /** A lock is let go of only by its holder's own release. */
  lemma HoldingStays(l: L.State, step: L.Step, a: L.Actor, e: nat)
    requires L.Can(l, step) && L.Alive(l, a) && l.procs[a].pc == L.Holding(e)
    requires !(step.InspectOwn? && step.a == a) && L.Alive(L.Do(l, step), a)
    ensures L.Do(l, step).procs[a].pc == L.Holding(e)
  {
    hide L.Running;
  }

  lemma LockStepHolds(c: State, step: L.Step)
    requires Inv(c) && AllHold(c) && Can(c, Lock(step))
    ensures AllHold(Do(c, Lock(step)))
  {
    hide SI.Inv, L.Inv, LogOk, ViewOk, L.Do, L.Can, L.Alive, L.Careful, BlocksOk;
    BlocksKnown(c);
    LockSteps(c, step);
    var c' := Do(c, Lock(step));
    forall w | w in c'.blocks ensures HeldToTheEnd(c', w) {
      assert HeldToTheEnd(c, w);
      if Acting(c', w) {
        NoneRevives(c.l, step, c.blocks[w].actor);
        if Held(c, w) && !(step.InspectOwn? && step.a == c.blocks[w].actor) {
          HoldingStays(c.l, step, c.blocks[w].actor, c.blocks[w].epoch);
        }
      }
    }
  }

  lemma DiskStepHolds(c: State, step: S.Step)
    requires Inv(c) && AllHold(c) && Can(c, Disk(step))
    ensures AllHold(Do(c, Disk(step)))
  {
    hide Inv, Can, Do, S.NextPc, S.NextDisk, S.CanWriter, SI.DiskOk, SI.WriterOk, CanBlockStep, S.Do, Held, L.Alive;
    var c' := Do(c, Disk(step));
    BlocksStay(c, step);
    if step.W? && step.w in c.blocks {
      StepParts(c, step);
      PcComes(c.s.d, step.w, c.s.writers[step.w], step.wstep);
    }
    forall w | w in c'.blocks ensures HeldToTheEnd(c', w) {
      assert HeldToTheEnd(c, w);
    }
  }

  lemma EntryHolds(c: State, step: Step)
    requires Inv(c) && AllHold(c) && Can(c, step) && !step.Lock? && !step.Disk? && !step.Loss?
    ensures AllHold(Do(c, step))
  {
    hide SI.Inv, L.Inv, LogOk, ViewOk, S.Show, S.Latest, S.CanWriter, BlocksOk;
    var c' := Do(c, step);
    forall w | w in c'.blocks ensures HeldToTheEnd(c', w) {
      if w in c.blocks { assert HeldToTheEnd(c, w); }
    }
  }

  lemma StepHolds(c: State, step: Step)
    requires Inv(c) && AllHold(c) && Can(c, step)
    ensures AllHold(Do(c, step))
  {
    match step {
      case Lock(lstep) => LockStepHolds(c, lstep);
      case Disk(dstep) => DiskStepHolds(c, dstep);
      case Loss(_, _, _, _) =>
      case _ => EntryHolds(c, step);
    }
  }

  lemma OnlyHolder(c: State, w: S.Id)
    requires BlocksOk(c) && w in c.blocks && Held(c, w)
    ensures forall v | v in c.blocks && Held(c, v) :: v == w
  {
  }

  /** With only `AtomicWriter` blocks, holding the lock implies the rule. */
  lemma HoldingIsSerial(c: State, step: Step)
    requires Inv(c) && AllHold(c) && c.wholeOnly && Can(c, step)
    ensures Serial(c, step)
  {
    hide SI.Inv, L.Inv, LogOk, ViewOk, S.CanWriter, S.Show, S.Latest;
    if step.Disk? && Commits(c, step.dstep) {
      CommitGuard(c, step.dstep);
      OnlyHolder(c, step.dstep.w);
      forall v | v in c.blocks && v != step.dstep.w && v in c.s.writers && Acting(c, v)
        ensures !AfterReplace(c.s.writers[v].pc)
      {
        assert BlockOk(c, v) && HeldToTheEnd(c, v);
      }
    }
  }

  lemma {:induction false} WholeRunsAreSerial(c: State, run: seq<Step>, c': State)
    requires Inv(c) && AllHold(c) && c.wholeOnly && Exec(c, run) == Some(c')
    ensures RunSerial(c, run)
    decreases |run|
  {
    hide Inv, AllHold, Can, Do, Serial;
    if run != [] {
      HoldingIsSerial(c, run[0]);
      StepHolds(c, run[0]);
      Composite.StepKeeps(c, run[0]);
      KindStays(c, run[0]);
      WholeRunsAreSerial(Do(c, run[0]), run[1..], c');
    }
  }

  lemma KindStays(c: State, step: Step)
    requires Can(c, step)
    ensures Do(c, step).wholeOnly == c.wholeOnly
  {
    hide S.Do, L.Do, S.AfterLoss, S.Show;
  }

  lemma WholeIsSerial(c0: State, run: seq<Step>, c: State)
    requires Init(c0) && c0.wholeOnly && Exec(c0, run) == Some(c)
    ensures RunSerial(c0, run)
  {
    hide Inv, Exec, S.Init;
    InitHolds(c0);
    WholeRunsAreSerial(c0, run, c);
  }

  /** The promise for `AtomicWriter`, without any condition on the schedule. */
  lemma WholeWritersAgree(c0: State, run: seq<Step>, c: State)
    requires Init(c0) && c0.wholeOnly && HexHash(c0.s.d) && Exec(c0, run) == Some(c)
    requires c.last.Some? && c.last.value in c.s.writers
    requires c.s.writers[c.last.value].pc.Returned? && c.s.writers[c.last.value].sidecar
    ensures Agrees(c.s.d, c.t, c.s.writers[c.last.value].algo)
  {
    hide Inv, Exec, HexHash, Agrees, Init;
    WholeIsSerial(c0, run, c);
    SidecarSpeaksForTarget(c0, run, c);
  }

  // ----- one writer at a time -----------------------------------------------------------------------------

  /** Nobody but `w` enters a block of the target. */
  predicate OnlyEnters(run: seq<Step>, w: S.Id)
  {
    forall i | 0 <= i < |run| && run[i].Enter? :: run[i].w == w
  }

  /** Every other block is over, or its process is dead. */
  ghost predicate Calm(c: State, w: S.Id)
  {
    forall v | v in c.blocks && v != w && v in c.s.writers && Acting(c, v) ::
      c.s.writers[v].pc.Returned? || c.s.writers[v].pc.Raised?
  }

  lemma NewBlock(c: State, step: Step)
    requires Can(c, step)
    ensures forall v | v in Do(c, step).blocks && v !in c.blocks :: step.Enter? && step.w == v
  {
    hide S.Do, L.Do, S.AfterLoss, S.Show, S.Latest, S.CanWriter, L.Can, Held;
  }

  lemma DiskStaysCalm(c: State, step: S.Step, w: S.Id)
    requires Inv(c) && Can(c, Disk(step)) && Calm(c, w)
    ensures Calm(Do(c, Disk(step)), w)
  {
    hide Inv, Can, Do, S.NextPc, S.NextDisk, S.CanWriter, SI.DiskOk, SI.WriterOk, CanBlockStep, S.Do, L.Alive;
    BlocksStay(c, step);
    if step.W? && step.w in c.blocks {
      StepParts(c, step);
      Actor(c, step);
      PcComes(c.s.d, step.w, c.s.writers[step.w], step.wstep);
    }
  }

  lemma StaysCalm(c: State, step: Step, w: S.Id)
    requires Inv(c) && Can(c, step) && Calm(c, w) && (step.Enter? ==> step.w == w)
    ensures Calm(Do(c, step), w)
  {
    hide Inv, Can, Do, Acting;
    NewBlock(c, step);
    match step {
      case Disk(dstep) => DiskStaysCalm(c, dstep, w);
      case Loss(_, _, _, _) =>
        LossIndexed(c, step);
        LossNotes(c, step);
      case _ => QuietStep(c, step);
    }
  }

  /** In a calm state only `w` commits, and nobody is between replace and return meanwhile. */
  lemma CalmCommit(c: State, step: Step, w: S.Id)
    requires Can(c, step) && Calm(c, w)
    ensures Serial(c, step)
    ensures step.Disk? && Commits(c, step.dstep) ==> step.dstep.w == w
  {
    if step.Disk? && Commits(c, step.dstep) { Actor(c, step.dstep); }
    hide Can, Acting;
  }

  /** What one step does to the record of commits, short of a power loss. */
  lemma LastCommit(c: State, step: Step, w: S.Id)
    requires Can(c, step) && Calm(c, w) && !step.Loss?
    ensures var c' := Do(c, step); (c'.last == c.last && |c'.shown| == |c.shown|) || c'.last == Some(w)
  {
    CalmCommit(c, step, w);
    hide Calm, Serial, S.Do, L.Do, S.Show, S.Latest, S.CanWriter, L.Can;
    if step.Disk? {
      hide Can, Do, Committed, Log;
      NotedLog(c, step.dstep);
    }
  }

  predicate NoLoss(run: seq<Step>)
  {
    forall i | 0 <= i < |run| :: !run[i].Loss?
  }

  /** Where only one writer is under way, its commits are serial, and the last there is is its own. */
  lemma {:induction false} LoneBlockIsSerial(c: State, run: seq<Step>, c': State, w: S.Id)
    requires Inv(c) && Exec(c, run) == Some(c') && OnlyEnters(run, w) && Calm(c, w)
    ensures RunSerial(c, run) && Calm(c', w)
    ensures NoLoss(run) ==> (c'.last == c.last && |c'.shown| == |c.shown|) || c'.last == Some(w)
    decreases |run|
  {
    hide Inv, Can, Do, Serial, Calm;
    if run != [] {
      CalmCommit(c, run[0], w);
      StaysCalm(c, run[0], w);
      Composite.StepKeeps(c, run[0]);
      if !run[0].Loss? { LastCommit(c, run[0], w); }
      assert OnlyEnters(run[1..], w);
      LoneBlockIsSerial(Do(c, run[0]), run[1..], c', w);
      if NoLoss(run) { assert !run[0].Loss? && NoLoss(run[1..]); }
    }
  }

  /** Serial runs in sequence are serial. */
  lemma {:induction false} SerialInSequence(c: State, run: seq<Step>, c1: State, more: seq<Step>)
    requires Exec(c, run) == Some(c1) && Exec(c1, more).Some? && RunSerial(c, run) && RunSerial(c1, more)
    ensures Exec(c, run + more) == Exec(c1, more) && RunSerial(c, run + more)
    decreases |run|
  {
    hide Can, Do, Serial;
    if run == [] {
      assert run + more == more;
    } else {
      assert (run + more)[1..] == run[1..] + more;
      SerialInSequence(Do(c, run[0]), run[1..], c1, more);
    }
  }

  /**
    One writer after the other: if the run so far was serial and every other
    block is over, then after a commit of `w` with nobody else entering
    meanwhile the run is still serial, `w` is the last to have committed, and
    the sidecar it has written by its return speaks for the target.
   */
  lemma UncontendedCommitAgrees(c0: State, run: seq<Step>, c: State, more: seq<Step>, c': State, w: S.Id)
    requires Init(c0) && HexHash(c0.s.d) && Exec(c0, run) == Some(c) && RunSerial(c0, run)
    requires Exec(c, more) == Some(c') && NoLoss(more) && OnlyEnters(more, w) && Calm(c, w)
    requires |c.shown| < |c'.shown| && w in c'.s.writers && c'.s.writers[w].pc.Returned? && c'.s.writers[w].sidecar
    ensures Exec(c0, run + more) == Some(c') && RunSerial(c0, run + more) && c'.last == Some(w)
    ensures Calm(c', w) && Agrees(c'.s.d, c'.t, c'.s.writers[w].algo)
  {
    hide Inv, Init, Exec, HexHash, Calm, NoLoss, OnlyEnters, RunSerial, Agrees;
    InitHolds(c0);
    RunKeeps(c0, run, c);
    LoneBlockIsSerial(c, more, c', w);
    SerialInSequence(c0, run, c, more);
    SidecarSpeaksForTarget(c0, run + more, c');
  }
}
