/**
  Updates over power losses and restarts: what a power loss takes back of the
  committed changes, and what no power loss ever takes back.  After one, every
  process is dead and its lock file may be gone, still be there, or even be
  back although it was unlinked; the processes started afterwards recover it
  like any other stale lock.
 */
module Recovery {
  import opened Basics
  import S = Storage
  import SI = StorageInvariant
  import ST = StorageTheorems
  import L = LockProtocol
  import opened Composite

  /** Since the last power loss each version extends the one before. */
  ghost predicate Chain(c: State)
  {
    && c.from < |c.shown|
    && forall i, j | c.from <= i <= j < |c.shown| :: c.shown[i] <= c.shown[j]
  }

  /** Whatever came after the newest confirmed version contains it. */
  ghost predicate Kept(c: State)
  {
    && c.t in c.s.d.acked && c.t in c.s.d.floor
    && c.s.d.acked[c.t] <= c.s.d.floor[c.t] < |c.shown| && c.from <= c.s.d.floor[c.t]
    && forall j | c.s.d.acked[c.t] <= j < |c.shown| :: c.shown[c.s.d.acked[c.t]] <= c.shown[j]
  }

  /** A block past its replace placed its version after the last power loss. */
  ghost predicate Recent(c: State, w: S.Id)
  {
    w in c.s.writers && (AfterReplace(c.s.writers[w].pc) || c.s.writers[w].pc.Returned?) ==>
      c.from <= c.s.writers[w].pc.version
  }

  ghost predicate RecInv(c: State)
  {
    Inv(c) && Chain(c) && Kept(c) && forall w | w in c.blocks :: Recent(c, w)
  }

  lemma StartHolds(c: State)
    requires Init(c)
    ensures RecInv(c)
  {
    InitHolds(c);
    hide Inv;
  }

  lemma Floors(c: State)
    requires Inv(c)
    ensures c.t in c.s.d.acked && c.t in c.s.d.floor && c.s.d.acked[c.t] <= c.s.d.floor[c.t] < |c.shown|
  {
    hide BlocksOk, ViewOk, L.Inv, SI.Inv;
    ST.FloorHolds(c.s, c.t);
    assert LogOk(c);
  }

  // ----- how one step changes what is confirmed -----------------------------------------------

  /** Only a strict return confirms anything. */
  lemma OnlyReturnConfirms(d: S.Disk, w: S.Id, x: S.Writer, step: S.WriterStep, t: S.Name)
    requires S.CanWriter(d, w, x, step) && t in d.acked
    ensures var d' := S.NextDisk(d, w, x, step);
      && t in d'.acked
      && (d'.acked[t] == d.acked[t]
          || (step.Return? && x.target == t && (AfterReplace(x.pc)) && d'.acked[t] == x.pc.version
              && d.acked[t] <= d'.acked[t]))
  {
    hide Overwrite, S.SidecarBytes;
  }

  /** A version number is given at the replace and kept. */
  lemma VersionStays(d: S.Disk, w: S.Id, x: S.Writer, step: S.WriterStep)
    requires S.CanWriter(d, w, x, step) && !step.Collide?
    ensures var pc' := S.NextPc(d, w, x, step);
      AfterReplace(pc') || pc'.Returned? ==>
        if step.Place? then pc'.version == (if x.target in d.versions then |d.versions[x.target]| else 0)
        else (AfterReplace(x.pc) || x.pc.Returned?) && pc'.version == x.pc.version
  {
    hide S.SidecarBytes;
  }

  lemma DiskConfirms(c: State, step: S.Step)
    requires Inv(c) && Can(c, Disk(step)) && c.t in c.s.d.acked
    ensures var d' := Do(c, Disk(step)).s.d;
      && c.t in d'.acked
      && (d'.acked[c.t] == c.s.d.acked[c.t]
          || (step.W? && step.w in c.blocks && step.w in c.s.writers && AfterReplace(c.s.writers[step.w].pc)
              && d'.acked[c.t] == c.s.writers[step.w].pc.version && c.s.d.acked[c.t] <= d'.acked[c.t]))
  {
    hide S.NextDisk, S.NextPc, S.NextReader, S.CanReader, S.CanWriter, SI.Inv, L.Inv, LogOk, ViewOk, AfterReplace;
    if step.W? && !step.wstep.Forget? {
      OnlyReturnConfirms(c.s.d, step.w, c.s.writers[step.w], step.wstep, c.t);
    }
  }

  lemma BlockStaysRecent(c: State, step: S.Step, w: S.Id)
    requires RecInv(c) && Can(c, Disk(step)) && w in c.blocks
    ensures Recent(Do(c, Disk(step)), w)
  {
    hide Inv, Can, Do, Kept, AfterReplace, S.NextPc, S.NextDisk, S.CanWriter, CanBlockStep;
    assert Recent(c, w) && c.from < |c.shown|;
    hide Chain;
    BlockIsKnown(c, w);
    ShownContent(c);
    DiskRecords(c, step);
    NotedLog(c, step);
    if step.W? && step.w == w {
      StepIsPossible(c, step);
      MoveEffect(c, w, step.wstep);
      VersionStays(c.s.d, w, c.s.writers[w], step.wstep);
    }
  }

  lemma StepIsPossible(c: State, step: S.Step)
    requires Can(c, Disk(step)) && step.W? && step.w in c.blocks
    ensures step.w in c.s.writers && S.CanWriter(c.s.d, step.w, c.s.writers[step.w], step.wstep)
    ensures !step.wstep.Forget? && !step.wstep.Collide?
  {
    hide S.CanWriter;
  }

  lemma BlockIsKnown(c: State, w: S.Id)
    requires Inv(c) && w in c.blocks
    ensures w in c.s.writers && c.s.writers[w].target == c.t
  {
    hide SI.Inv, L.Inv, LogOk, ViewOk;
    assert BlockOk(c, w);
  }

  lemma FloorRises(c: State, step: S.Step)
    requires Inv(c) && Can(c, Disk(step)) && c.t in c.s.d.floor
    ensures c.t in Do(c, Disk(step)).s.d.floor && c.s.d.floor[c.t] <= Do(c, Disk(step)).s.d.floor[c.t]
  {
    hide S.Do, Inv, Can, SI.Inv, S.Can;
    DiskStep(c, step);
    SI.StepKeeps(c.s, step);
  }

  lemma ChainGrows(c: State, c': State, changes: seq<Change>)
    requires Chain(c) && c'.from == c.from && c'.shown == c.shown + [changes] && Log(c) <= changes
    ensures Chain(c')
  {
    var n := |c.shown|;
    forall i, j | c.from <= i <= j < |c'.shown| ensures c'.shown[i] <= c'.shown[j] {
      if j == n && i < n { assert c.shown[i] <= c.shown[n - 1]; }
    }
  }

  lemma KeptGrows(c: State, c': State, changes: seq<Change>)
    requires Kept(c) && Log(c) <= changes && c'.shown == c.shown + [changes] && c'.t == c.t && c'.from == c.from
    requires c.t in c'.s.d.acked && c.t in c'.s.d.floor && c'.s.d.acked[c.t] == c.s.d.acked[c.t]
    requires c.s.d.floor[c.t] <= c'.s.d.floor[c.t] < |c'.shown|
    ensures Kept(c')
  {
    var a := c.s.d.acked[c.t];
    forall j | a <= j < |c'.shown| ensures c'.shown[a] <= c'.shown[j] {
      if j == |c.shown| { assert c.shown[a] <= c.shown[j - 1]; }
    }
  }

  lemma DiskRecovers(c: State, step: S.Step)
    requires RecInv(c) && Can(c, Disk(step))
    ensures RecInv(Do(c, Disk(step)))
  {
    hide Inv, Can, Do, S.Do, Committed, AfterReplace;
    var c' := Do(c, Disk(step));
    Composite.StepKeeps(c, Disk(step));
    Floors(c');
    NotedLog(c, step);
    DiskConfirms(c, step);
    FloorRises(c, step);
    forall w | w in c'.blocks ensures Recent(c', w) { BlockStaysRecent(c, step, w); }
    hide Recent;
    if Commits(c, step) {
      CommitConfirmsNothing(c, step);
      ChainGrows(c, c', Log(c) + [Committed(c, step.w)]);
      KeptGrows(c, c', Log(c) + [Committed(c, step.w)]);
    } else if c'.s.d.acked[c.t] != c.s.d.acked[c.t] {
      WriterIsRecent(c, step.w);
    }
  }

  lemma CommitConfirmsNothing(c: State, step: S.Step)
    requires Can(c, Disk(step)) && Commits(c, step)
    ensures Do(c, Disk(step)).s.d.acked == c.s.d.acked
  {
  }

  lemma WriterIsRecent(c: State, w: S.Id)
    requires RecInv(c) && w in c.blocks && w in c.s.writers && AfterReplace(c.s.writers[w].pc)
    ensures c.from <= c.s.writers[w].pc.version
  {
    hide Inv, Chain, Kept, AfterReplace;
    assert Recent(c, w);
  }

  lemma LossRecovers(c: State, step: Step)
    requires RecInv(c) && step.Loss? && Can(c, step)
    ensures RecInv(Do(c, step)) && Log(Do(c, step)) <= Log(c) && c.from <= step.k < |c.shown|
    ensures Do(c, step).shown == c.shown + [c.shown[step.k]] && Do(c, step).s.d.acked == c.s.d.acked
  {
    hide Inv, Can, Do, AfterReplace, Recent, S.Do;
    var c' := Do(c, step);
    LossIndex(c, step);
    LossNotes(c, step);
    LossConfirms(c, step);
    Composite.StepKeeps(c, step);
    Floors(c');
    forall j | c.s.d.acked[c.t] <= j < |c'.shown| ensures c'.shown[c.s.d.acked[c.t]] <= c'.shown[j] {
      if j == |c.shown| { assert c.shown[c.s.d.acked[c.t]] <= c.shown[step.k]; }
    }
    assert c.shown[step.k] <= c.shown[|c.shown| - 1];
  }

  lemma LossIndex(c: State, step: Step)
    requires Inv(c) && step.Loss? && Can(c, step)
    ensures step.k < |c.shown| && c.t in c.s.d.versions && |c.s.d.versions[c.t]| == |c.shown|
  {
    hide S.AfterLoss, S.CanLosePower, S.Show, BlocksOk, ViewOk, SI.Inv, L.Inv;
    assert LogOk(c);
  }

  /** Power loss confirms nothing, and fixes the version it leaves. */
  lemma LossConfirms(c: State, step: Step)
    requires Inv(c) && step.Loss? && Can(c, step)
    ensures Do(c, step).s.d.acked == c.s.d.acked
    ensures c.t in c.s.d.versions && c.t in Do(c, step).s.d.floor
    ensures Do(c, step).s.d.floor[c.t] == |c.s.d.versions[c.t]|
  {
    hide S.CanLosePower, S.Show, BlocksOk, ViewOk, LogOk, SI.Inv, L.Inv;
  }

  lemma StepRecovers(c: State, step: Step)
    requires RecInv(c) && Can(c, step)
    ensures RecInv(Do(c, step))
  {
    hide Inv, Can, Do, AfterReplace, Recent;
    match step {
      case Disk(dstep) => DiskRecovers(c, dstep);
      case Loss(_, _, _, _) => LossRecovers(c, step);
      case _ =>
        CalmStep(c, step);
        Composite.StepKeeps(c, step);
        CalmRecent(c, step);
    }
  }

  lemma CalmStep(c: State, step: Step)
    requires Can(c, step) && !step.Disk? && !step.Loss?
    ensures var c' := Do(c, step);
      && c'.s.d == c.s.d && c'.shown == c.shown && c'.from == c.from && c'.t == c.t
      && (forall w | w in c'.blocks && w !in c.blocks :: w in c'.s.writers && c'.s.writers[w].pc.Begun?)
      && (forall w | w in c.blocks && w in c.s.writers :: w in c'.s.writers && c'.s.writers[w] == c.s.writers[w])
  {
    hide L.Do, L.Can, S.CanWriter;
  }

  lemma CalmRecent(c: State, step: Step)
    requires RecInv(c) && Can(c, step) && !step.Disk? && !step.Loss?
    ensures forall w | w in Do(c, step).blocks :: Recent(Do(c, step), w)
  {
    hide Inv, Can, Do, Chain, Kept;
    CalmStep(c, step);
    forall w | w in Do(c, step).blocks ensures Recent(Do(c, step), w) {
      if w in c.blocks {
        BlockIsKnown(c, w);
        assert Recent(c, w);
      }
    }
  }

  // ----- over whole runs ---------------------------------------------------------------------------

  /** What is confirmed stays confirmed. */
  lemma StepConfirms(c: State, step: Step)
    requires RecInv(c) && Can(c, step)
    ensures RecInv(Do(c, step))
    ensures var c' := Do(c, step);
      c.shown[c.s.d.acked[c.t]] <= c'.shown[c'.s.d.acked[c'.t]]
  {
    hide Inv, Can, Do, Recent, Chain, S.Do, AfterReplace, Committed;
    StepRecovers(c, step);
    ConfirmedIndex(c);
    match step {
      case Disk(dstep) =>
        NotedLog(c, dstep);
        DiskConfirms(c, dstep);
      case Loss(_, _, _, _) =>
        LossRecovers(c, step);
        LossNotes(c, step);
      case _ => CalmStep(c, step);
    }
  }

  lemma ConfirmedIndex(c: State)
    requires Kept(c)
    ensures c.t in c.s.d.acked && c.s.d.acked[c.t] < |c.shown|
    ensures forall j | c.s.d.acked[c.t] <= j < |c.shown| :: c.shown[c.s.d.acked[c.t]] <= c.shown[j]
  {
  }

  lemma {:induction false} RunConfirms(c: State, run: seq<Step>, c': State)
    requires RecInv(c) && Exec(c, run) == Some(c')
    ensures RecInv(c') && c.shown[c.s.d.acked[c.t]] <= c'.shown[c'.s.d.acked[c'.t]]
    decreases |run|
  {
    hide Inv, Can, Do, Chain, Recent;
    if run != [] {
      StepConfirms(c, run[0]);
      RunConfirms(Do(c, run[0]), run[1..], c');
    }
  }

  /** A power loss takes back only the newest changes: what it leaves is a prefix of what there was. */
  lemma PowerLossKeepsAPrefix(c0: State, run: seq<Step>, c: State, step: Step)
    requires Init(c0) && Exec(c0, run) == Some(c) && step.Loss? && Can(c, step)
    ensures Log(Do(c, step)) <= Log(c)
    ensures c.t in c.s.d.acked && c.s.d.acked[c.t] <= step.k < |c.shown| && Log(Do(c, step)) == c.shown[step.k]
    ensures ST.Content(S.Show(Do(c, step).s.d, c.t)) == Fold(c.base, Log(Do(c, step)))
    ensures forall w | w in c.blocks && w in c.s.writers && c.s.writers[w].safety == S.Strict
              && c.s.writers[w].pc.Returned? :: c.s.writers[w].pc.version <= step.k
  {
    hide Exec, Init, Can, Do, Inv, S.Show;
    StartHolds(c0);
    RunConfirms(c0, run, c);
    LossRecovers(c, step);
    Floors(c);
    Composite.StepKeeps(c, step);
    ShownContent(Do(c, step));
    LossNotes(c, step);
    forall w | w in c.blocks && w in c.s.writers && c.s.writers[w].safety == S.Strict && c.s.writers[w].pc.Returned?
      ensures c.s.writers[w].pc.version <= step.k
    {
      ReturnIsConfirmed(c, w);
    }
  }

  lemma ReturnIsConfirmed(c: State, w: S.Id)
    requires Inv(c) && w in c.blocks && w in c.s.writers && c.s.writers[w].pc.Returned?
    ensures var x := c.s.writers[w];
      && x.target == c.t && c.t in c.s.d.versions && c.t in c.s.d.acked && x.pc.version < |c.s.d.versions[c.t]|
      && ST.Content(c.s.d.versions[c.t][x.pc.version]) == Some(x.pc.content)
      && (x.safety == S.Strict ==> x.pc.version <= c.s.d.acked[c.t])
  {
    hide BlocksOk, ViewOk, LogOk, L.Inv, SI.Inv;
    BlockIsKnown(c, w);
    ST.ReturnedIsKept(c.s, w);
  }

  /**
    Once a strict commit has returned, the changes up to and including its own
    are part of the target for good: through further updates, deaths, any
    number of power losses and the recoveries after them.
   */
  lemma ConfirmedUpdatesSurvive(c0: State, run1: seq<Step>, c1: State, w: S.Id, run2: seq<Step>, c2: State)
    requires Init(c0) && Exec(c0, run1) == Some(c1)
    requires w in c1.blocks && w in c1.s.writers && c1.s.writers[w].safety == S.Strict && c1.s.writers[w].pc.Returned?
    requires Exec(c1, run2) == Some(c2)
    ensures var x := c1.s.writers[w];
      && x.pc.version < |c1.shown| && c1.shown[x.pc.version] <= Log(c2)
      && Fold(c1.base, c1.shown[x.pc.version]) == Some(x.pc.content)
    ensures ST.Content(S.Show(c2.s.d, c2.t)) == Fold(c2.base, Log(c2))
  {
    hide Exec, Init, Can, Do, Inv, S.Show, AfterReplace;
    StartHolds(c0);
    RunConfirms(c0, run1, c1);
    ReturnIsConfirmed(c1, w);
    VersionContent(c1, c1.s.writers[w].pc.version);
    assert Recent(c1, w);
    RunConfirms(c1, run2, c2);
    Floors(c2);
    ShownContent(c2);
    var v, a := c1.s.writers[w].pc.version, c1.s.d.acked[c1.t];
    assert c1.shown[v] <= c1.shown[a];
    ConfirmedIndex(c2);
    assert c2.shown[c2.s.d.acked[c2.t]] <= c2.shown[|c2.shown| - 1];
  }

  lemma VersionContent(c: State, k: nat)
    requires Inv(c) && c.t in c.s.d.versions && k < |c.s.d.versions[c.t]|
    ensures k < |c.shown| && ST.Content(c.s.d.versions[c.t][k]) == Fold(c.base, c.shown[k])
  {
    hide BlocksOk, ViewOk, SI.Inv, L.Inv, Fold;
    assert LogOk(c);
  }
}
