/**
  Which directory entries a call changes: over the whole run of a call, with
  any steps of others in between, the process's own steps touch the call's
  temporary file, its target, and the target's sidecar and lock, nothing else.
 */
module OwnNames {
  import opened Basics
  import Paths
  import S = Storage
  import ST = StorageTheorems
  import L = LockProtocol
  import opened Composite
  import opened Machine

  /** None of this process's steps in the run changes an entry outside `names`. */
  ghost predicate Spares(me: Self, c: State, run: seq<Step>, names: set<S.Name>)
    decreases |run|
  {
    run == [] ||
    (Can(c, run[0])
     && (Foreign(me, run[0]) || forall n | n !in names :: S.Entry(Do(c, run[0]).s.d, n) == S.Entry(c.s.d, n))
     && Spares(me, Do(c, run[0]), run[1..], names))
  }

  function NamesOf(target: S.Name, tmp: S.Name): set<S.Name>
  {
    {tmp, target, Paths.ChecksumPath(target), Paths.LockPath(target)}
  }

  /** The only temporary name the writer has in hand is `tmp`. */
  ghost predicate TmpIs(x: S.Writer, tmp: S.Name)
  {
    && (x.pc.Open? || x.pc.Synced? || x.pc.Closed? ==> x.pc.tmp == tmp)
    && (x.pc.Doomed? ==> x.pc.orphan.None? || x.pc.orphan == Some(tmp))
  }

  ghost predicate OnlyTmp(c: State, w: S.Id, tmp: S.Name)
  {
    w in c.s.writers ==> TmpIs(c.s.writers[w], tmp)
  }

  lemma TmpStays(d: S.Disk, w: S.Id, x: S.Writer, step: S.WriterStep, tmp: S.Name)
    requires S.CanWriter(d, w, x, step) && !step.Collide? && TmpIs(x, tmp) && (step.Create? ==> step.tmp == tmp)
    ensures TmpIs(x.(pc := S.NextPc(d, w, x, step)), tmp)
    ensures step.Place? ==> x.pc.Closed? && x.pc.tmp == tmp
    ensures step.Clean? ==> x.pc.Doomed? && (x.pc.orphan.None? || x.pc.orphan == Some(tmp))
  {
    hide S.SidecarBytes, Paths.ChecksumPath, Paths.LockPath, Paths.IsTmpName;
  }

  lemma DiskStepPossible(c: State, step: S.Step)
    requires Can(c, Disk(step)) && step.W?
    ensures step.w in c.s.writers && S.CanWriter(c.s.d, step.w, c.s.writers[step.w], step.wstep)
  {
    hide S.CanWriter;
  }

  /** Steps of the run that are neither ours nor a new record leave the record alone. */
  lemma OnlyTmpStays(me: Self, c: State, step: Step, w: S.Id, tmp: S.Name)
    requires Can(c, step) && w in me.ids && OnlyTmp(c, w, tmp)
    requires Foreign(me, step) || OwnStep(me, step, {w}, {tmp})
    ensures OnlyTmp(Do(c, step), w, tmp)
    ensures w in c.s.writers ==> w in Do(c, step).s.writers && Do(c, step).s.writers[w].target == c.s.writers[w].target
  {
    match step {
      case Disk(dstep) =>
        hide S.NextDisk, S.NextPc, S.CanWriter, S.NextReader, S.CanReader, Can, Do;
        DiskRecords(c, step.dstep);
        if dstep.W? && dstep.w == w {
          DiskStepPossible(c, dstep);
          MoveEffect(c, w, dstep.wstep);
          TmpStays(c.s.d, w, c.s.writers[w], dstep.wstep, tmp);
        }
        if dstep.Begin? { BeginsBegun(c, dstep); }
      case Enter(_, _, _, _) =>
      case Lock(_) =>
      case Look(_, _) =>
      case LookAbsent(_) =>
      case Loss(_, _, _, _) =>
    }
  }

  lemma BeginsBegun(c: State, step: S.Step)
    requires Can(c, Disk(step)) && step.Begin?
    ensures step.writer.pc.Begun?
  {
  }

  lemma StepSpares(me: Self, c: State, step: Step, w: S.Id, tmp: S.Name, n: S.Name)
    requires Can(c, step) && w in me.ids && OnlyTmp(c, w, tmp) && OwnStep(me, step, {w}, {tmp})
    requires w in c.s.writers ==> n !in NamesOf(c.s.writers[w].target, tmp)
    ensures S.Entry(Do(c, step).s.d, n) == S.Entry(c.s.d, n)
  {
    hide S.NextDisk, S.NextPc, S.CanWriter, S.NextReader, S.CanReader, S.Entry, L.Can, L.Do;
    match step {
      case Disk(dstep) =>
        if dstep.W? {
          hide Can, Do;
          DiskStepPossible(c, dstep);
          MoveEffect(c, w, dstep.wstep);
          TmpStays(c.s.d, w, c.s.writers[w], dstep.wstep, tmp);
          ST.OnlyOwnNames(c.s.d, w, c.s.writers[w], dstep.wstep, n);
        }
      case Enter(_, _, _, _) =>
      case Lock(_) =>
    }
  }

  /** The record keeps its target to the end of the run. */
  lemma {:induction false} TargetStays(me: Self, c: State, run: seq<Step>, c': State, w: S.Id, tmp: S.Name)
    requires Exec(c, run) == Some(c') && w in me.ids && OnlyTmp(c, w, tmp) && w in c.s.writers
    requires forall i | 0 <= i < |run| :: Foreign(me, run[i]) || OwnStep(me, run[i], {w}, {tmp})
    ensures w in c'.s.writers && c'.s.writers[w].target == c.s.writers[w].target
    decreases |run|
  {
    hide Can, Do, Foreign, OwnStep, OnlyTmp;
    if run != [] {
      OnlyTmpStays(me, c, run[0], w, tmp);
      TargetStays(me, Do(c, run[0]), run[1..], c', w, tmp);
    }
  }

  lemma {:induction false} CallSparesOthers(me: Self, c: State, run: seq<Step>, c': State, w: S.Id, tmp: S.Name,
      target: S.Name)
    requires Exec(c, run) == Some(c') && w in me.ids && OnlyTmp(c, w, tmp)
    requires forall i | 0 <= i < |run| :: Foreign(me, run[i]) || OwnStep(me, run[i], {w}, {tmp})
    requires w in c'.s.writers ==> c'.s.writers[w].target == target
    ensures Spares(me, c, run, NamesOf(target, tmp))
    decreases |run|
  {
    hide Can, Do, Foreign, OwnStep, OnlyTmp, S.Entry;
    if run != [] {
      if w in c.s.writers { TargetStays(me, c, run, c', w, tmp); }
      if !Foreign(me, run[0]) {
        forall n | n !in NamesOf(target, tmp) ensures S.Entry(Do(c, run[0]).s.d, n) == S.Entry(c.s.d, n) {
          StepSpares(me, c, run[0], w, tmp, n);
        }
      }
      OnlyTmpStays(me, c, run[0], w, tmp);
      CallSparesOthers(me, Do(c, run[0]), run[1..], c', w, tmp, target);
    }
  }

  /** The part of a run that a call has added. */
  lemma {:induction false} RunSplits(start: State, run: seq<Step>, c: State, run': seq<Step>, c': State)
    requires Exec(start, run) == Some(c) && run <= run' && Exec(start, run') == Some(c')
    ensures Exec(c, run'[|run|..]) == Some(c')
    decreases |run|
  {
    hide Can, Do;
    if run == [] {
      assert run'[0..] == run';
    } else {
      assert run'[1..][|run[1..]|..] == run'[|run|..];
      assert run[0] == run'[0] && run[1..] <= run'[1..];
      RunSplits(Do(start, run[0]), run[1..], c, run'[1..], c');
    }
  }

  /** The same for a call of a process: from the run before it to the run after it. */
  lemma ProcessSparesOthers(me: Self, start: State, run: seq<Step>, c: State, run': seq<Step>, c': State,
                            w: S.Id, tmp: S.Name, target: S.Name)
    requires Reaches(start, run, c) && Reaches(start, run', c') && Adds(me, run, run', {w}, {tmp})
    requires w in me.ids && w !in c.s.writers && (w in c'.s.writers ==> c'.s.writers[w].target == target)
    ensures Exec(c, Gained(run, run')) == Some(c') && Spares(me, c, Gained(run, run'), NamesOf(target, tmp))
  {
    hide Can, Do, Foreign, OwnStep;
    RunSplits(start, run, c, run', c');
    var more := run'[|run|..];
    forall i | 0 <= i < |more| ensures Foreign(me, more[i]) || OwnStep(me, more[i], {w}, {tmp}) {
      assert more[i] == run'[|run| + i];
    }
    CallSparesOthers(me, c, more, c', w, tmp, target);
  }
}
