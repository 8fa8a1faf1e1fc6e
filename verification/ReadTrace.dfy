/**
  What a run says about a read: the bytes it got out of the sidecar, and
  whether a name it missed was really missing.  Both are read off the steps of
  the run and the disk they met, not off the reader's record.
 */
module ReadTrace {
  import opened Basics
  import Paths
  import SidecarText
  import S = Storage
  import L = LockProtocol
  import opened Composite

  /** The sidecar file a reader has open, and what it has got out of it. */
  datatype Side = Side(file: Option<S.Ino>, got: Bytes)

  const NOTHING := Side(None, [])

  /** After one more step of the run; a call that starts has read nothing. */
  function Heard(c: State, step: Step, r: S.Id, target: S.Name, side: Side): Side
  {
    match step
    case Disk(StartRead(q, _)) => if q == r then NOTHING else side
    case Disk(R(q, rstep)) =>
      if q != r then side
      else if rstep.OpenSide? then Side(S.Entry(c.s.d, Paths.ChecksumPath(target)), [])
      else if rstep.ReadSide? && side.file.Some? && side.file.value in c.s.d.inodes then
        side.(got := side.got + Slice(c.s.d.inodes[side.file.value].data, |side.got|, rstep.n))
      else side
    case _ => side
  }

  function HeardIn(c: State, run: seq<Step>, r: S.Id, target: S.Name, side: Side): Side
    decreases |run|
  {
    if run == [] || !Can(c, run[0]) then side
    else HeardIn(Do(c, run[0]), run[1..], r, target, Heard(c, run[0], r, target, side))
  }

  /** The sidecar bytes that reader `r` got in the run. */
  function SidecarBytesRead(c: State, run: seq<Step>, r: S.Id, target: S.Name): Bytes
  {
    HeardIn(c, run, r, target, NOTHING).got
  }

  /** The record says what the steps say. */
  ghost predicate Matches(pc: S.ReaderPc, side: Side)
  {
    match pc
    case Started => side == NOTHING
    case InSidecar(i, seen) => side == Side(Some(i), seen)
    case Expecting(_, seen) => side.got == seen
    case Reading(_, seen, _, _, _) => side.got == seen
    case Got(_, _, seen) => side.got == seen
    case Mismatch(_, _, seen) => side.got == seen
    case BadSidecar(seen) => side.got == seen
    case NoTarget(seen) => side.got == seen
    case NoSidecar => side == NOTHING
  }

  ghost predicate Tells(c: State, r: S.Id, target: S.Name, side: Side)
  {
    r in c.s.readers && c.s.readers[r].target == target ==> Matches(c.s.readers[r].pc, side)
  }

  lemma ReadMatches(d: S.Disk, x: S.Reader, step: S.ReaderStep, side: Side)
    requires S.CanReader(d, x, step) && !step.Forgo? && Matches(x.pc, side)
    ensures var side' := if step.OpenSide? then Side(S.Entry(d, Paths.ChecksumPath(x.target)), [])
                         else if step.ReadSide? && side.file.Some? && side.file.value in d.inodes then
                           side.(got := side.got + Slice(d.inodes[side.file.value].data, |side.got|, step.n))
                         else side;
      Matches(S.NextReader(d, x, step), side')
  {
    hide SidecarText.ParseBytes, Paths.ChecksumPath;
  }

  /** Where a step takes a reader. */
  lemma ReadEffect(c: State, r: S.Id, step: S.ReaderStep)
    requires Can(c, Disk(S.R(r, step)))
    ensures r in c.s.readers && S.CanReader(c.s.d, c.s.readers[r], step)
    ensures var s' := Do(c, Disk(S.R(r, step))).s;
      if step.Forgo? then r !in s'.readers
      else r in s'.readers && s'.readers[r] == c.s.readers[r].(pc := S.NextReader(c.s.d, c.s.readers[r], step))
  {
    hide S.CanReader, S.NextReader;
  }

  lemma StartEffect(c: State, r: S.Id, x: S.Reader)
    requires Can(c, Disk(S.StartRead(r, x)))
    ensures r !in c.s.readers && x.pc.Started?
    ensures Do(c, Disk(S.StartRead(r, x))).s.readers == c.s.readers[r := x]
  {
  }

  /** Steps of other kinds leave the readers alone, or end them all. */
  lemma OtherEffect(c: State, step: Step)
    requires Can(c, step) && !step.Disk?
    ensures Do(c, step).s.readers == c.s.readers || Do(c, step).s.readers == map[]
  {
    hide L.Do, L.Can, S.CanWriter, S.AfterLoss, S.Show, S.Latest;
  }

  lemma StepTells(c: State, step: Step, r: S.Id, target: S.Name, side: Side)
    requires Can(c, step) && Tells(c, r, target, side)
    ensures Tells(Do(c, step), r, target, Heard(c, step, r, target, side))
  {
    hide Can, Do, Matches, S.CanReader, S.NextReader, S.Entry;
    if step.Disk? {
      DiskRecords(c, step.dstep);
      match step.dstep {
        case StartRead(q, x) =>
          StartEffect(c, q, x);
          if q == r { StartMatches(x.pc); }
        case R(q, rstep) =>
          ReadEffect(c, q, rstep);
          if q == r && !rstep.Forgo? && c.s.readers[r].target == target {
            ReadMatches(c.s.d, c.s.readers[r], rstep, side);
          }
        case _ =>
      }
    } else {
      OtherEffect(c, step);
    }
  }

  lemma StartMatches(pc: S.ReaderPc)
    requires pc.Started?
    ensures Matches(pc, NOTHING)
  {
  }

  lemma {:induction false} RunTells(c: State, run: seq<Step>, c': State, r: S.Id, target: S.Name, side: Side)
    requires Exec(c, run) == Some(c') && Tells(c, r, target, side)
    ensures Tells(c', r, target, HeardIn(c, run, r, target, side))
    decreases |run|
  {
    hide Can, Do, Tells, Heard;
    if run != [] {
      StepTells(c, run[0], r, target, side);
      RunTells(Do(c, run[0]), run[1..], c', r, target, Heard(c, run[0], r, target, side));
    }
  }

  // ----- names that were missing ----------------------------------------------------------------

  /** At some point of the run the directory has no entry `n`. */
  ghost predicate EverAbsent(c: State, run: seq<Step>, n: S.Name)
    decreases |run|
  {
    n !in c.s.d.dir || (run != [] && Can(c, run[0]) && EverAbsent(Do(c, run[0]), run[1..], n))
  }

  /** The name whose absence ended the reader's call. */
  function Missed(x: S.Reader): Option<S.Name>
  {
    if x.pc.NoSidecar? then Some(Paths.ChecksumPath(x.target))
    else if x.pc.NoTarget? then Some(x.target)
    else None
  }

  ghost predicate Misses(c: State, r: S.Id, n: S.Name)
  {
    r in c.s.readers && Missed(c.s.readers[r]) == Some(n)
  }

  lemma MissedIsAbsent(d: S.Disk, x: S.Reader, step: S.ReaderStep, n: S.Name)
    requires S.CanReader(d, x, step) && Missed(x.(pc := S.NextReader(d, x, step))) == Some(n)
    ensures n !in d.dir || Missed(x) == Some(n)
  {
    hide SidecarText.ParseBytes, Paths.ChecksumPath;
  }

  lemma MissesOneStep(c: State, step: Step, r: S.Id, n: S.Name)
    requires Can(c, step) && Misses(Do(c, step), r, n)
    ensures Misses(c, r, n) || n !in c.s.d.dir
  {
    hide Can, Do, S.CanReader, S.NextReader;
    if step.Disk? {
      DiskRecords(c, step.dstep);
      match step.dstep {
        case StartRead(q, x) => StartEffect(c, q, x);
        case R(q, rstep) =>
          ReadEffect(c, q, rstep);
          if q == r && !rstep.Forgo? { MissedIsAbsent(c.s.d, c.s.readers[r], rstep, n); }
        case _ =>
      }
    } else {
      OtherEffect(c, step);
    }
  }

  /** A call that ended because a name was missing met a directory without it. */
  lemma {:induction false} MissedWasAbsent(c: State, run: seq<Step>, c': State, r: S.Id, n: S.Name)
    requires Exec(c, run) == Some(c') && Misses(c', r, n) && !Misses(c, r, n)
    ensures EverAbsent(c, run, n)
    decreases |run|
  {
    hide Can, Do, Misses;
    if run != [] {
      if Misses(Do(c, run[0]), r, n) {
        MissesOneStep(c, run[0], r, n);
      } else {
        MissedWasAbsent(Do(c, run[0]), run[1..], c', r, n);
      }
    }
  }
}
