/**
  The promises of the persistence protocol over whole runs: crash consistency,
  durability of strict writes, exact histories, snapshot reads, reads that
  match their sidecar, and independence of the targets in a directory.
 */
module StorageTheorems {
  import opened Basics
  import Paths
  import SidecarText
  import opened Storage
  import opened StorageInvariant

  // ----- runs ---------------------------------------------------------------------

  lemma GrowsTwice(d: Disk, d1: Disk, d2: Disk)
    requires Grows(d, d1) && Grows(d1, d2)
    ensures Grows(d, d2)
  {
  }

  /** The invariant holds along every run, with any number of power losses in it. */
  lemma {:induction false} RunKeeps(s: State, run: seq<Step>, s': State)
    requires Inv(s) && FreshNames(run) && Exec(s, run) == Some(s')
    ensures Inv(s') && Grows(s.d, s'.d)
    decreases |run|
  {
    hide Inv, Grows, Do, Can;
    if run == [] {
      NothingChanges(s.d);
    } else {
      StepKeeps(s, run[0]);
      RunKeeps(Do(s, run[0]), run[1..], s');
      GrowsTwice(s.d, Do(s, run[0]).d, s'.d);
    }
  }

  lemma {:induction false} RunAppend(s: State, run: seq<Step>, more: seq<Step>, s1: State)
    requires Exec(s, run) == Some(s1)
    ensures Exec(s, run + more) == Exec(s1, more)
    decreases |run|
  {
    hide Do, Can;
    if run == [] {
      assert run + more == more;
    } else {
      assert (run + more)[1..] == run[1..] + more;
      RunAppend(Do(s, run[0]), run[1..], more, s1);
    }
  }

  /** One more step at the end of a run. */
  lemma Then(s0: State, run: seq<Step>, s: State, step: Step) returns (run': seq<Step>, s': State)
    requires Exec(s0, run) == Some(s) && Can(s, step)
    ensures run' == run + [step] && s' == Do(s, step) && Exec(s0, run') == Some(s')
  {
    hide Do, Can;
    run', s' := run + [step], Do(s, step);
    RunAppend(s0, run, [step], s);
    assert Exec(s, [step]) == Exec(s', [step][1..]);
  }

  // ----- crash consistency ------------------------------------------------------------

  /**
    Whatever happened before, and whatever the disk makes of it, power loss
    leaves under every target one complete version of its history, no older
    than the newest version a strict write has returned for.
   */
  lemma CrashConsistency(s0: State, run: seq<Step>, s: State, keep: map<Name, Option<Ino>>, junk: map<Ino, Bytes>,
      t: Name)
    returns (k: nat)
    requires Init(s0) && FreshNames(run) && Exec(s0, run) == Some(s)
    requires t in s.d.targets && Can(s, PowerLoss(keep, junk))
    ensures t in s.d.versions && t in s.d.acked && s.d.acked[t] <= k < |s.d.versions[t]|
    ensures Show(Do(s, PowerLoss(keep, junk)).d, t) == s.d.versions[t][k]
    ensures forall w | w in s.writers && s.writers[w].target == t && s.writers[w].safety == Strict
              && s.writers[w].pc.Returned? :: s.writers[w].pc.version <= k
  {
    hide Inv, Init, Exec, AfterLoss, CanLosePower;
    InitHolds(s0);
    RunKeeps(s0, run, s);
    FloorHolds(s, t);
    k := LossShows(s, keep, junk, t);
    forall w | w in s.writers && s.writers[w].target == t && s.writers[w].safety == Strict && s.writers[w].pc.Returned?
      ensures s.writers[w].pc.version <= k
    {
      ReturnedIsKept(s, w);
    }
  }

  lemma LossShows(s: State, keep: map<Name, Option<Ino>>, junk: map<Ino, Bytes>, t: Name) returns (k: nat)
    requires Inv(s) && t in s.d.targets && CanLosePower(s.d, keep)
    ensures t in s.d.versions && t in s.d.floor && s.d.floor[t] <= k < |s.d.versions[t]|
    ensures Show(AfterLoss(s.d, keep, junk), t) == s.d.versions[t][k]
  {
    hide AfterLoss, CanLosePower;
    k := LossRestores(s.d, keep, junk, t);
  }

  lemma ReturnedIsKept(s: State, w: Id)
    requires Inv(s) && w in s.writers && s.writers[w].pc.Returned?
    ensures var x := s.writers[w];
      && x.target in s.d.targets && x.target in s.d.versions && x.target in s.d.acked
      && HasPlaced(s.d, x, x.pc.version, x.pc.content)
      && (x.safety == Strict ==> x.pc.version <= s.d.acked[x.target])
  {
    hide NamesOk, SidesOk, HistoryOk;
    DiskIsNamed(s.d);
    assert WriterOk(s.d, w, s.writers[w]);
  }

  /**
    Durability: once a strict write has returned, its content is in the
    history for good, it is all of the data it was given, and no later power
    loss brings back anything older, however long the run goes on.
   */
  lemma StrictWriteSurvives(s0: State, run1: seq<Step>, s1: State, w: Id, run2: seq<Step>, s2: State,
                            keep: map<Name, Option<Ino>>, junk: map<Ino, Bytes>)
    returns (k: nat)
    requires Init(s0) && FreshNames(run1) && Exec(s0, run1) == Some(s1)
    requires w in s1.writers && s1.writers[w].pc.Returned? && s1.writers[w].safety == Strict
    requires FreshNames(run2) && Exec(s1, run2) == Some(s2) && Can(s2, PowerLoss(keep, junk))
    ensures var x := s1.writers[w];
      && x.target in s2.d.versions && x.pc.version <= k < |s2.d.versions[x.target]|
      && s2.d.versions[x.target][x.pc.version].Present?
      && s2.d.versions[x.target][x.pc.version].data == x.pc.content
      && (x.goal.Some? ==> x.pc.content == x.goal.value)
      && Show(Do(s2, PowerLoss(keep, junk)).d, x.target) == s2.d.versions[x.target][k]
  {
    hide Inv, Init, Exec, AfterLoss, CanLosePower;
    InitHolds(s0);
    RunKeeps(s0, run1, s1);
    ReturnedIsKept(s1, w);
    RunKeeps(s1, run2, s2);
    FloorHolds(s2, s1.writers[w].target);
    k := LossShows(s2, keep, junk, s1.writers[w].target);
  }

  lemma FloorHolds(s: State, t: Name)
    requires Inv(s) && t in s.d.targets
    ensures t in s.d.versions && t in s.d.acked && t in s.d.floor
    ensures s.d.acked[t] <= s.d.floor[t] < |s.d.versions[t]|
  {
    assert HistoryOk(s.d, t);
  }

  // ----- exact histories ------------------------------------------------------------------

  function Content(v: Version): Option<Bytes>
  {
    if v.Present? then Some(v.data) else None
  }

  function Contents(vs: seq<Version>): (r: seq<Option<Bytes>>)
    ensures |r| == |vs| && forall i | 0 <= i < |vs| :: r[i] == Content(vs[i])
  {
    seq(|vs|, i requires 0 <= i < |vs| => Content(vs[i]))
  }

  /** The contents that writers of `t`, and only they, put in place during the run, in order. */
  ghost function Placements(s: State, run: seq<Step>, t: Name): seq<Option<Bytes>>
    requires Exec(s, run).Some?
    decreases |run|
  {
    if run == [] then []
    else (if Places(s, run[0], t) then [Some(s.writers[run[0].w].pc.accepted)] else [])
         + Placements(Do(s, run[0]), run[1..], t)
  }

  predicate Places(s: State, step: Step, t: Name)
    requires Can(s, step)
  {
    step.W? && step.wstep.Place? && s.writers[step.w].target == t
  }

  predicate NoPowerLoss(run: seq<Step>)
  {
    forall i | 0 <= i < |run| :: !run[i].PowerLoss?
  }

  lemma PlacingWriter(s: State, w: Id)
    requires Inv(s) && w in s.writers && s.writers[w].pc.Closed?
    ensures var x := s.writers[w];
      && x.target in s.d.targets && x.pc.tmp in s.d.dir && s.d.dir[x.pc.tmp] in s.d.inodes
      && s.d.inodes[s.d.dir[x.pc.tmp]].data == x.pc.accepted
  {
    DiskIsNamed(s.d);
    assert WriterOk(s.d, w, s.writers[w]);
    hide NamesOk, SidesOk, HistoryOk;
    ScratchIsReady(s.d, w, s.writers[w]);
  }

  /** Only a rename, or power loss, changes any history. */
  lemma OthersKeepVersions(d: Disk, w: Id, x: Writer, step: WriterStep)
    requires CanWriter(d, w, x, step) && !step.Place?
    ensures NextDisk(d, w, x, step).versions == d.versions
  {
    hide Paths.ChecksumPath, Paths.LockPath, Paths.IsTmpName;
  }

  /** What one step adds to the history of `t`. */
  lemma StepHistory(s: State, step: Step, t: Name)
    requires Inv(s) && Can(s, step) && !Collides(step) && t in s.d.targets
    ensures t in s.d.versions && t in Do(s, step).d.versions
    ensures !step.PowerLoss? ==>
      Contents(Do(s, step).d.versions[t])
        == Contents(s.d.versions[t]) + if Places(s, step, t) then [Some(s.writers[step.w].pc.accepted)] else []
    ensures step.PowerLoss? ==>
      exists k :: 0 <= k < |s.d.versions[t]| && Do(s, step).d.versions[t] == s.d.versions[t] + [s.d.versions[t][k]]
  {
    hide Inv, CanLosePower;
    InvKeys(s);
    if step.PowerLoss? {
      var k := LossShows(s, step.keep, step.junk, t);
      assert Do(s, step).d.versions[t] == s.d.versions[t] + [Show(Do(s, step).d, t)];
    } else if step.W? {
      if step.wstep.Place? {
        PlacingWriter(s, step.w);
        PlaceHistory(s, step.w, t);
      } else {
        hide NextDisk, NextPc, CanWriter;
        OthersKeepVersions(s.d, step.w, s.writers[step.w], step.wstep);
      }
    }
  }

  lemma PlaceHistory(s: State, w: Id, t: Name)
    requires Can(s, W(w, Place)) && t in s.d.versions && s.writers[w].target in s.d.versions
    ensures var x, d' := s.writers[w], Do(s, W(w, Place)).d;
      && t in d'.versions
      && d'.versions[t] == s.d.versions[t] + if x.target != t then [] else
           [Present(s.d.dir[x.pc.tmp], s.d.inodes[s.d.dir[x.pc.tmp]].data)]
  {
  }

  /** Without power loss the history of a target is exactly what its own writers placed, in order. */
  lemma {:induction false} HistoryIsPlacements(s: State, run: seq<Step>, s': State, t: Name)
    requires Inv(s) && FreshNames(run) && NoPowerLoss(run) && Exec(s, run) == Some(s') && t in s.d.targets
    ensures t in s.d.versions && t in s'.d.versions
    ensures Contents(s'.d.versions[t]) == Contents(s.d.versions[t]) + Placements(s, run, t)
    decreases |run|
  {
    hide Inv, Can, Do, Places;
    InvKeys(s);
    if run != [] {
      StepKeeps(s, run[0]);
      StepHistory(s, run[0], t);
      SameTargets(s, run[0]);
      HistoryIsPlacements(Do(s, run[0]), run[1..], s', t);
    }
  }

  lemma InvKeys(s: State)
    requires Inv(s)
    ensures s.d.versions.Keys == s.d.targets
  {
  }

  lemma SameTargets(s: State, step: Step)
    requires Inv(s) && Can(s, step) && !Collides(step)
    ensures Do(s, step).d.targets == s.d.targets
  {
    StepKeeps(s, step);
  }

  /** Even over power losses, nothing a target shows was ever anything but one writer's complete content. */
  lemma {:induction false} EveryVersionWasPlaced(s: State, run: seq<Step>, s': State, t: Name, k: nat)
    requires Inv(s) && FreshNames(run) && Exec(s, run) == Some(s') && t in s.d.targets
    requires t in s'.d.versions && k < |s'.d.versions[t]|
    ensures t in s.d.versions
    ensures Content(s'.d.versions[t][k]) in Contents(s.d.versions[t]) + Placements(s, run, t)
    decreases |run|
  {
    hide Inv, Can, Do, Places;
    InvKeys(s);
    if run == [] {
      assert Contents(s.d.versions[t])[k] == Content(s'.d.versions[t][k]);
    } else {
      StepKeeps(s, run[0]);
      StepHistory(s, run[0], t);
      SameTargets(s, run[0]);
      var s1 := Do(s, run[0]);
      EveryVersionWasPlaced(s1, run[1..], s', t, k);
      if run[0].PowerLoss? && Content(s'.d.versions[t][k]) in Contents(s1.d.versions[t]) {
        var i :| 0 <= i < |s1.d.versions[t]| && Contents(s1.d.versions[t])[i] == Content(s'.d.versions[t][k]);
        var j :| 0 <= j < |s.d.versions[t]| && s1.d.versions[t] == s.d.versions[t] + [s.d.versions[t][j]];
        assert Contents(s.d.versions[t])[if i < |s.d.versions[t]| then i else j] == Content(s'.d.versions[t][k]);
      }
    }
  }

  /** Writers of other targets, their temporaries, locks and sidecars never touch what `t` shows. */
  lemma TargetsDoNotInterfere(s: State, run: seq<Step>, s': State, t: Name)
    requires Inv(s) && FreshNames(run) && NoPowerLoss(run) && Exec(s, run) == Some(s') && t in s.d.targets
    requires Placements(s, run, t) == []
    ensures Content(Show(s'.d, t)) == Content(Show(s.d, t))
  {
    hide Inv, Exec, Placements, NoPowerLoss, Show;
    HistoryIsPlacements(s, run, s', t);
    RunKeeps(s, run, s');
    ShownIsLatest(s, t);
    ShownIsLatest(s', t);
    var n := |s.d.versions[t]| - 1;
    assert Contents(s.d.versions[t])[n] == Contents(s'.d.versions[t])[n];
  }

  lemma ShownIsLatest(s: State, t: Name)
    requires Inv(s) && t in s.d.targets
    ensures t in s.d.versions && s.d.versions[t] != []
    ensures Show(s.d, t) == s.d.versions[t][|s.d.versions[t]| - 1]
  {
    assert HistoryOk(s.d, t);
    assert Frozen(s.d, s.d.versions[t][|s.d.versions[t]| - 1]);
  }

  /** A step of a writer leaves every name as it is but its temporary file, target, sidecar and lock. */
  lemma OnlyOwnNames(d: Disk, w: Id, x: Writer, step: WriterStep, n: Name)
    requires CanWriter(d, w, x, step) && !step.Collide? && n != Paths.LockPath(x.target)
    requires step.Create? ==> n != step.tmp
    requires step.Place? ==> n != x.pc.tmp && n != x.target
    requires step.Clean? ==> x.pc.orphan != Some(n)
    requires step.Truncate? ==> n != Paths.ChecksumPath(x.target)
    ensures Entry(NextDisk(d, w, x, step), n) == Entry(d, n) && NextDisk(d, w, x, step).hash == d.hash
  {
    hide Overwrite, Paths.IsTmpName, Paths.LockPath, Paths.ChecksumPath;
  }

  // ----- readers ------------------------------------------------------------------------------

  /** The run neither ends nor restarts the call of reader `r`. */
  predicate SameCall(run: seq<Step>, r: Id)
  {
    forall i | 0 <= i < |run| :: !(run[i].StartRead? && run[i].r == r) && run[i] != R(r, Forgo)
  }

  /** A reader in the middle of version `v` stays on `v` and only adds to what it has. */
  ghost predicate Continues(a: ReaderPc, b: ReaderPc)
    requires a.Reading?
  {
    || (b.Reading? && b.version == a.version && b.ino == a.ino && a.got <= b.got)
    || ((b.Got? || b.Mismatch?) && b.version == a.version && a.got <= b.content)
  }

  lemma StepContinues(s: State, step: Step, r: Id)
    requires Can(s, step) && r in s.readers && r in Do(s, step).readers
    requires !(step.StartRead? && step.r == r) && step != R(r, Forgo)
    ensures Do(s, step).readers[r].target == s.readers[r].target
    ensures s.readers[r].pc.Reading? ==> Continues(s.readers[r].pc, Do(s, step).readers[r].pc)
    ensures s.readers[r].pc.Got? || s.readers[r].pc.Mismatch? ==> Do(s, step).readers[r] == s.readers[r]
  {
    hide NextDisk, NextPc, CanWriter, CanLosePower, AfterLoss, Paths.ChecksumPath, SidecarText.ParseBytes;
  }

  /** A reader that is gone stays gone until a new call. */
  lemma {:induction false} GoneStaysGone(s: State, run: seq<Step>, s': State, r: Id)
    requires Exec(s, run) == Some(s') && r !in s.readers && SameCall(run, r)
    ensures r !in s'.readers
    decreases |run|
  {
    if run != [] {
      hide NextDisk, NextPc, CanWriter, NextReader, CanReader, CanLosePower, AfterLoss;
      assert !(run[0].StartRead? && run[0].r == r);
      GoneStaysGone(Do(s, run[0]), run[1..], s', r);
    }
  }

  lemma {:induction false} RunContinues(s: State, run: seq<Step>, s': State, r: Id)
    requires Exec(s, run) == Some(s') && SameCall(run, r)
    requires r in s.readers && r in s'.readers
    ensures s'.readers[r].target == s.readers[r].target
    ensures s.readers[r].pc.Reading? ==> Continues(s.readers[r].pc, s'.readers[r].pc)
    ensures s.readers[r].pc.Got? || s.readers[r].pc.Mismatch? ==> s'.readers[r] == s.readers[r]
    decreases |run|
  {
    hide Do, Can;
    if run != [] {
      var s1 := Do(s, run[0]);
      if r !in s1.readers {
        GoneStaysGone(s1, run[1..], s', r);
      } else {
        StepContinues(s, run[0], r);
        RunContinues(s1, run[1..], s', r);
      }
    }
  }

  /**
    Snapshot reads: however many writers replace the target between two reads
    of one call, what the call has read so far is a prefix of one complete
    version, always the same one, and not older than the call itself.
   */
  lemma SnapshotRead(s0: State, run1: seq<Step>, s1: State, r: Id, run2: seq<Step>, s2: State)
    requires Init(s0) && FreshNames(run1) && Exec(s0, run1) == Some(s1)
    requires FreshNames(run2) && Exec(s1, run2) == Some(s2) && SameCall(run2, r)
    requires r in s1.readers && r in s2.readers && s1.readers[r].pc.Reading?
    ensures var x, y := s1.readers[r], s2.readers[r];
      && Continues(x.pc, y.pc) && y.target == x.target
      && x.target in s1.d.versions && x.target in s2.d.versions
      && x.since <= x.pc.version < |s1.d.versions[x.target]|
      && s1.d.versions[x.target] <= s2.d.versions[x.target]
      && s2.d.versions[x.target][x.pc.version].Present?
      && (if y.pc.Reading? then y.pc.got <= s2.d.versions[x.target][x.pc.version].data
          else y.pc.content == s2.d.versions[x.target][x.pc.version].data)
  {
    hide Inv, Init, Exec, SameCall, WantOk, Vouches;
    InitHolds(s0);
    RunKeeps(s0, run1, s1);
    RunKeeps(s1, run2, s2);
    RunContinues(s1, run2, s2, r);
    ReaderHolds(s1, r);
    ReaderHolds(s2, r);
  }

  lemma ReaderHolds(s: State, r: Id)
    requires Inv(s) && r in s.readers
    ensures s.d.versions.Keys == s.d.targets && ReaderOk(s.d, s.readers[r])
  {
    DiskIsNamed(s.d);
  }

  /**
    No false match: a checked read hands out a complete version, no older than
    its start, and only one whose hash is the digest in the sidecar bytes the
    same call read before; it reports a mismatch only for a digest that parsed
    and a complete version that does not hash to it.  Sidecars may be
    rewritten in place under the reader at any moment.
   */
  lemma NoFalseMatch(s0: State, run: seq<Step>, s: State, r: Id)
    requires Init(s0) && FreshNames(run) && Exec(s0, run) == Some(s) && r in s.readers
    ensures var x := s.readers[r];
      x.pc.Got? || x.pc.Mismatch? ==>
        && x.target in s.d.versions && x.since <= x.pc.version < |s.d.versions[x.target]|
        && Content(s.d.versions[x.target][x.pc.version]) == Some(x.pc.content)
        && (x.check ==> SidecarText.ParseBytes(x.pc.seen).Some?)
        && (x.pc.Mismatch? ==> x.check)
        && (x.check ==> (x.pc.Got? <==> Vouches(x.pc.seen, s.d.hash(x.algo, x.pc.content))))
  {
    hide Inv, Init, Exec, SidecarText.ParseBytes;
    InitHolds(s0);
    RunKeeps(s0, run, s);
    ReaderHolds(s, r);
  }

  /** With an injective hash, a checked read returns the one content its sidecar speaks for. */
  lemma CheckedReadIsTheRecordedContent(s0: State, run: seq<Step>, s: State, r: Id, recorded: Bytes)
    requires Init(s0) && FreshNames(run) && Exec(s0, run) == Some(s)
    requires r in s.readers && s.readers[r].check && s.readers[r].pc.Got?
    requires forall a, b :: s.d.hash(s.readers[r].algo, a) == s.d.hash(s.readers[r].algo, b) ==> a == b
    requires Vouches(s.readers[r].pc.seen, s.d.hash(s.readers[r].algo, recorded))
    ensures s.readers[r].pc.content == recorded
  {
    hide Exec, Init;
    NoFalseMatch(s0, run, s, r);
  }

  // ----- why the temporary names must be fresh ---------------------------------------------------

  /**
    With equal tokens the promise fails.  Writer 1 creates a temporary file;
    writer 2 draws the same name, fails to create it and unlinks it; writer 3
    draws it too and has written half of its data when writer 1 renames the
    name.  The target then shows half of writer 3's data, unsynced.
   */
  lemma CollisionTearsTheTarget() returns (s0: State, run: seq<Step>, s: State)
    ensures Init(s0) && !FreshNames(run) && Exec(s0, run) == Some(s)
    ensures s0.d.targets == {"t"} && Content(Show(s0.d, "t")) == None
    ensures Show(s.d, "t") == Present(1, [1]) && !s.d.inodes[1].durable
    ensures forall w | w in s.writers :: s.writers[w].goal.Some? && s.writers[w].goal.value != [1]
  {
    hide Paths.LockPath, Paths.ChecksumPath, Paths.IsTmpName, Paths.TmpName, Paths.GoodTargets, Exec;
    hide SidecarBytes, Reopen, Acknowledge, Settle, MayReturn, AfterLoss, CanLosePower, NextReader, CanReader,
        Overwrite;
    var tmp := Paths.TmpName("");
    OneGoodTarget(tmp);
    s0, run, s := WriterTwoUnlinks(tmp);
    run, s := WriterThreeIsHalfway(s0, run, s, tmp);
    run, s := WriterOneIsReady(s0, run, s, tmp);
    hide Init, NextDisk, NextPc, CanWriter;
    run, s := WriterOnePlaces(s0, run, s, tmp);
    assert Collides(run[3]);
  }

  /** The name is writer 3's by now. */
  lemma WriterOnePlaces(s0: State, run0: seq<Step>, s9: State, tmp: Name) returns (run: seq<Step>, s: State)
    requires Exec(s0, run0) == Some(s9) && |run0| == 9 && tmp != "t"
    requires s9.d.inodes == map[0 := Inode([], true, Scratch(1)), 1 := Inode([1], false, Scratch(3))]
    requires s9.d.dir == map[tmp := 1] && s9.d.versions == map["t" := [Absent]]
    requires 1 in s9.writers && s9.writers[1] == Plainly([]).(pc := Closed(tmp, 0, []))
    ensures Exec(s0, run) == Some(s) && |run| == 10 && run[3] == run0[3]
    ensures Show(s.d, "t") == Present(1, [1]) && 1 in s.d.inodes && !s.d.inodes[1].durable
    ensures s.writers.Keys == s9.writers.Keys
    ensures forall w | w in s.writers :: s.writers[w].goal == s9.writers[w].goal
  {
    hide Paths.LockPath, Paths.ChecksumPath, Paths.IsTmpName, Exec;
    hide SidecarBytes, Reopen, Acknowledge, Settle, MayReturn, AfterLoss, CanLosePower, NextReader, CanReader,
        Overwrite;
    run, s := Then(s0, run0, s9, W(1, Place));
  }

  function Plainly(data: Bytes): Writer
  {
    Writer("t", Strict, false, "sha256", Some(data), Begun)
  }

  lemma WriterOneCreates(tmp: Name) returns (s0: State, run: seq<Step>, s: State)
    requires Paths.IsTmpName(tmp) && Paths.GoodTargets({"t"})
    ensures Init(s0) && Exec(s0, run) == Some(s) && |run| == 2
    ensures s0.d.targets == {"t"} && s0.d.dir == map[]
    ensures s.d.inodes == map[0 := Inode([], false, Scratch(1))] && s.d.dir == map[tmp := 0]
    ensures s.d.targets == {"t"} && s.d.versions == map["t" := [Absent]]
    ensures s.writers == map[1 := Plainly([]).(pc := Open(tmp, 0, []))]
  {
    hide Paths.LockPath, Paths.ChecksumPath, Paths.IsTmpName, Paths.GoodTargets, Exec;
    hide SidecarBytes, Reopen, Acknowledge, Settle, MayReturn, AfterLoss, CanLosePower, NextReader, CanReader,
        Overwrite;
    var d0 := Disk((a, b) => "", {"t"}, map[], map[], map[], map["t" := [Absent]], map["t" := 0], map["t" := 0]);
    s0 := State(d0, map[], map[]);
    run, s := [], s0;
    NoSteps(s0);
    run, s := Then(s0, run, s, Begin(1, Plainly([])));
    run, s := Then(s0, run, s, W(1, Create(tmp, 0)));
  }

  lemma WriterTwoUnlinks(tmp: Name) returns (s0: State, run: seq<Step>, s: State)
    requires Paths.IsTmpName(tmp) && tmp != "t" && Paths.GoodTargets({"t"})
    ensures Init(s0) && Exec(s0, run) == Some(s) && |run| == 4 && Collides(run[3])
    ensures s0.d.targets == {"t"} && s0.d.dir == map[]
    ensures s.d.inodes == map[0 := Inode([], false, Scratch(1))] && s.d.dir == map[]
    ensures s.d.targets == {"t"} && s.d.versions == map["t" := [Absent]]
    ensures s.writers == map[1 := Plainly([]).(pc := Open(tmp, 0, [])), 2 := Plainly([8]).(pc := Raised(false))]
  {
    hide Paths.LockPath, Paths.ChecksumPath, Paths.IsTmpName, Paths.GoodTargets, Exec;
    hide SidecarBytes, Reopen, Acknowledge, Settle, MayReturn, AfterLoss, CanLosePower, NextReader, CanReader,
        Overwrite;
    s0, run, s := WriterOneCreates(tmp);
    run, s := Then(s0, run, s, Begin(2, Plainly([8])));
    run, s := Then(s0, run, s, W(2, Collide(tmp)));
  }

  /** Writer 3 owns the name writer 1 still believes to be its own. */
  lemma WriterThreeIsHalfway(s0: State, run0: seq<Step>, s4: State, tmp: Name) returns (run: seq<Step>, s: State)
    requires Exec(s0, run0) == Some(s4) && Paths.IsTmpName(tmp) && |run0| == 4
    requires s4.d.inodes == map[0 := Inode([], false, Scratch(1))] && s4.d.dir == map[]
    requires s4.d.targets == {"t"} && s4.d.versions == map["t" := [Absent]]
    requires s4.writers == map[1 := Plainly([]).(pc := Open(tmp, 0, [])), 2 := Plainly([8]).(pc := Raised(false))]
    ensures Exec(s0, run) == Some(s) && |run| == 7 && run[3] == run0[3]
    ensures s.d.inodes == map[0 := Inode([], false, Scratch(1)), 1 := Inode([1], false, Scratch(3))]
    ensures s.d.dir == map[tmp := 1] && s.d.versions == map["t" := [Absent]]
    ensures s.writers == map[1 := Plainly([]).(pc := Open(tmp, 0, [])), 2 := Plainly([8]).(pc := Raised(false)),
                             3 := Plainly([1, 2]).(pc := Open(tmp, 1, [1]))]
  {
    hide Paths.LockPath, Paths.ChecksumPath, Paths.IsTmpName, Exec;
    hide SidecarBytes, Reopen, Acknowledge, Settle, MayReturn, AfterLoss, CanLosePower, NextReader, CanReader,
        Overwrite;
    assert [] + [1] == [1 as byte];
    run, s := run0, s4;
    run, s := Then(s0, run, s, Begin(3, Plainly([1, 2])));
    run, s := Then(s0, run, s, W(3, Create(tmp, 1)));
    run, s := Then(s0, run, s, W(3, Write([1])));
  }

  lemma WriterOneIsReady(s0: State, run0: seq<Step>, s7: State, tmp: Name) returns (run: seq<Step>, s: State)
    requires Exec(s0, run0) == Some(s7) && |run0| == 7
    requires s7.d.inodes == map[0 := Inode([], false, Scratch(1)), 1 := Inode([1], false, Scratch(3))]
    requires 1 in s7.writers && s7.writers[1] == Plainly([]).(pc := Open(tmp, 0, []))
    ensures Exec(s0, run) == Some(s) && |run| == 9 && run[3] == run0[3]
    ensures s.d.inodes == s7.d.inodes[0 := Inode([], true, Scratch(1))] && s.d.dir == s7.d.dir
    ensures s.d.versions == s7.d.versions
    ensures s.writers == s7.writers[1 := Plainly([]).(pc := Closed(tmp, 0, []))]
  {
    hide Paths.LockPath, Paths.ChecksumPath, Paths.IsTmpName, Exec;
    hide SidecarBytes, Reopen, Acknowledge, Settle, MayReturn, AfterLoss, CanLosePower, NextReader, CanReader,
        Overwrite;
    run, s := run0, s7;
    run, s := Then(s0, run, s, W(1, Sync));
    run, s := Then(s0, run, s, W(1, Close));
  }

  lemma NoSteps(s: State)
    ensures Exec(s, []) == Some(s)
  {
  }

  lemma OneGoodTarget(tmp: Name)
    requires tmp == Paths.TmpName("")
    ensures Paths.IsTmpName(tmp) && tmp != "t" && Paths.GoodTargets({"t"})
  {
    Paths.TmpNamesExactly(tmp);
    Paths.DerivedNames("t", "t");
  }
}
