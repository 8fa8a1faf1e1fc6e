/**
  What power loss can do to a target, exactly: it can bring back every version
  since the last directory fsync that succeeded, and nothing else.  So the
  fsyncs are enough, and without them nothing is certain.
 */
module CrashOutcomes {
  import opened Basics
  import Paths
  import opened Storage
  import opened StorageInvariant
  import opened StorageTheorems

  /** Every version from the floor on is still among the entries its name may come back with. */
  ghost predicate StillPossible(d: Disk)
    requires d.versions.Keys == d.floor.Keys == d.targets
  {
    forall t, k: nat | t in d.targets && d.floor[t] <= k < |d.versions[t]| ::
      MayBe(d, t, VersionEntry(d.versions[t][k]))
  }

  /** Nothing an entry has been is forgotten. */
  ghost predicate Remembers(d: Disk, d': Disk)
  {
    forall n, o | MayBe(d, n, o) :: MayBe(d', n, o)
  }

  lemma SettingRemembers(d0: Disk, d: Disk, n: Name, entry: Option<Ino>)
    requires d.dir == d0.dir && d.pending == d0.pending
    ensures Remembers(d0, d) && Remembers(d0, SetEntry(d, n, entry)) && MayBe(SetEntry(d, n, entry), n, entry)
  {
  }

  /** Every step of a writer but the directory fsync and the replace. */
  lemma PlainStepRemembers(d: Disk, w: Id, x: Writer, step: WriterStep)
    requires CanWriter(d, w, x, step) && !step.SyncDir? && !step.Place?
    ensures Remembers(d, NextDisk(d, w, x, step))
  {
    hide Paths.ChecksumPath, Paths.LockPath, Paths.IsTmpName, MayReturn, Overwrite, SetEntry, MayBe, Remembers;
    var d' := NextDisk(d, w, x, step);
    if d'.dir == d.dir && d'.pending == d.pending { SettingRemembers(d, d', "", None); }
    match step
    case Create(tmp, ino) => SettingRemembers(d, AddInode(d, ino, Inode([], false, Scratch(w))), tmp, Some(ino));
    case Collide(tmp) => SettingRemembers(d, d, tmp, None);
    case Clean(_) => SettingRemembers(d, d, if x.pc.orphan.Some? then x.pc.orphan.value else "", None);
    case Truncate(ino) =>
      var side := Paths.ChecksumPath(x.target);
      SettingRemembers(d, AddInode(d, ino, Inode([], false, Sidecar(x.target))), side, Some(ino));
      if side in d.dir && ino in d.inodes { SettingRemembers(d, Fill(d, ino, [], false), side, None); }
    case LockEntry(entry) =>
      SettingRemembers(d, if entry.Some? then AddInode(d, entry.value, Inode([], false, Other)) else d,
                       Paths.LockPath(x.target), entry);
    case _ =>
  }

  lemma PlainStepKeeps(d: Disk, w: Id, x: Writer, step: WriterStep)
    requires CanWriter(d, w, x, step) && !step.SyncDir? && !step.Place?
    ensures var d' := NextDisk(d, w, x, step);
      d'.versions == d.versions && d'.floor == d.floor && d'.targets == d.targets
  {
    hide Paths.ChecksumPath, Paths.LockPath, Paths.IsTmpName, MayReturn, Overwrite;
  }

  /** The replace adds a version, and the entries before it stay possible. */
  lemma PlaceKeepsPossible(d: Disk, w: Id, x: Writer)
    requires DiskOk(d) && StillPossible(d) && CanWriter(d, w, x, Place) && x.target in d.targets
    ensures DiskOk(NextDisk(d, w, x, Place)) ==> StillPossible(NextDisk(d, w, x, Place))
  {
    hide Paths.ChecksumPath, Paths.LockPath, Paths.IsTmpName, SideOk, HistoryOk;
    var d1, i := SetEntry(d, x.pc.tmp, None), d.dir[x.pc.tmp];
    SettingRemembers(d, d, x.pc.tmp, None);
    SettingRemembers(d1, d1, x.target, Some(i));
    var d2, d' := SetEntry(d1, x.target, Some(i)), NextDisk(d, w, x, Place);
    assert Remembers(d, d2) && d'.dir == d2.dir && d'.pending == d2.pending;
    hide SetEntry;
  }

  lemma SyncKeepsPossible(d: Disk)
    requires DiskOk(d)
    ensures DiskOk(Settle(d)) ==> StillPossible(Settle(d))
  {
    forall t | t in d.targets ensures VersionEntry(d.versions[t][Latest(d, t)]) == Entry(d, t) {
      assert HistoryOk(d, t);
    }
    hide SideOk, HistoryOk, VersionEntry, Entry;
  }

  lemma LossKeepsPossible(d: Disk, keep: map<Name, Option<Ino>>, junk: map<Ino, Bytes>)
    requires DiskOk(d) && CanLosePower(d, keep)
    ensures DiskOk(AfterLoss(d, keep, junk)) ==> StillPossible(AfterLoss(d, keep, junk))
  {
    hide SideOk, HistoryOk;
  }

  lemma StepKeepsPossible(s: State, step: Step)
    requires Inv(s) && Can(s, step) && !Collides(step) && StillPossible(s.d)
    ensures Inv(Do(s, step)) && StillPossible(Do(s, step).d)
  {
    hide WriterOk, ReaderOk, DiskOk, StillPossible, CanWriter, NextDisk, NextPc, CanReader, NextReader, AfterLoss;
    hide CanLosePower;
    StepKeeps(s, step);
    match step {
      case W(w, wstep) =>
        if !wstep.Forget? { WriterKeepsPossible(s.d, w, s.writers[w], wstep); }
      case PowerLoss(keep, junk) => LossKeepsPossible(s.d, keep, junk);
      case _ =>
    }
  }

  lemma WriterKeepsPossible(d: Disk, w: Id, x: Writer, step: WriterStep)
    requires DiskOk(d) && WriterOk(d, w, x) && CanWriter(d, w, x, step) && StillPossible(d)
    requires DiskOk(NextDisk(d, w, x, step))
    ensures StillPossible(NextDisk(d, w, x, step))
  {
    hide DiskOk, WriterOk, StillPossible, CanWriter, NextDisk, Settle, SetEntry, Remembers;
    TargetKnown(d, w, x);
    if step.Place? {
      PlaceKeepsPossible(d, w, x);
    } else if step.SyncDir? {
      SyncsOrNot(d, w, x, step.ok);
      if step.ok { SyncKeepsPossible(d); }
    } else {
      PlainStepRemembers(d, w, x, step);
      PlainStepKeeps(d, w, x, step);
      OtherwiseKept(d, NextDisk(d, w, x, step));
    }
  }

  lemma SyncsOrNot(d: Disk, w: Id, x: Writer, ok: bool)
    requires CanWriter(d, w, x, SyncDir(ok))
    ensures NextDisk(d, w, x, SyncDir(ok)) == if ok then Settle(d) else d
  {
    hide Settle, SetEntry, Fill;
  }

  lemma TargetKnown(d: Disk, w: Id, x: Writer)
    requires DiskOk(d) && WriterOk(d, w, x)
    ensures x.target in d.targets
  {
    hide DiskOk;
  }

  lemma OtherwiseKept(d: Disk, d': Disk)
    requires DiskOk(d) && DiskOk(d') && StillPossible(d) && Remembers(d, d')
    requires d'.versions == d.versions && d'.floor == d.floor && d'.targets == d.targets
    ensures StillPossible(d')
  {
    hide SideOk, HistoryOk, MayBe;
  }

  lemma {:induction false} RunKeepsPossible(s: State, run: seq<Step>, s': State)
    requires Inv(s) && FreshNames(run) && Exec(s, run) == Some(s') && StillPossible(s.d)
    ensures Inv(s') && StillPossible(s'.d)
    decreases |run|
  {
    hide Inv, Can, Do, StillPossible;
    if run != [] {
      StepKeepsPossible(s, run[0]);
      RunKeepsPossible(Do(s, run[0]), run[1..], s');
    }
  }

  lemma StartsPossible(s: State)
    requires Init(s)
    ensures Inv(s) && StillPossible(s.d)
  {
    InitHolds(s);
  }

  // ----- what power loss can show -------------------------------------------------------------

  /** Everything comes back as it is, but `n` with this entry. */
  function KeepBut(d: Disk, n: Name, entry: Option<Ino>): map<Name, Option<Ino>>
  {
    map m | m in d.dir.Keys + d.pending.Keys :: if m == n then entry else Entry(d, m)
  }

  lemma BringsBack(d: Disk, t: Name, v: Version)
    requires MayBe(d, t, VersionEntry(v)) && Frozen(d, v)
    ensures CanLosePower(d, KeepBut(d, t, VersionEntry(v)))
    ensures Show(AfterLoss(d, KeepBut(d, t, VersionEntry(v)), map[]), t) == v
  {
    var keep := KeepBut(d, t, VersionEntry(v));
    if t !in keep { assert VersionEntry(v) == Entry(d, t) == None; }
  }

  lemma VersionIsPossible(s: State, t: Name, k: nat)
    requires Inv(s) && StillPossible(s.d) && t in s.d.targets && s.d.floor[t] <= k < |s.d.versions[t]|
    ensures MayBe(s.d, t, VersionEntry(s.d.versions[t][k])) && Frozen(s.d, s.d.versions[t][k])
  {
    hide WriterOk, ReaderOk, SidesOk, MayBe, Frozen, Paths.GoodTargets;
    assert HistoryOk(s.d, t);
  }

  /** Version `k` comes back. */
  lemma VersionComesBack(s: State, t: Name, k: nat) returns (keep: map<Name, Option<Ino>>)
    requires Inv(s) && StillPossible(s.d) && t in s.d.targets && s.d.floor[t] <= k < |s.d.versions[t]|
    ensures CanLosePower(s.d, keep) && Show(AfterLoss(s.d, keep, map[]), t) == s.d.versions[t][k]
  {
    VersionIsPossible(s, t, k);
    hide Show, AfterLoss, CanLosePower, Inv, StillPossible, MayBe, Frozen;
    var v := s.d.versions[t][k];
    keep := KeepBut(s.d, t, VersionEntry(v));
    BringsBack(s.d, t, v);
  }

  lemma TargetHasHistory(s: State, t: Name)
    requires Inv(s) && t in s.d.targets
    ensures t in s.d.versions && t in s.d.floor
  {
  }

  /**
    The exact outcomes: after a power loss a target may show what it was at
    any point since the last successful directory fsync, and nothing else.
   */
  lemma PowerLossExactly(s0: State, run: seq<Step>, s: State, t: Name, v: Version)
    requires Init(s0) && FreshNames(run) && Exec(s0, run) == Some(s) && t in s.d.targets
    ensures t in s.d.versions && t in s.d.floor
    ensures (exists k: nat :: s.d.floor[t] <= k < |s.d.versions[t]| && s.d.versions[t][k] == v)
      <==> (exists keep, junk :: Can(s, PowerLoss(keep, junk)) && Show(Do(s, PowerLoss(keep, junk)).d, t) == v)
  {
    hide Init, Exec, Show, Inv, StillPossible, AfterLoss, CanLosePower;
    StartsPossible(s0);
    RunKeepsPossible(s0, run, s);
    TargetHasHistory(s, t);
    if k: nat :| s.d.floor[t] <= k < |s.d.versions[t]| && s.d.versions[t][k] == v {
      var keep := VersionComesBack(s, t, k);
      assert Can(s, PowerLoss(keep, map[])) && Show(Do(s, PowerLoss(keep, map[])).d, t) == v;
    }
    if keep, junk :| Can(s, PowerLoss(keep, junk)) && Show(Do(s, PowerLoss(keep, junk)).d, t) == v {
      var k := LossShows(s, keep, junk, t);
    }
  }

  // ----- what makes a version, or the content of a file, certain --------------------------------

  /** Only a directory fsync that works confirms versions, and then all there are. */
  lemma OnlyDirectoryFsyncConfirms(d: Disk, w: Id, x: Writer, step: WriterStep, t: Name)
    requires CanWriter(d, w, x, step) && t in d.targets && t in d.floor && t in d.versions && d.versions[t] != []
    ensures var d' := NextDisk(d, w, x, step);
      t in d'.floor && d'.floor[t] == if step == SyncDir(true) then |d.versions[t]| - 1 else d.floor[t]
  {
    hide Paths.IsTmpName, Paths.ChecksumPath, Paths.LockPath, Overwrite;
  }

  /** The step writes to this file: it adds to a temporary file, empties a sidecar, or fills it. */
  predicate WritesTo(d: Disk, x: Writer, step: WriterStep, i: Ino)
  {
    || (step.Write? && x.pc.Open? && i == x.pc.ino)
    || (step.Truncate? && i == step.ino)
    || (step.WriteSide? && x.pc.Rewriting? && i == x.pc.side)
  }

  /** Only its own fsync makes the content of a file certain, and every write makes it uncertain again. */
  lemma OnlyFsyncMakesDurable(d: Disk, w: Id, x: Writer, step: WriterStep, i: Ino)
    requires CanWriter(d, w, x, step)
    ensures i in d.inodes ==>
      && i in NextDisk(d, w, x, step).inodes
      && (NextDisk(d, w, x, step).inodes[i].durable <==>
            || ((step.Sync? || step.Flush?) && x.pc.Open? && i == x.pc.ino)
            || (d.inodes[i].durable && !WritesTo(d, x, step, i)))
    ensures i !in d.inodes && i in NextDisk(d, w, x, step).inodes ==> !NextDisk(d, w, x, step).inodes[i].durable
  {
    hide Paths.IsTmpName, Paths.ChecksumPath, Paths.LockPath, Overwrite, Slice, MayReturn;
  }
}
