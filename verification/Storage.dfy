/**
  The persistence protocol of src/safeatomic/_io_core.py as a transition
  system: one directory, any number of targets, writers and readers, every
  system call a step of its own, any call free to fail, any process free to
  die, and power loss at any moment.

  A step carries everything that is not determined by the state (which process
  moves, how many bytes a call accepted, whether it failed), so `Do` is a
  function and a run is a sequence of steps.  `Can` says when the operating
  system and the code allow a step.

  Assumed of the operating system: `rename()` is atomic and `open()` with
  O_CREAT|O_EXCL is exclusive (IEEE Std 1003.1-2017, System Interfaces); an
  fsynced, unmodified file keeps its content over power loss; a directory
  entry comes back from power loss with its current value or any value it had
  since the last successful directory fsync.
 */
module Storage {
  import opened Basics
  import Paths
  import SidecarText

  type Name = string
  type Ino = nat
  type Id = nat

  // ----- disk -------------------------------------------------------------------

  /**
    A history variable that says what an inode is for: being filled by a
    writer, published under a target name, a checksum sidecar, anything else.
   */
  datatype Kind = Scratch(owner: Id) | Published | Sidecar(target: Name) | Other

  /** `durable`: fsynced, and not written since. */
  datatype Inode = Inode(data: Bytes, durable: bool, kind: Kind)

  /** What a target name showed at one point of its history. */
  datatype Version = Absent | Present(ino: Ino, data: Bytes)

  datatype Safety = Strict | Warn | BestEffort

  // ----- processes ----------------------------------------------------------------

  /**
    Where a writer stands in `_write_core` or in an `AtomicWriter`.
    `Durable` is reached past `_fsync_dir`, also when a failure was tolerated.
    `Doomed` is an exception on its way through the cleanup handler.
   */
  datatype WriterPc =
    | Begun
    | Open(tmp: Name, ino: Ino, accepted: Bytes)
    | Synced(tmp: Name, ino: Ino, accepted: Bytes)
    | Closed(tmp: Name, ino: Ino, accepted: Bytes)
    | Placed(version: nat, content: Bytes)
    | Durable(version: nat, content: Bytes)
    | Hashed(version: nat, content: Bytes, text: Option<Bytes>)
    | Rewriting(version: nat, content: Bytes, text: Option<Bytes>, side: Ino, offset: nat)
    | Returned(version: nat, content: Bytes)
    | Doomed(orphan: Option<Name>)
    | Raised(placed: bool)

  /** `goal` is the whole of the data for `_write_core`; an `AtomicWriter` has none. */
  datatype Writer = Writer(target: Name, safety: Safety, sidecar: bool, algo: string,
                           goal: Option<Bytes>, pc: WriterPc)

  /** `_read_core` and `AtomicReader`; `seen` is what was read from the sidecar. */
  datatype ReaderPc =
    | Started
    | InSidecar(side: Ino, seen: Bytes)
    | Expecting(want: Option<string>, seen: Bytes)
    | Reading(want: Option<string>, seen: Bytes, version: nat, ino: Ino, got: Bytes)
    | Got(version: nat, content: Bytes, seen: Bytes)
    | Mismatch(version: nat, content: Bytes, seen: Bytes)
    | NoSidecar
    | BadSidecar(seen: Bytes)
    | NoTarget(seen: Bytes)

  /** `since` is the version that was current when the call began. */
  datatype Reader = Reader(target: Name, check: bool, algo: string, since: nat, pc: ReaderPc)

  /**
    `pending[n]`: entries `n` had since the last directory fsync, besides the
    current one.  `versions`, `floor` and `acked` are history variables:
    everything `t` ever showed, the oldest version power loss can bring back,
    and the newest version some strict write returned for.
   */
  datatype Disk = Disk(
    hash: (string, Bytes) -> string,
    targets: set<Name>,
    inodes: map<Ino, Inode>,
    dir: map<Name, Ino>,
    pending: map<Name, set<Option<Ino>>>,
    versions: map<Name, seq<Version>>,
    floor: map<Name, nat>,
    acked: map<Name, nat>)

  datatype State = State(d: Disk, writers: map<Id, Writer>, readers: map<Id, Reader>)

  /** What a running writer does next; each is one system call, or one check of the code. */
  datatype WriterStep =
    | Create(tmp: Name, ino: Ino)
    | Collide(tmp: Name)
    | Write(chunk: Bytes)
    | Flush
    | Sync
    | Close
    | Place
    | Break
    | Clean(ok: bool)
    | SyncDir(ok: bool)
    | Hash(timestamp: string)
    | Truncate(ino: Ino)
    | WriteSide(n: nat)
    | Return
    | FailLate
    | Forget
    | LockEntry(entry: Option<Ino>)

  datatype ReaderStep =
    | OpenSide
    | ReadSide(n: nat)
    | ParseSide
    | OpenTarget
    | Read(n: nat)
    | FinishRead
    | Forgo

  datatype Step =
    | Begin(w: Id, writer: Writer)
    | W(w: Id, wstep: WriterStep)
    | StartRead(r: Id, reader: Reader)
    | R(r: Id, rstep: ReaderStep)
    | PowerLoss(keep: map<Name, Option<Ino>>, junk: map<Ino, Bytes>)

  // ----- the disk -------------------------------------------------------------------

  function Entry(d: Disk, n: Name): Option<Ino>
  {
    if n in d.dir then Some(d.dir[n]) else None
  }

  /** Whether `n` may come back from power loss with `entry`. */
  predicate MayBe(d: Disk, n: Name, entry: Option<Ino>)
  {
    entry == Entry(d, n) || (n in d.pending && entry in d.pending[n])
  }

  function SetEntry(d: Disk, n: Name, entry: Option<Ino>): Disk
  {
    d.(dir := if entry.Some? then d.dir[n := entry.value] else d.dir - {n},
       pending := d.pending[n := {Entry(d, n)} + if n in d.pending then d.pending[n] else {}])
  }

  function AddInode(d: Disk, ino: Ino, inode: Inode): Disk
  {
    d.(inodes := d.inodes[ino := inode])
  }

  function Fill(d: Disk, ino: Ino, data: Bytes, durable: bool): Disk
    requires ino in d.inodes
  {
    d.(inodes := d.inodes[ino := d.inodes[ino].(data := data, durable := durable)])
  }

  function VersionEntry(v: Version): Option<Ino>
  {
    if v.Present? then Some(v.ino) else None
  }

  /** What a reader of `n` finds now. */
  function Show(d: Disk, n: Name): Version
  {
    if n in d.dir && d.dir[n] in d.inodes then Present(d.dir[n], d.inodes[d.dir[n]].data) else Absent
  }

  function Latest(d: Disk, t: Name): nat
  {
    if t in d.versions && d.versions[t] != [] then |d.versions[t]| - 1 else 0
  }

  /** The rename: the temporary name goes, the target shows whatever that name pointed to. */
  function Rename(d: Disk, tmp: Name, t: Name): Disk
    requires tmp in d.dir && d.dir[tmp] in d.inodes
  {
    var i := d.dir[tmp];
    var vs := if t in d.versions then d.versions[t] else [];
    var d1 := SetEntry(SetEntry(d, tmp, None), t, Some(i));
    d1.(inodes := d.inodes[i := d.inodes[i].(kind := Published)],
        versions := d.versions[t := vs + [Present(i, d.inodes[i].data)]])
  }

  /** A successful directory fsync: every name is fixed as it is now. */
  function Settle(d: Disk): Disk
  {
    d.(pending := map[], floor := map t | t in d.targets :: Latest(d, t))
  }

  /** A strict write of version `v` of `t` returns normally. */
  function Acknowledge(d: Disk, t: Name, v: nat): Disk
  {
    if t in d.acked && v <= d.acked[t] then d else d.(acked := d.acked[t := v])
  }

  /** Opening a file for writing empties it, or creates it. */
  function Reopen(d: Disk, t: Name, ino: Ino): Disk
  {
    var side := Paths.ChecksumPath(t);
    if side in d.dir && ino in d.inodes then Fill(d, ino, [], false)
    else SetEntry(AddInode(d, ino, Inode([], false, Sidecar(t))), side, Some(ino))
  }

  // ----- writers ----------------------------------------------------------------------

  function SetPc(s: State, w: Id, d: Disk, pc: WriterPc): State
    requires w in s.writers
  {
    s.(d := d, writers := s.writers[w := s.writers[w].(pc := pc)])
  }

  /** `_write_core` syncs only after its write loop has handed over all of the data. */
  predicate GoalMet(x: Writer, accepted: Bytes)
  {
    x.goal.Some? ==> accepted == x.goal.value
  }

  /** A normal return: no sidecar wanted, or the sidecar is written to its end. */
  predicate MayReturn(x: Writer)
  {
    || (x.pc.Durable? && !x.sidecar)
    || (x.pc.Rewriting? && x.pc.text.Some? && x.pc.offset == |x.pc.text.value|)
  }

  /**
    The sidecar's text, made from the target as it is now, not from the
    writer's own data.  None when the text cannot be encoded.
   */
  function SidecarBytes(d: Disk, x: Writer, timestamp: string): Option<Bytes>
  {
    var content := match Show(d, x.target) case Present(_, data) => data case Absent => [];
    SidecarText.EncodeAscii(SidecarText.Print(d.hash(x.algo, content), x.target, x.algo, timestamp))
  }

  predicate CanWriter(d: Disk, w: Id, x: Writer, step: WriterStep)
  {
    match step
    case Create(tmp, ino) => x.pc.Begun? && Paths.IsTmpName(tmp) && tmp !in d.dir && ino !in d.inodes
    // only `_write_core` unlinks the name after a failed exclusive create
    case Collide(tmp) => x.pc.Begun? && x.goal.Some? && Paths.IsTmpName(tmp) && tmp in d.dir
    case Write(chunk) => x.pc.Open? && x.pc.ino in d.inodes
      && (x.goal.Some? ==> x.pc.accepted + chunk <= x.goal.value)
    case Flush => x.pc.Open? && x.pc.ino in d.inodes
    case Sync => x.pc.Open? && x.pc.ino in d.inodes && GoalMet(x, x.pc.accepted)
    case Close => x.pc.Synced?
    case Place => x.pc.Closed? && x.pc.tmp in d.dir && d.dir[x.pc.tmp] in d.inodes
    case Break => x.pc.Begun? || x.pc.Open? || x.pc.Synced? || x.pc.Closed?
    case Clean(_) => x.pc.Doomed?
    case SyncDir(_) => x.pc.Placed?
    case Hash(_) => x.pc.Durable? && x.sidecar && Show(d, x.target).Present?
    case Truncate(ino) => x.pc.Hashed?
      && (if Paths.ChecksumPath(x.target) in d.dir
          then ino == d.dir[Paths.ChecksumPath(x.target)] && ino in d.inodes
          else ino !in d.inodes)
    case WriteSide(_) => x.pc.Rewriting? && x.pc.text.Some? && x.pc.side in d.inodes
    case Return => MayReturn(x)
    case FailLate => x.sidecar && (x.pc.Durable? || x.pc.Hashed? || x.pc.Rewriting?)
    case LockEntry(entry) =>
      if entry.Some? then Paths.LockPath(x.target) !in d.dir && entry.value !in d.inodes
      else Paths.LockPath(x.target) in d.dir
    case Forget => true
  }

  /** Where the step takes the writer's program. */
  function NextPc(d: Disk, w: Id, x: Writer, step: WriterStep): WriterPc
    requires CanWriter(d, w, x, step)
  {
    match step
    case Create(tmp, ino) => Open(tmp, ino, [])
    case Collide(tmp) => Raised(false)
    case Write(chunk) => Open(x.pc.tmp, x.pc.ino, x.pc.accepted + chunk)
    case Flush => x.pc
    case Sync => Synced(x.pc.tmp, x.pc.ino, x.pc.accepted)
    case Close => Closed(x.pc.tmp, x.pc.ino, x.pc.accepted)
    case Place => Placed(if x.target in d.versions then |d.versions[x.target]| else 0, x.pc.accepted)
    case Break => Doomed(if x.pc.Begun? then None else Some(x.pc.tmp))
    case Clean(_) => Raised(false)
    case SyncDir(ok) => if ok || x.safety != Strict then Durable(x.pc.version, x.pc.content) else Raised(true)
    case Hash(timestamp) => Hashed(x.pc.version, x.pc.content, SidecarBytes(d, x, timestamp))
    case Truncate(ino) => Rewriting(x.pc.version, x.pc.content, x.pc.text, ino, 0)
    case WriteSide(n) =>
      Rewriting(x.pc.version, x.pc.content, x.pc.text, x.pc.side,
                x.pc.offset + |Slice(x.pc.text.value, x.pc.offset, n)|)
    case Return => Returned(x.pc.version, x.pc.content)
    case FailLate => Raised(true)
    case LockEntry(_) => x.pc
    case Forget => x.pc
  }

  /** What the step does to the disk. */
  function NextDisk(d: Disk, w: Id, x: Writer, step: WriterStep): Disk
    requires CanWriter(d, w, x, step)
  {
    match step
    case Create(tmp, ino) => SetEntry(AddInode(d, ino, Inode([], false, Scratch(w))), tmp, Some(ino))
    // the handler unlinks a name this call did not create
    case Collide(tmp) => SetEntry(d, tmp, None)
    case Write(chunk) => Fill(d, x.pc.ino, d.inodes[x.pc.ino].data + chunk, false)
    case Flush => Fill(d, x.pc.ino, d.inodes[x.pc.ino].data, true)
    case Sync => Fill(d, x.pc.ino, d.inodes[x.pc.ino].data, true)
    case Place => Rename(d, x.pc.tmp, x.target)
    case Clean(ok) =>
      if ok && x.pc.orphan.Some? && x.pc.orphan.value in d.dir then SetEntry(d, x.pc.orphan.value, None) else d
    case SyncDir(ok) => if ok then Settle(d) else d
    case Truncate(ino) => Reopen(d, x.target, ino)
    // in place, at the writer's own file offset
    case WriteSide(n) =>
      Fill(d, x.pc.side,
           Overwrite(d.inodes[x.pc.side].data, x.pc.offset, Slice(x.pc.text.value, x.pc.offset, n)), false)
    case Return => if x.safety == Strict then Acknowledge(d, x.target, x.pc.version) else d
    case LockEntry(entry) =>
      SetEntry(if entry.Some? then AddInode(d, entry.value, Inode([], false, Other)) else d,
               Paths.LockPath(x.target), entry)
    case _ => d
  }

  function DoWriter(s: State, w: Id, step: WriterStep): State
    requires w in s.writers && CanWriter(s.d, w, s.writers[w], step)
  {
    if step.Forget? then s.(writers := s.writers - {w})
    else SetPc(s, w, NextDisk(s.d, w, s.writers[w], step), NextPc(s.d, w, s.writers[w], step))
  }

  // ----- readers ------------------------------------------------------------------------

  predicate CanReader(d: Disk, x: Reader, step: ReaderStep)
  {
    match step
    case OpenSide => x.pc.Started? && x.check
    case ReadSide(_) => x.pc.InSidecar? && x.pc.side in d.inodes
    case ParseSide => x.pc.InSidecar? && x.pc.side in d.inodes && |d.inodes[x.pc.side].data| <= |x.pc.seen|
    case OpenTarget => (x.pc.Started? && !x.check) || x.pc.Expecting?
    case Read(_) => x.pc.Reading? && x.pc.ino in d.inodes
    case FinishRead => x.pc.Reading? && x.pc.ino in d.inodes && |d.inodes[x.pc.ino].data| <= |x.pc.got|
    case Forgo => true
  }

  function NextReader(d: Disk, x: Reader, step: ReaderStep): ReaderPc
    requires CanReader(d, x, step)
  {
    var side := Paths.ChecksumPath(x.target);
    match step
    case OpenSide => if side in d.dir then InSidecar(d.dir[side], []) else NoSidecar
    case ReadSide(n) => InSidecar(x.pc.side, x.pc.seen + Slice(d.inodes[x.pc.side].data, |x.pc.seen|, n))
    case ParseSide =>
      var info := SidecarText.ParseBytes(x.pc.seen);
      if info.None? then BadSidecar(x.pc.seen) else Expecting(Some(info.value.digest), x.pc.seen)
    case OpenTarget =>
      if x.target !in d.dir then NoTarget(if x.pc.Started? then [] else x.pc.seen)
      else Reading(if x.pc.Started? then None else x.pc.want, if x.pc.Started? then [] else x.pc.seen,
                   Latest(d, x.target), d.dir[x.target], [])
    case Read(n) =>
      Reading(x.pc.want, x.pc.seen, x.pc.version, x.pc.ino,
              x.pc.got + Slice(d.inodes[x.pc.ino].data, |x.pc.got|, n))
    case FinishRead =>
      if x.pc.want.Some? && d.hash(x.algo, x.pc.got) != x.pc.want.value
      then Mismatch(x.pc.version, x.pc.got, x.pc.seen)
      else Got(x.pc.version, x.pc.got, x.pc.seen)
    case Forgo => x.pc
  }

  function DoReader(s: State, r: Id, step: ReaderStep): State
    requires r in s.readers && CanReader(s.d, s.readers[r], step)
  {
    if step.Forgo? then s.(readers := s.readers - {r})
    else s.(readers := s.readers[r := s.readers[r].(pc := NextReader(s.d, s.readers[r], step))])
  }

  // ----- power loss -----------------------------------------------------------------------

  predicate CanLosePower(d: Disk, keep: map<Name, Option<Ino>>)
  {
    && keep.Keys == d.dir.Keys + d.pending.Keys
    && forall n | n in keep :: MayBe(d, n, keep[n])
  }

  /** Unsynced content comes back as anything; what came back is then on the disk. */
  function Survive(inode: Inode, junk: Bytes): Inode
  {
    Inode(if inode.durable then inode.data else junk, true, inode.kind)
  }

  function AfterLoss(d: Disk, keep: map<Name, Option<Ino>>, junk: map<Ino, Bytes>): Disk
  {
    var d1 := d.(inodes := map i | i in d.inodes :: Survive(d.inodes[i], if i in junk then junk[i] else []),
                 dir := map n | n in keep && keep[n].Some? :: keep[n].value,
                 pending := map[]);
    d1.(versions := map t | t in d.targets :: (if t in d.versions then d.versions[t] else []) + [Show(d1, t)],
        floor := map t | t in d.targets :: if t in d.versions then |d.versions[t]| else 0)
  }

  // ----- the transition system --------------------------------------------------------------

  predicate Can(s: State, step: Step)
  {
    match step
    case Begin(w, x) => w !in s.writers && x.pc.Begun? && x.target in s.d.targets
    case W(w, wstep) => w in s.writers && CanWriter(s.d, w, s.writers[w], wstep)
    case StartRead(r, x) =>
      r !in s.readers && x.pc.Started? && x.target in s.d.targets && x.since == Latest(s.d, x.target)
    case R(r, rstep) => r in s.readers && CanReader(s.d, s.readers[r], rstep)
    case PowerLoss(keep, _) => CanLosePower(s.d, keep)
  }

  function Do(s: State, step: Step): State
    requires Can(s, step)
  {
    match step
    case Begin(w, x) => s.(writers := s.writers[w := x])
    case W(w, wstep) => DoWriter(s, w, wstep)
    case StartRead(r, x) => s.(readers := s.readers[r := x])
    case R(r, rstep) => DoReader(s, r, rstep)
    case PowerLoss(keep, junk) => State(AfterLoss(s.d, keep, junk), map[], map[])
  }

  /** The state a run ends in; None when some step of it is impossible. */
  function Exec(s: State, run: seq<Step>): Option<State>
    decreases |run|
  {
    if run == [] then Some(s)
    else if Can(s, run[0]) then Exec(Do(s, run[0]), run[1..])
    else None
  }

  predicate Collides(step: Step)
  {
    step.W? && step.wstep.Collide?
  }

  /** No two temporary names ever coincide: the 64 random bits of `tmp_path_for` are taken as fresh. */
  predicate FreshNames(run: seq<Step>)
  {
    forall i | 0 <= i < |run| :: !Collides(run[i])
  }

  /**
    A directory at rest: any content, but no change of an entry is pending,
    the content of every target is synced, and no sidecar shares an inode with
    a target.
   */
  ghost predicate Init(s: State)
  {
    && s.writers == map[] && s.readers == map[] && s.d.pending == map[]
    && Paths.GoodTargets(s.d.targets)
    && s.d.versions.Keys == s.d.floor.Keys == s.d.acked.Keys == s.d.targets
    && (forall n | n in s.d.dir :: s.d.dir[n] in s.d.inodes)
    && (forall i | i in s.d.inodes && s.d.inodes[i].kind == Published :: s.d.inodes[i].durable)
    && (forall t | t in s.d.targets ::
         && s.d.floor[t] == s.d.acked[t] == 0
         && s.d.versions[t] == [Show(s.d, t)]
         && (t in s.d.dir ==> s.d.inodes[s.d.dir[t]].durable && s.d.inodes[s.d.dir[t]].kind == Published)
         && (Paths.ChecksumPath(t) in s.d.dir ==>
               s.d.inodes[s.d.dir[Paths.ChecksumPath(t)]].kind == Sidecar(t)))
  }
}
