/**
  `_read_core` (src/safeatomic/_io_core.py:619-687) run by one process among
  others: the sidecar first, then the target, then the comparison.  Sidecar
  and target may both be replaced or rewritten at any point in between.
 */
module ReadCore {
  import opened Basics
  import Paths
  import SidecarText
  import S = Storage
  import SI = StorageInvariant
  import ST = StorageTheorems
  import L = LockProtocol
  import opened Composite
  import opened Machine
  import opened ReadTrace
  import OwnNames

  /** Four ways to end in FileNotFoundError. */
  datatype Absence = SidecarMissing | SidecarUnreadable | SidecarUnparsable | TargetMissing

  datatype Answer =
    | Content(version: nat, data: Bytes)
    | NotFound(why: Absence)
    | IoError
    | ChecksumMismatch(version: nat, data: Bytes)

  predicate IsRead(step: Step, rs: set<S.Id>)
  {
    step.Disk? && (step.dstep.StartRead? || step.dstep.R?) && step.dstep.r in rs
  }

  /** All this process does meanwhile is to read, by its records `rs`. */
  ghost predicate OnlyReads(me: Self, run: seq<Step>, run': seq<Step>, rs: set<S.Id>)
  {
    run <= run' && forall i | |run| <= i < |run'| :: Foreign(me, run'[i]) || IsRead(run'[i], rs)
  }

  ghost predicate Follows(me: Self, c: State, run: seq<Step>, c': State, run': seq<Step>, rs: set<S.Id>)
  {
    && Keeps(me, c, c', rs, {}) && OnlyReads(me, run, run', rs) && Adds(me, run, run', rs, {})
    && LockPc(me, c') == LockPc(me, c)
  }

  /** Of the record itself only the program counter moves. */
  predicate SameReader(c: State, c': State, r: S.Id)
  {
    r in c.s.readers && r in c'.s.readers && c'.s.readers[r] == c.s.readers[r].(pc := c'.s.readers[r].pc)
  }

  /** The process went on reading by its records `rs`, and did nothing else. */
  twostate predicate Reads(p: Process, new rs: set<S.Id>)
    reads p
  {
    && p.Valid() && Follows(p.me, old(p.c), old(p.run), p.c, p.run, rs)
    && p.open == old(p.open) && Replacements(p.mine) == old(Replacements(p.mine))
  }

  lemma FollowsItself(me: Self, c: State, run: seq<Step>, rs: set<S.Id>)
    requires me.a in c.l.procs
    ensures Follows(me, c, run, c, run, rs)
  {
    hide Keeps, Adds;
    KeepsItself(me, c, run);
    KeepsTwice(me, c, run, c, run, c, run, rs, {}, {}, {}, {}, {});
  }

  lemma FollowsTwice(me: Self, c: State, run: seq<Step>, c1: State, run1: seq<Step>, c2: State, run2: seq<Step>,
      r: S.Id)
    requires Follows(me, c, run, c1, run1, {r}) && Follows(me, c1, run1, c2, run2, {r})
    ensures Follows(me, c, run, c2, run2, {r})
  {
    hide Follows;
    FollowsOn(me, c, run, c1, run1, c2, run2, {r}, {r}, {r});
  }

  lemma FollowsOn(me: Self, c: State, run: seq<Step>, c1: State, run1: seq<Step>, c2: State, run2: seq<Step>,
                  rs: set<S.Id>, rs1: set<S.Id>, rs2: set<S.Id>)
    requires Follows(me, c, run, c1, run1, rs1) && Follows(me, c1, run1, c2, run2, rs2) && rs1 <= rs && rs2 <= rs
    ensures Follows(me, c, run, c2, run2, rs)
  {
    hide Keeps, Adds, Foreign, LockPc;
    KeepsTwice(me, c, run, c1, run1, c2, run2, rs, {}, rs1, {}, rs2, {});
    forall i | |run| <= i < |run2| ensures Foreign(me, run2[i]) || IsRead(run2[i], rs) {
      if i < |run1| { assert run2[i] == run1[i]; }
    }
  }

  /** Records the process does not read by stay as they are. */
  lemma OthersStay(me: Self, c: State, run: seq<Step>, c': State, run': seq<Step>, rs: set<S.Id>, q: S.Id)
    requires Follows(me, c, run, c', run', rs) && q in me.ids && q !in rs
    ensures q in c'.s.readers <==> q in c.s.readers
    ensures q in c.s.readers ==> c'.s.readers[q] == c.s.readers[q]
  {
    hide Adds, OnlyReads, Gone, SI.Grows, KeepsNotes;
  }

  lemma WaitFollows(me: Self, c: State, run: seq<Step>, c': State, run': seq<Step>, r: S.Id)
    requires Keeps(me, c, c', {}, {}) && Adds(me, run, run', {}, {}) && GoesOn(me, run, run') && me.a in c'.l.procs
    requires LockPc(me, c') == LockPc(me, c)
    ensures Follows(me, c, run, c', run', {r})
    ensures r in me.ids && r in c.s.readers ==> SameReader(c, c', r) && c'.s.readers[r] == c.s.readers[r]
  {
    hide Adds, Foreign, IsRead, LockPc, Gone, SI.Grows, KeepsNotes;
    assert Keeps(me, c, c', {r}, {}) && Adds(me, run, run', {r}, {}) by {
      hide Keeps;
      KeepsItself(me, c', run');
      KeepsTwice(me, c, run, c', run', c', run', {r}, {}, {}, {}, {}, {});
    }
  }

  method Wait(p: Process, r: S.Id)
    requires p.Valid() && r in p.me.ids && r in p.c.s.readers
    modifies p
    ensures Reads(p, {r}) && SameReader(old(p.c), p.c, r) && p.c.s.readers[r] == old(p.c.s.readers[r])
    ensures p.failures == old(p.failures)
  {
    hide Inv, Keeps, Adds, GoesOn, Follows, OwnOf, Reaches, Replacements, LockPc, GoodNames, Owned;
    p.Others();
    WaitFollows(p.me, old(p.c), old(p.run), p.c, p.run, r);
  }

  // ----- the reader's own steps ----------------------------------------------------------------

  lemma ReadStepFollows(me: Self, c: State, run: seq<Step>, step: S.Step, r: S.Id)
    requires Inv(c) && Can(c, Disk(step)) && L.Alive(c.l, me.a) && GoodNames(me.names) && Owned(me, c)
    requires r in me.ids && IsRead(Disk(step), {r})
    ensures Follows(me, c, run, Do(c, Disk(step)), run + [Disk(step)], {r}) && Owned(me, Do(c, Disk(step)))
    ensures !Foreign(me, Disk(step)) && Do(c, Disk(step)).s.d == c.s.d
  {
    hide Keeps, Adds, Inv, GoodNames, Can, Do, Owned;
    DiskStepKeeps(me, c, step);
    OwnedStays(me, c, Do(c, Disk(step)), {r}, {});
    AddsOne(me, run, Disk(step), {r}, {});
    DiskRecords(c, step);
    ReadsChangeNothing(c, step);
  }

  lemma ReadsChangeNothing(c: State, step: S.Step)
    requires Can(c, Disk(step)) && (step.StartRead? || step.R?)
    ensures Do(c, Disk(step)).s.d == c.s.d
  {
    hide S.CanReader, S.NextReader;
  }

  method Take(p: Process, r: S.Id, step: S.ReaderStep)
    requires p.Valid() && r in p.me.ids && r in p.c.s.readers
    requires S.CanReader(p.c.s.d, p.c.s.readers[r], step) && !step.Forgo?
    modifies p
    ensures Reads(p, {r}) && SameReader(old(p.c), p.c, r) && p.c.s.d == old(p.c.s.d)
    ensures S.CanReader(old(p.c.s.d), old(p.c.s.readers[r]), step)
    ensures p.c.s.readers[r].pc == S.NextReader(old(p.c.s.d), old(p.c.s.readers[r]), step)
    ensures p.failures == old(p.failures)
  {
    hide Inv, Reaches, S.CanReader, S.NextReader, Do, Follows, OwnOf, Replacements, GoodNames, Owned, Foreign;
    assert Can(p.c, Disk(S.R(r, step)));
    hide Can;
    ReadStepFollows(p.me, p.c, p.run, S.R(r, step), r);
    ReadEffect(p.c, r, step);
    OneMore(p.mine, Disk(S.R(r, step)));
    p.Act(Disk(S.R(r, step)));
  }

  method Begin(p: Process, r: S.Id, x: S.Reader)
    requires p.Valid() && r in p.me.ids && r !in p.c.s.readers && S.Can(p.c.s, S.StartRead(r, x))
    modifies p
    ensures Reads(p, {r}) && r in p.c.s.readers && p.c.s.readers[r] == x && p.c.s.d == old(p.c.s.d)
    ensures p.failures == old(p.failures)
  {
    hide Inv, Reaches, Do, Follows, OwnOf, Replacements, GoodNames, Owned, Foreign, S.Latest;
    assert Can(p.c, Disk(S.StartRead(r, x)));
    hide Can;
    ReadStepFollows(p.me, p.c, p.run, S.StartRead(r, x), r);
    StartEffect(p.c, r, x);
    OneMore(p.mine, Disk(S.StartRead(r, x)));
    p.Act(Disk(S.StartRead(r, x)));
  }

  // ----- what a reader's record means ------------------------------------------------------------

  /** The invariant, for a reader that has a file open or is through. */
  lemma ReaderMeans(c: State, r: S.Id)
    requires Inv(c) && r in c.s.readers
    ensures c.s.d.versions.Keys == c.s.d.targets && SI.ReaderOk(c.s.d, c.s.readers[r])
  {
    hide BlocksOk, LogOk, ViewOk, L.Inv, SI.Inv;
    ST.ReaderHolds(c.s, r);
  }

  /** The inode a reader has open under the target's name is still there, unchanged. */
  lemma OpenFile(c: State, r: S.Id)
    requires Inv(c) && r in c.s.readers && c.s.readers[r].pc.Reading?
    ensures var d, x := c.s.d, c.s.readers[r];
      && x.target in d.versions && x.pc.version < |d.versions[x.target]|
      && x.pc.ino in d.inodes && d.inodes[x.pc.ino].kind == S.Published
      && Shows(d, x.target, x.pc.version, d.inodes[x.pc.ino].data) && |x.pc.got| <= |d.inodes[x.pc.ino].data|
  {
    ReaderMeans(c, r);
    hide BlocksOk, LogOk, ViewOk, L.Inv, SI.Vouches;
    var x := c.s.readers[r];
    SI.DiskIsNamed(c.s.d);
    SI.VersionIsFrozen(c.s.d, x.target, x.pc.version);
  }

  lemma PublishedStays(me: Self, c: State, run: seq<Step>, c': State, run': seq<Step>, r: S.Id, i: S.Ino)
    requires Follows(me, c, run, c', run', {r}) && i in c.s.d.inodes && c.s.d.inodes[i].kind == S.Published
    ensures i in c'.s.d.inodes && c'.s.d.inodes[i] == c.s.d.inodes[i]
  {
    hide Gone, Adds, OnlyReads, LockPc, KeepsNotes;
  }

  /** What a reader in the middle of a version has is a prefix of it. */
  lemma OpenContent(c: State, r: S.Id) returns (content: Bytes)
    requires Inv(c) && r in c.s.readers && c.s.readers[r].pc.Reading?
    ensures var d, x := c.s.d, c.s.readers[r];
      && x.since <= x.pc.version && Shows(d, x.target, x.pc.version, content) && x.pc.got <= content
      && x.pc.ino in d.inodes && d.inodes[x.pc.ino].data == content && d.inodes[x.pc.ino].kind == S.Published
  {
    ReaderMeans(c, r);
    OpenFile(c, r);
    hide Inv, SI.Vouches;
    var x := c.s.readers[r];
    content := c.s.d.versions[x.target][x.pc.version].data;
  }

  lemma Ending(c: State, r: S.Id)
    requires Inv(c) && r in c.s.readers && (c.s.readers[r].pc.Got? || c.s.readers[r].pc.Mismatch?)
    ensures var d, x := c.s.d, c.s.readers[r];
      && x.since <= x.pc.version && Shows(d, x.target, x.pc.version, x.pc.content)
      && (x.pc.Got? && x.check ==> SI.Vouches(x.pc.seen, d.hash(x.algo, x.pc.content)))
      && (x.pc.Mismatch? ==>
            x.check && SidecarText.ParseBytes(x.pc.seen).Some? && !SI.Vouches(x.pc.seen, d.hash(x.algo, x.pc.content)))
  {
    hide Inv, SidecarText.ParseBytes, SI.Vouches;
    ReaderMeans(c, r);
  }

  // ----- the call --------------------------------------------------------------------------------------

  /** An I/O error, or a sidecar that cannot be read, has its failed call; any other answer has none. */
  predicate FailedBy(before: seq<Failure>, after: seq<Failure>, answer: Option<Answer>)
  {
    if answer.Some? && (answer.value.IoError? || answer.value == NotFound(SidecarUnreadable))
    then OneFailure(before, after, {SideRead, TargetRead})
    else after == before
  }

  /** What the record says of the answer. */
  predicate AnswerOf(pc: S.ReaderPc, answer: Answer, seen: Bytes)
  {
    match answer
    case Content(v, data) => pc == S.Got(v, data, seen)
    case ChecksumMismatch(v, data) => pc == S.Mismatch(v, data, seen)
    case NotFound(SidecarMissing) => pc == S.NoSidecar
    case NotFound(SidecarUnparsable) => pc == S.BadSidecar(seen)
    case NotFound(TargetMissing) => pc == S.NoTarget(seen)
    case _ => true
  }

  /**
    The sidecar, read to its end in as many rounds as it takes.  A call that
    never sees the end, or meets an error, has not read it.
   */
  method ReadSidecar(p: Process, r: S.Id) returns (problem: Option<Answer>, ghost seen: Bytes)
    requires p.Valid() && r in p.me.ids && r in p.c.s.readers && p.c.s.readers[r].pc.Started? && p.c.s.readers[r].check
    modifies p
    ensures Reads(p, {r}) && SameReader(old(p.c), p.c, r)
    ensures problem.None? ==> p.c.s.readers[r].pc.Expecting?
    ensures problem.Some? ==>
      && AnswerOf(p.c.s.readers[r].pc, problem.value, seen)
      && (problem.value.IoError? || (problem.value.NotFound? && !problem.value.why.TargetMissing?))
    ensures FailedBy(old(p.failures), p.failures, problem)
  {
    hide Inv, OwnOf, Reaches, Replacements, GoodNames, Owned, Follows, SidecarText.ParseBytes, Paths.ChecksumPath;
    seen := [];
    Wait(p, r);
    label waited:
    var failed: bool := *;
    if failed {
      p.Fail(SideRead);
      var statFailed: bool := *;
      return Some(if statFailed then IoError else NotFound(SidecarUnreadable)), seen;
    }
    Take(p, r, S.OpenSide);
    FollowsTwice(p.me, old(p.c), old(p.run), old@waited(p.c), old@waited(p.run), p.c, p.run, r);
    if p.c.s.readers[r].pc.NoSidecar? {
      return Some(NotFound(SidecarMissing)), seen;
    }
    var rounds: nat := *;
    while rounds > 0
      invariant p.failures == old(p.failures)
      invariant Reads(p, {r}) && SameReader(old(p.c), p.c, r) && p.c.s.readers[r].pc.InSidecar?
    {
      label before:
      var size: nat := *;
      Wait(p, r);
      FollowsTwice(p.me, old(p.c), old(p.run), old@before(p.c), old@before(p.run), p.c, p.run, r);
      label reading:
      if p.c.s.readers[r].pc.side !in p.c.s.d.inodes {
        p.Fail(SideRead);
        return Some(NotFound(SidecarUnreadable)), seen;
      }
      Take(p, r, S.ReadSide(size));
      FollowsTwice(p.me, old(p.c), old(p.run), old@reading(p.c), old@reading(p.run), p.c, p.run, r);
      rounds := rounds - 1;
    }
    label rest:
    problem, seen := ParseSidecar(p, r);
    FollowsTwice(p.me, old(p.c), old(p.run), old@rest(p.c), old@rest(p.run), p.c, p.run, r);
  }

  method ParseSidecar(p: Process, r: S.Id) returns (problem: Option<Answer>, ghost seen: Bytes)
    requires p.Valid() && r in p.me.ids && r in p.c.s.readers && p.c.s.readers[r].pc.InSidecar?
    modifies p
    ensures Reads(p, {r}) && SameReader(old(p.c), p.c, r)
    ensures problem.None? ==> p.c.s.readers[r].pc.Expecting?
    ensures problem.Some? ==>
      && AnswerOf(p.c.s.readers[r].pc, problem.value, seen)
      && problem.value.NotFound? && (problem.value.why.SidecarUnreadable? || problem.value.why.SidecarUnparsable?)
    ensures FailedBy(old(p.failures), p.failures, problem)
  {
    hide Inv, OwnOf, Reaches, Replacements, GoodNames, Owned, Follows, SidecarText.ParseBytes, Paths.ChecksumPath;
    Wait(p, r);
    label parsing:
    seen := p.c.s.readers[r].pc.seen;
    if !S.CanReader(p.c.s.d, p.c.s.readers[r], S.ParseSide) {
      p.Fail(SideRead);
      return Some(NotFound(SidecarUnreadable)), seen;
    }
    Take(p, r, S.ParseSide);
    FollowsTwice(p.me, old(p.c), old(p.run), old@parsing(p.c), old@parsing(p.run), p.c, p.run, r);
    problem := if p.c.s.readers[r].pc.Expecting? then None else Some(NotFound(SidecarUnparsable));
  }

  /** `read_bytes` of the target, and the comparison. */
  method ReadTarget(p: Process, r: S.Id) returns (answer: Answer, ghost seen: Bytes)
    requires p.Valid() && r in p.me.ids && r in p.c.s.readers
    requires S.CanReader(p.c.s.d, p.c.s.readers[r], S.OpenTarget)
    modifies p
    ensures Reads(p, {r}) && SameReader(old(p.c), p.c, r)
    ensures AnswerOf(p.c.s.readers[r].pc, answer, seen) && (answer.NotFound? ==> answer.why.TargetMissing?)
    ensures FailedBy(old(p.failures), p.failures, Some(answer))
  {
    hide Inv, OwnOf, Reaches, Replacements, GoodNames, Owned, Follows, SidecarText.ParseBytes, Paths.ChecksumPath,
        Shows, S.Latest, Slice, L.Alive;
    seen := [];
    Wait(p, r);
    label waited:
    var failed: bool := *;
    if failed {
      p.Fail(TargetRead);
      return IoError, seen;
    }
    Take(p, r, S.OpenTarget);
    FollowsTwice(p.me, old(p.c), old(p.run), old@waited(p.c), old@waited(p.run), p.c, p.run, r);
    if p.c.s.readers[r].pc.NoTarget? {
      return NotFound(TargetMissing), p.c.s.readers[r].pc.seen;
    }
    OpenFile(p.c, r);
    var ino := p.c.s.readers[r].pc.ino;
    var file := p.c.s.d.inodes[ino];
    while |p.c.s.readers[r].pc.got| < |file.data|
      invariant Reads(p, {r}) && SameReader(old(p.c), p.c, r) && p.failures == old(p.failures)
      invariant p.c.s.readers[r].pc.Reading? && p.c.s.readers[r].pc.ino == ino
      invariant ino in p.c.s.d.inodes && p.c.s.d.inodes[ino] == file && file.kind == S.Published
      decreases |file.data| - |p.c.s.readers[r].pc.got|
    {
      label before:
      var size: nat := *;
      Wait(p, r);
      FollowsTwice(p.me, old(p.c), old(p.run), old@before(p.c), old@before(p.run), p.c, p.run, r);
      PublishedStays(p.me, old@before(p.c), old@before(p.run), p.c, p.run, r, ino);
      OpenFile(p.c, r);
      label reading:
      if !(0 < size) {
        p.Fail(TargetRead);
        return IoError, seen;
      }
      Take(p, r, S.Read(size));
      FollowsTwice(p.me, old(p.c), old(p.run), old@reading(p.c), old@reading(p.run), p.c, p.run, r);
    }
    label finishing:
    Take(p, r, S.FinishRead);
    FollowsTwice(p.me, old(p.c), old(p.run), old@finishing(p.c), old@finishing(p.run), p.c, p.run, r);
    var pc := p.c.s.readers[r].pc;
    seen := pc.seen;
    answer := if pc.Got? then Content(pc.version, pc.content) else ChecksumMismatch(pc.version, pc.content);
  }

  /** The call, as far as its record goes. */
  method RunRead(p: Process, r: S.Id, x: S.Reader) returns (answer: Answer, ghost seen: Bytes)
    requires p.Valid() && r in p.me.ids && r !in p.c.s.readers && S.Can(p.c.s, S.StartRead(r, x))
    modifies p
    ensures Reads(p, {r}) && r in p.c.s.readers && p.c.s.readers[r] == x.(pc := p.c.s.readers[r].pc)
    ensures AnswerOf(p.c.s.readers[r].pc, answer, seen)
    ensures answer.NotFound? && !answer.why.TargetMissing? ==> x.check
    ensures FailedBy(old(p.failures), p.failures, Some(answer))
  {
    hide Inv, OwnOf, Reaches, Replacements, GoodNames, Owned, Follows, SidecarText.ParseBytes, Paths.ChecksumPath,
        S.Latest;
    Begin(p, r, x);
    label began:
    if x.check {
      var problem;
      problem, seen := ReadSidecar(p, r);
      FollowsTwice(p.me, old(p.c), old(p.run), old@began(p.c), old@began(p.run), p.c, p.run, r);
      if problem.Some? {
        return problem.value, seen;
      }
    }
    label looked:
    answer, seen := ReadTarget(p, r);
    FollowsTwice(p.me, old(p.c), old(p.run), old@looked(p.c), old@looked(p.run), p.c, p.run, r);
  }

  /** What the steps say of the record: the sidecar bytes it holds were read, the name it missed was absent. */
  lemma RecordIsTrue(start: State, run: seq<Step>, c: State, run': seq<Step>, c': State, r: S.Id)
    requires Reaches(start, run, c) && Reaches(start, run', c') && run <= run' && r !in c.s.readers && r in c'.s.readers
    ensures var x, call := c'.s.readers[r], Gained(run, run');
      && Exec(c, call) == Some(c')
      && Matches(x.pc, HeardIn(c, call, r, x.target, NOTHING))
      && (Missed(x).Some? ==> EverAbsent(c, call, Missed(x).value))
  {
    hide Can, Do, Matches, EverAbsent, Missed;
    OwnNames.RunSplits(start, run, c, run', c');
    var x, call := c'.s.readers[r], Gained(run, run');
    RunTells(c, call, c', r, x.target, NOTHING);
    if Missed(x).Some? { MissedWasAbsent(c, call, c', r, Missed(x).value); }
  }

  /**
    The whole call.  Content comes back only as a complete version, no older
    than the call, and with checking only if its hash is the digest in the
    sidecar bytes this call has read.  A mismatch is reported only of such a
    version against such a digest; a missing or unparsable sidecar is reported
    like a missing file, and what is reported missing was missing.
   */
  method Read(p: Process, r: S.Id, target: S.Name, check: bool, algo: string) returns (answer: Answer,
      ghost seen: Bytes)
    requires p.Valid() && r in p.me.ids && r !in p.c.s.readers && target in p.c.s.d.targets
    modifies p
    ensures Reads(p, {r}) && Exec(old(p.c), Gained(old(p.run), p.run)) == Some(p.c)
    ensures r in p.c.s.readers
    ensures p.c.s.readers[r] == S.Reader(target, check, algo, old(S.Latest(p.c.s.d, target)), p.c.s.readers[r].pc)
    ensures AnswerOf(p.c.s.readers[r].pc, answer, seen)
    ensures answer.Content? || answer.ChecksumMismatch? ==>
      old(S.Latest(p.c.s.d, target)) <= answer.version && Shows(p.c.s.d, target, answer.version, answer.data)
    ensures answer.Content? && check ==> SI.Vouches(seen, p.c.s.d.hash(algo, answer.data))
    ensures answer.ChecksumMismatch? ==>
      check && SidecarText.ParseBytes(seen).Some? && !SI.Vouches(seen, p.c.s.d.hash(algo, answer.data))
    ensures answer == NotFound(SidecarUnparsable) ==> SidecarText.ParseBytes(seen).None?
    ensures answer.Content? || answer.ChecksumMismatch? || answer == NotFound(SidecarUnparsable) ==>
      seen == SidecarBytesRead(old(p.c), Gained(old(p.run), p.run), r, target)
    ensures answer.NotFound? && !answer.why.TargetMissing? ==> check
    ensures answer == NotFound(SidecarMissing) ==>
      EverAbsent(old(p.c), Gained(old(p.run), p.run), Paths.ChecksumPath(target))
    ensures answer == NotFound(TargetMissing) ==> EverAbsent(old(p.c), Gained(old(p.run), p.run), target)
    ensures FailedBy(old(p.failures), p.failures, Some(answer))
  {
    hide Inv, OwnOf, Replacements, GoodNames, Owned, Follows, SidecarText.ParseBytes, Paths.ChecksumPath, S.Latest;
    hide Shows, SI.Vouches, EverAbsent, HeardIn, Exec;
    answer, seen := RunRead(p, r, S.Reader(target, check, algo, S.Latest(p.c.s.d, target), S.Started));
    Prefix(p.me, old(p.c), old(p.run), p.c, p.run, {r});
    RecordIsTrue(p.start, old(p.run), old(p.c), p.run, p.c, r);
    if answer.Content? || answer.ChecksumMismatch? { Ending(p.c, r); }
    if answer == NotFound(SidecarUnparsable) { Unparsed(p.c, r); }
  }

  lemma Prefix(me: Self, c: State, run: seq<Step>, c': State, run': seq<Step>, rs: set<S.Id>)
    requires Follows(me, c, run, c', run', rs)
    ensures run <= run' && SI.Grows(c.s.d, c'.s.d)
  {
    hide Adds, Foreign, IsRead, SI.Grows, Gone, KeepsNotes;
  }

  lemma Unparsed(c: State, r: S.Id)
    requires Inv(c) && r in c.s.readers && c.s.readers[r].pc.BadSidecar?
    ensures SidecarText.ParseBytes(c.s.readers[r].pc.seen).None?
  {
    hide Inv, SidecarText.ParseBytes, SI.Vouches;
    ReaderMeans(c, r);
  }
}
