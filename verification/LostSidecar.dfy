/**
  What a power loss does to agreement: the sidecar is not fsynced, so it can
  come back as anything beside a target that was confirmed, and a checked read
  answers by what came back.
 */
module LostSidecar {
  import opened Basics
  import Paths
  import SidecarText
  import S = Storage
  import SI = StorageInvariant
  import L = LockProtocol
  import opened Composite
  import opened SidecarAgreement
  import opened StaleSidecar

  /** A strict locked call with a sidecar, from the empty directory to its return. */
  lemma OneCallReturns() returns (c0: State, run: seq<Step>, c: State)
    ensures Fresh(c0) && HexHash(c0.s.d) && Ran(c0, run, c) && c.t == "t"
    ensures 1 in c.s.writers && c.s.writers[1] == Job([1]).(pc := c.s.writers[1].pc) && c.s.writers[1].pc.Returned?
    ensures c.s.d.dir == map["t" := 0, Paths.ChecksumPath("t") := 1] && Paths.ChecksumPath("t") != "t"
    ensures c.s.d.inodes.Keys == {0, 1} && c.s.d.inodes[0] == S.Inode([1], true, S.Published)
    ensures !c.s.d.inodes[1].durable && TextFor([1]).Some? && c.s.d.inodes[1].data == TextFor([1]).value
    ensures c.s.d.hash == Digest
  {
    hide Ran, Init, HexHash, Paths.ChecksumPath, Paths.LockPath, Paths.IsTmpName, Paths.TmpName, TextFor, Digest, Fresh;
    hide Ready, SidecarText.Describes;
    c0 := EmptyDirectory();
    assert Ran(c0, [], c0) by { StaleSidecar.Nothing(c0); }
    IsEmpty(c0);
    run, c := WritesUpToHash(c0, [], c0, 1, 1, [1], 0);
    TextSays([1]);
    SidecarIsNoTarget(c.s.d);
    run, c := WritesToTheEnd(c0, run, c, 1, 1);
  }

  lemma IsEmpty(c: State)
    requires Fresh(c)
    ensures !c.wholeOnly && c.t == "t" && Ready(c.s.d) && c.s.d.hash == Digest
    ensures c.s.d.inodes == map[] && c.s.d.dir == map[]
    ensures c.l == L.START && c.blocks == map[] && c.s.writers == map[]
  {
    Begins(c);
    hide Init, Ready;
  }

  /** Every entry comes back as it is. */
  function KeepAll(d: S.Disk): map<S.Name, Option<S.Ino>>
  {
    map n | n in d.dir.Keys + d.pending.Keys :: S.Entry(d, n)
  }

  lemma KeptEntries(d: S.Disk, junk: map<S.Ino, Bytes>, n: S.Name)
    requires n in d.dir && d.dir[n] in d.inodes
    ensures S.CanLosePower(d, KeepAll(d))
    ensures var i := d.dir[n];
      S.Show(S.AfterLoss(d, KeepAll(d), junk), n) ==
        S.Present(i, if d.inodes[i].durable then d.inodes[i].data else if i in junk then junk[i] else [])
  {
  }

  lemma AfterTheLoss(c: State, loss: Step)
    requires loss.Loss? && Can(c, loss)
    ensures Do(c, loss).s.d == S.AfterLoss(c.s.d, loss.keep, loss.junk) && S.CanLosePower(c.s.d, loss.keep)
    ensures Do(c, loss).s.readers == map[] && Do(c, loss).t == c.t
  {
    hide S.AfterLoss, S.Show, S.CanLosePower;
  }

  /** The file under the target's name is synced; the sidecar's file exists. */
  lemma PairKnown(c: State)
    requires Inv(c)
    ensures var d, side := c.s.d, Paths.ChecksumPath(c.t);
      && (c.t in d.dir ==> d.dir[c.t] in d.inodes && d.inodes[d.dir[c.t]].durable)
      && (side in d.dir ==> d.dir[side] in d.inodes && (c.t in d.dir ==> d.dir[side] != d.dir[c.t]))
      && side != c.t
  {
    hide BlocksOk, ViewOk, LogOk, L.Inv, SI.WriterOk, SI.ReaderOk, Paths.ChecksumPath;
    EntriesKnown(c.s.d, c.t);
    NamesApart(c.s.d, c.t, c.t);
    NewestIsShown(c);
    SI.VersionIsFrozen(c.s.d, c.t, S.Latest(c.s.d, c.t));
  }

  /**
    In every reachable state: as long as the sidecar is not synced, power loss
    can leave the target as it is with any bytes at all as its sidecar.
   */
  lemma PowerLossTearsTheSidecar(c0: State, run: seq<Step>, c: State, junk: Bytes) returns (loss: Step)
    requires Init(c0) && Exec(c0, run) == Some(c)
    requires var side := Paths.ChecksumPath(c.t);
      side in c.s.d.dir && c.s.d.dir[side] in c.s.d.inodes && !c.s.d.inodes[c.s.d.dir[side]].durable
    ensures loss.Loss? && Can(c, loss)
    ensures S.Show(Do(c, loss).s.d, c.t) == S.Show(c.s.d, c.t)
    ensures SidecarOf(Do(c, loss).s.d, c.t) == Some(junk)
  {
    hide Init, Inv, Exec, Can, Do, S.AfterLoss, S.CanLosePower, S.Show, Paths.ChecksumPath;
    InitHolds(c0);
    RunKeeps(c0, run, c);
    PairKnown(c);
    var side := Paths.ChecksumPath(c.t);
    var lost := map[c.s.d.dir[side] := junk];
    var keep := KeepAll(c.s.d);
    KeptEntries(c.s.d, lost, side);
    KeptAbsence(c.s.d, lost, c.t);
    if c.t in c.s.d.dir {
      KeptEntries(c.s.d, lost, c.t);
      ShowsInode(c.s.d, c.t);
    }
    var k := LossIsPossible(c, keep, lost, None);
    loss := Loss(keep, lost, None, k);
    AfterTheLoss(c, loss);
  }

  lemma KeptAbsence(d: S.Disk, junk: map<S.Ino, Bytes>, n: S.Name)
    ensures S.CanLosePower(d, KeepAll(d))
    ensures n !in d.dir ==> S.Show(S.AfterLoss(d, KeepAll(d), junk), n) == S.Show(d, n) == S.Absent
  {
  }

  /** A name with no pending change comes back as it is, and a synced file with its content. */
  lemma SettledNames(d: S.Disk, keep: map<S.Name, Option<S.Ino>>, junk: map<S.Ino, Bytes>, n: S.Name)
    requires S.CanLosePower(d, keep) && n !in d.pending
    requires n in d.dir ==> d.dir[n] in d.inodes && d.inodes[d.dir[n]].durable
    ensures S.Show(S.AfterLoss(d, keep, junk), n) == S.Show(d, n)
  {
    if n in d.dir { assert keep[n] == S.Entry(d, n); }
  }

  /**
    With no change of its entry pending, the sidecar is safe from every power
    loss if and only if there is none or it is synced; the target always is.
   */
  lemma SidecarSurvivesExactly(c0: State, run: seq<Step>, c: State)
    requires Init(c0) && Exec(c0, run) == Some(c)
    requires Paths.ChecksumPath(c.t) !in c.s.d.pending && c.t !in c.s.d.pending
    ensures var side := Paths.ChecksumPath(c.t);
      (forall loss: Step | loss.Loss? && Can(c, loss) :: SidecarOf(Do(c, loss).s.d, c.t) == SidecarOf(c.s.d, c.t))
      <==> (side in c.s.d.dir && c.s.d.dir[side] in c.s.d.inodes ==> c.s.d.inodes[c.s.d.dir[side]].durable)
    ensures forall loss: Step | loss.Loss? && Can(c, loss) :: S.Show(Do(c, loss).s.d, c.t) == S.Show(c.s.d, c.t)
  {
    hide Init, Inv, Exec, Can, Do, S.AfterLoss, S.CanLosePower, S.Show, Paths.ChecksumPath;
    InitHolds(c0);
    RunKeeps(c0, run, c);
    PairKnown(c);
    var side := Paths.ChecksumPath(c.t);
    forall loss: Step | loss.Loss? && Can(c, loss)
      ensures S.Show(Do(c, loss).s.d, c.t) == S.Show(c.s.d, c.t)
      ensures (side in c.s.d.dir ==> c.s.d.inodes[c.s.d.dir[side]].durable) ==>
        SidecarOf(Do(c, loss).s.d, c.t) == SidecarOf(c.s.d, c.t)
    {
      AfterTheLoss(c, loss);
      SettledNames(c.s.d, loss.keep, loss.junk, c.t);
      if side in c.s.d.dir ==> c.s.d.inodes[c.s.d.dir[side]].durable {
        SettledNames(c.s.d, loss.keep, loss.junk, side);
      }
    }
    if side in c.s.d.dir && !c.s.d.inodes[c.s.d.dir[side]].durable {
      var junk := c.s.d.inodes[c.s.d.dir[side]].data + [0];
      var loss := PowerLossTearsTheSidecar(c0, run, c, junk);
      ShowsInode(c.s.d, side);
    }
  }

  /** It is no idle threat: a strict call has returned, target and sidecar agree, and the sidecar is not synced. */
  lemma ReturnedCallIsExposed() returns (c0: State, run: seq<Step>, c: State)
    ensures Init(c0) && HexHash(c0.s.d) && Exec(c0, run) == Some(c) && c.t == "t"
    ensures 1 in c.s.writers && c.s.writers[1].pc.Returned?
    ensures c.s.writers[1].safety == S.Strict && c.s.writers[1].sidecar && Agrees(c.s.d, "t", "sha256")
    ensures var side := Paths.ChecksumPath("t");
      side in c.s.d.dir && c.s.d.dir[side] in c.s.d.inodes && !c.s.d.inodes[c.s.d.dir[side]].durable
  {
    hide Ran, Init, HexHash, Inv, Paths.ChecksumPath, TextFor, Digest, Fresh;
    c0, run, c := OneCallReturns();
    StartsFresh(c0, run, c);
    TextSays([1]);
    hide S.Show, SidecarText.Describes, Agrees;
    ShowsInode(c.s.d, "t");
    ShowsInode(c.s.d, Paths.ChecksumPath("t"));
    AgreesBy(c.s.d, "t", "sha256", Digest("sha256", [1]), "");
  }

  lemma ShowsInode(d: S.Disk, n: S.Name)
    requires n in d.dir && d.dir[n] in d.inodes
    ensures S.Show(d, n) == S.Present(d.dir[n], d.inodes[d.dir[n]].data)
  {
  }

  lemma StartsFresh(c0: State, run: seq<Step>, c: State)
    requires Fresh(c0) && Ran(c0, run, c)
    ensures Init(c0) && Exec(c0, run) == Some(c) && Inv(c)
  {
    hide Init, Exec, Inv;
    InitHolds(c0);
    RunKeeps(c0, run, c);
  }

  // ----- what a checked read says then -------------------------------------------------------------

  /** How a checked read ends that meets these two files and nothing else. */
  function Answer(digest: string, version: nat, content: Bytes, side: Bytes): S.ReaderPc
  {
    match SidecarText.ParseBytes(side)
    case None => S.BadSidecar(side)
    case Some(info) =>
      if digest == info.digest then S.Got(version, content, side) else S.Mismatch(version, content, side)
  }

  /** One more step of a reader. */
  lemma ThenReads(c0: State, run0: seq<Step>, c1: State, r: S.Id, step: S.ReaderStep) returns (run: seq<Step>, c: State)
    requires Exec(c0, run0) == Some(c1) && r in c1.s.readers && !step.Forgo?
    requires S.CanReader(c1.s.d, c1.s.readers[r], step)
    ensures Exec(c0, run) == Some(c) && run0 <= run
    ensures c == c1.(s := c1.s.(readers :=
      c1.s.readers[r := c1.s.readers[r].(pc := S.NextReader(c1.s.d, c1.s.readers[r], step))]))
  {
    hide S.CanReader, S.NextReader;
    run, c := run0 + [Disk(S.R(r, step))], Do(c1, Disk(S.R(r, step)));
    Appended(c0, run0, c1, Disk(S.R(r, step)));
  }

  lemma {:induction false} Appended(c: State, run: seq<Step>, c1: State, step: Step)
    requires Exec(c, run) == Some(c1) && Can(c1, step)
    ensures Exec(c, run + [step]) == Some(Do(c1, step))
    decreases |run|
  {
    hide Do, Can;
    if run == [] {
      assert run + [step] == [step];
      assert Exec(Do(c, step), [step][1..]) == Some(Do(c, step));
    } else {
      assert (run + [step])[1..] == run[1..] + [step];
      Appended(Do(c, run[0]), run[1..], c1, step);
    }
  }

  lemma WholeSlice(data: Bytes)
    ensures [] + Slice(data, 0, |data|) == data
  {
  }

  lemma Starts(c0: State, run0: seq<Step>, c1: State, r: S.Id, x: S.Reader) returns (run: seq<Step>, c: State)
    requires Exec(c0, run0) == Some(c1) && S.Can(c1.s, S.StartRead(r, x))
    ensures Exec(c0, run) == Some(c) && run0 <= run
    ensures c == c1.(s := c1.s.(readers := c1.s.readers[r := x]))
  {
    hide S.Latest;
    run, c := run0 + [Disk(S.StartRead(r, x))], Do(c1, Disk(S.StartRead(r, x)));
    Appended(c0, run0, c1, Disk(S.StartRead(r, x)));
  }

  /** The sidecar as far as its digest. */
  lemma ReadsTheSidecar(c0: State, run0: seq<Step>, c1: State, r: S.Id, t: S.Name, algo: string)
    returns (run: seq<Step>, c: State)
    requires Exec(c0, run0) == Some(c1) && r !in c1.s.readers && t in c1.s.d.targets
    requires SidecarOf(c1.s.d, t).Some?
    ensures Exec(c0, run) == Some(c) && run0 <= run
    ensures var side := SidecarOf(c1.s.d, t).value;
      var info := SidecarText.ParseBytes(side);
      c == c1.(s := c1.s.(readers := c1.s.readers[r := S.Reader(t, true, algo, S.Latest(c1.s.d, t),
        if info.None? then S.BadSidecar(side) else S.Expecting(Some(info.value.digest), side))]))
  {
    hide SidecarText.ParseBytes, Paths.ChecksumPath, S.Latest, Slice;
    hide Exec;
    run, c := Starts(c0, run0, c1, r, S.Reader(t, true, algo, S.Latest(c1.s.d, t), S.Started));
    run, c := ThenReads(c0, run, c, r, S.OpenSide);
    var side := SidecarOf(c1.s.d, t).value;
    WholeSlice(side);
    run, c := ThenReads(c0, run, c, r, S.ReadSide(|side|));
    run, c := ThenReads(c0, run, c, r, S.ParseSide);
  }

  /** The whole read, of any target with any algorithm, with nobody else about. */
  lemma CheckedReadAnswers(c0: State, run0: seq<Step>, c1: State, r: S.Id, t: S.Name, algo: string)
    returns (run: seq<Step>, c: State)
    requires Exec(c0, run0) == Some(c1) && r !in c1.s.readers && t in c1.s.d.targets
    requires SidecarOf(c1.s.d, t).Some? && S.Show(c1.s.d, t).Present?
    ensures Exec(c0, run) == Some(c) && run0 <= run && r in c.s.readers && c.s.d == c1.s.d && c.t == c1.t
    ensures var content := S.Show(c1.s.d, t).data;
      c.s.readers[r].pc ==
        Answer(c1.s.d.hash(algo, content), S.Latest(c1.s.d, t), content, SidecarOf(c1.s.d, t).value)
  {
    hide SidecarText.ParseBytes, Paths.ChecksumPath, S.Latest, Slice, Exec, SidecarOf;
    run, c := ReadsTheSidecar(c0, run0, c1, r, t, algo);
    if c.s.readers[r].pc.Expecting? {
      var content := S.Show(c1.s.d, t).data;
      WholeSlice(content);
      run, c := ThenReads(c0, run, c, r, S.OpenTarget);
      run, c := ThenReads(c0, run, c, r, S.Read(|content|));
      run, c := ThenReads(c0, run, c, r, S.FinishRead);
    }
  }

  /**
    So after a power loss a checked read of content that is confirmed and
    intact may raise a mismatch, or FileNotFoundError, depending on what the
    disk made of the sidecar; it never hands out other content.
   */
  lemma CheckedReadAfterPowerLoss(c0: State, run: seq<Step>, c: State, junk: Bytes, r: S.Id, algo: string)
    returns (run': seq<Step>, c': State)
    requires Init(c0) && Exec(c0, run) == Some(c) && S.Show(c.s.d, c.t).Present?
    requires var side := Paths.ChecksumPath(c.t);
      side in c.s.d.dir && c.s.d.dir[side] in c.s.d.inodes && !c.s.d.inodes[c.s.d.dir[side]].durable
    ensures Exec(c0, run') == Some(c') && run <= run' && c'.t == c.t && r in c'.s.readers
    ensures S.Show(c'.s.d, c.t) == S.Show(c.s.d, c.t)
    ensures var content := S.Show(c.s.d, c.t).data;
      c'.s.readers[r].pc == Answer(c'.s.d.hash(algo, content), S.Latest(c'.s.d, c.t), content, junk)
  {
    hide Init, Exec, Can, Do, Inv, Answer, S.Latest, SidecarOf, S.Show, Paths.ChecksumPath, S.AfterLoss;
    var loss := PowerLossTearsTheSidecar(c0, run, c, junk);
    Appended(c0, run, c, loss);
    AfterTheLoss(c, loss);
    TargetKnown(c0, run + [loss], Do(c, loss));
    run', c' := CheckedReadAnswers(c0, run + [loss], Do(c, loss), r, c.t, algo);
  }

  lemma TargetKnown(c0: State, run: seq<Step>, c: State)
    requires Init(c0) && Exec(c0, run) == Some(c)
    ensures c.t in c.s.d.targets
  {
    hide Init, Exec, BlocksOk, LogOk, ViewOk, SI.Inv, L.Inv;
    InitHolds(c0);
    RunKeeps(c0, run, c);
  }
}
