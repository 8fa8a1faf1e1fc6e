/**
  The checksum sidecar of a target whose writers share a lock.  `_write_core`
  gives the lock back before it writes its sidecar, so sidecars of one target
  may be written in any order.  As long as two of them are not written at the
  same time, the sidecar speaks for the version its last writer had hashed,
  and for the target if and only if that is still the content.
 */
module SidecarAgreement {
  import opened Basics
  import Paths
  import SidecarText
  import S = Storage
  import SI = StorageInvariant
  import ST = StorageTheorems
  import L = LockProtocol
  import opened Composite

  /** The bytes of the target's sidecar. */
  function SidecarOf(d: S.Disk, t: S.Name): Option<Bytes>
  {
    match S.Show(d, Paths.ChecksumPath(t))
    case Present(_, data) => Some(data)
    case Absent => None
  }

  /** The target exists, and its sidecar describes it: the digest in it is the hash of the target by `algo`. */
  ghost predicate Agrees(d: S.Disk, t: S.Name, algo: string)
  {
    && SidecarOf(d, t).Some? && S.Show(d, t).Present?
    && exists timestamp: string ::
         SidecarText.Describes(SidecarOf(d, t).value, d.hash(algo, S.Show(d, t).data), t, algo, timestamp)
  }

  /** A sidecar that describes something agrees exactly if the digests are the same. */
  lemma AgreesBy(d: S.Disk, t: S.Name, algo: string, digest: string, timestamp: string)
    requires SidecarOf(d, t).Some? && S.Show(d, t).Present?
    requires SidecarText.Describes(SidecarOf(d, t).value, digest, t, algo, timestamp)
    ensures Agrees(d, t, algo) <==> digest == d.hash(algo, S.Show(d, t).data)
  {
    hide SidecarOf, S.Show, SidecarText.ParseBytes, SidecarText.DecodeAscii, SidecarText.Clean;
  }

  /** `hexdigest` yields lowercase hexadecimal. */
  ghost predicate HexHash(d: S.Disk)
  {
    forall algo, data :: SidecarText.IsDigest(d.hash(algo, data))
  }

  /** Different contents have different digests. */
  ghost predicate Injective(d: S.Disk, algo: string)
  {
    forall a, b :: d.hash(algo, a) == d.hash(algo, b) ==> a == b
  }

  // ----- what keeps a sidecar as it is -----------------------------------------------------------

  /** A name whose entry stays, over an inode whose data stays. */
  lemma SameShow(d: S.Disk, d': S.Disk, n: S.Name)
    requires S.Entry(d', n) == S.Entry(d, n)
    requires S.Entry(d, n).Some? ==>
      var i := S.Entry(d, n).value; i in d.inodes && i in d'.inodes && d'.inodes[i].data == d.inodes[i].data
    ensures S.Show(d', n) == S.Show(d, n)
  {
  }

  /** Names of the target: neither temporary, nor anybody's lock; nor another target's, nor its sidecar. */
  lemma NamesApart(d: S.Disk, t: S.Name, u: S.Name)
    requires SI.NamesOk(d) && t in d.targets && u in d.targets
    ensures var n := Paths.ChecksumPath(t);
      && !Paths.IsTmpName(t) && !Paths.IsTmpName(n) && t != Paths.LockPath(u) && n != Paths.LockPath(u)
      && t != n && n != u && t != Paths.ChecksumPath(u)
      && (t != u ==> n != Paths.ChecksumPath(u))
  {
    assert Paths.Apart(t, u) && Paths.Apart(u, t);
    Paths.DerivedNames(t, u);
    Paths.DerivedNames(u, t);
    Paths.DerivedNames(t, t);
  }

  /** What the target and its sidecar point to. */
  lemma EntriesKnown(d: S.Disk, t: S.Name)
    requires SI.DiskOk(d) && t in d.targets
    ensures S.Entry(d, t).Some? ==> S.Entry(d, t).value in d.inodes && d.inodes[S.Entry(d, t).value].kind == S.Published
    ensures S.Entry(d, Paths.ChecksumPath(t)).Some? ==>
      var i := S.Entry(d, Paths.ChecksumPath(t)).value; i in d.inodes && d.inodes[i].kind == S.Sidecar(t)
  {
    hide Paths.GoodTargets, Paths.ChecksumPath;
    var vs := d.versions[t];
    assert SI.HistoryOk(d, t) && SI.Frozen(d, vs[|vs| - 1]);
    assert SI.SideOk(d, t);
    assert S.Entry(d, Paths.ChecksumPath(t)).Some? ==>
        S.MayBe(d, Paths.ChecksumPath(t), Some(S.Entry(d, Paths.ChecksumPath(t)).value));
  }

  /** Which contents a writer's step can change. */
  lemma StepWrites(d: S.Disk, w: S.Id, x: S.Writer, step: S.WriterStep, i: S.Ino)
    requires S.CanWriter(d, w, x, step) && i in d.inodes
    requires x.pc.Open? ==> i != x.pc.ino
    requires step.Truncate? ==> i != step.ino
    requires step.WriteSide? ==> i != x.pc.side
    ensures i in S.NextDisk(d, w, x, step).inodes && S.NextDisk(d, w, x, step).inodes[i].data == d.inodes[i].data
  {
    hide Overwrite, Paths.IsTmpName, Paths.LockPath, Paths.ChecksumPath;
  }

  /** The temporary names and inodes a writer has in hand are its own kind of thing. */
  ghost predicate OwnKinds(d: S.Disk, w: S.Id, x: S.Writer)
  {
    && x.target in d.targets
    && (x.pc.Closed? ==> Paths.IsTmpName(x.pc.tmp))
    && (x.pc.Doomed? && x.pc.orphan.Some? ==> Paths.IsTmpName(x.pc.orphan.value))
    && (x.pc.Open? ==> x.pc.ino in d.inodes && d.inodes[x.pc.ino].kind == S.Scratch(w))
    && (x.pc.Rewriting? ==> x.pc.side in d.inodes && d.inodes[x.pc.side].kind == S.Sidecar(x.target))
  }

  lemma WriterOwns(d: S.Disk, w: S.Id, x: S.Writer)
    requires SI.DiskOk(d) && SI.WriterOk(d, w, x)
    ensures OwnKinds(d, w, x)
  {
    hide SI.DiskOk, Paths.IsTmpName, S.GoalMet;
  }

  /** Where in its program a writer takes the steps that change names or contents. */
  ghost predicate AtStep(d: S.Disk, x: S.Writer, step: S.WriterStep)
  {
    && (step.Create? ==> Paths.IsTmpName(step.tmp))
    && (step.Place? ==> x.pc.Closed?)
    && (step.Clean? ==> x.pc.Doomed?)
    && (step.WriteSide? ==> x.pc.Rewriting?)
    && (step.Truncate? ==>
          && x.pc.Hashed?
          && (if Paths.ChecksumPath(x.target) in d.dir
              then step.ino == d.dir[Paths.ChecksumPath(x.target)] && step.ino in d.inodes
              else step.ino !in d.inodes))
  }

  lemma StepIsAt(d: S.Disk, w: S.Id, x: S.Writer, step: S.WriterStep)
    requires S.CanWriter(d, w, x, step)
    ensures AtStep(d, x, step)
  {
    hide Paths.IsTmpName, Paths.LockPath, Paths.ChecksumPath;
  }

  /** Only a sidecar write of the target's own writers touches its sidecar. */
  lemma SidecarStays(d: S.Disk, w: S.Id, x: S.Writer, step: S.WriterStep, t: S.Name)
    requires SI.DiskOk(d) && SI.WriterOk(d, w, x) && S.CanWriter(d, w, x, step) && !step.Collide?
    requires t in d.targets && (x.target == t ==> !step.Truncate? && !step.WriteSide?)
    ensures var n := Paths.ChecksumPath(t); S.Show(S.NextDisk(d, w, x, step), n) == S.Show(d, n)
  {
    hide SI.DiskOk, SI.WriterOk, SI.NamesOk, S.NextDisk, S.CanWriter, S.Show, S.Entry;
    hide Paths.IsTmpName, Paths.LockPath, Paths.ChecksumPath;
    var d', n := S.NextDisk(d, w, x, step), Paths.ChecksumPath(t);
    WriterOwns(d, w, x);
    StepIsAt(d, w, x, step);
    SI.DiskIsNamed(d);
    NamesApart(d, t, x.target);
    ST.OnlyOwnNames(d, w, x, step, n);
    if S.Entry(d, n).Some? {
      EntriesKnown(d, t);
      EntriesKnown(d, x.target);
      TruncatedFile(d, x, step);
      StepWrites(d, w, x, step, S.Entry(d, n).value);
    }
    SameShow(d, d', n);
  }

  lemma TruncatedFile(d: S.Disk, x: S.Writer, step: S.WriterStep)
    requires AtStep(d, x, step)
    ensures step.Truncate? ==> S.Entry(d, Paths.ChecksumPath(x.target)) == Some(step.ino) || step.ino !in d.inodes
  {
    hide Paths.ChecksumPath;
  }

  // ----- the invariant --------------------------------------------------------------------------

  /** The version exists, and `text` describes it: its hash, the target's name, the writer's algorithm, and the time. */
  ghost predicate MadeFrom(d: S.Disk, x: S.Writer, h: Hashing, text: Option<Bytes>)
  {
    && x.target in d.versions && h.version < |d.versions[x.target]| && d.versions[x.target][h.version].Present?
    && (text.Some? ==>
          SidecarText.Describes(text.value, d.hash(x.algo, d.versions[x.target][h.version].data), x.target, x.algo,
                                h.timestamp))
  }

  /** How far the last writer of the sidecar is with it. */
  ghost predicate Written(d: S.Disk, x: S.Writer, h: Hashing)
  {
    && MadeFrom(d, x, h, None)
    && match x.pc
       case Rewriting(_, _, text, side, offset) =>
         && MadeFrom(d, x, h, text)
         && (text.Some? ==>
               && offset <= |text.value|
               && S.Show(d, Paths.ChecksumPath(x.target)) == S.Present(side, text.value[..offset]))
       case Returned(_, _) => SidecarOf(d, x.target).Some? && MadeFrom(d, x, h, SidecarOf(d, x.target))
       case Raised(placed) => placed
       case _ => false
  }

  function TextOf(pc: S.WriterPc): Option<Bytes>
  {
    if pc.Hashed? then pc.text else if pc.Rewriting? then pc.text else None
  }

  /** The version a block has made its text from is on record. */
  ghost predicate HashOk(c: State, w: S.Id)
  {
    w in c.s.writers && (c.s.writers[w].pc.Hashed? || c.s.writers[w].pc.Rewriting?) ==>
      && c.s.writers[w].target == c.t && w in c.hashed
      && MadeFrom(c.s.d, c.s.writers[w], c.hashed[w], TextOf(c.s.writers[w].pc))
  }

  ghost predicate ScribeOk(c: State)
  {
    c.scribe.Some? ==>
      && c.scribe.value in c.blocks && c.scribe.value in c.s.writers && c.scribe.value in c.hashed
      && c.s.writers[c.scribe.value].target == c.t
      && Written(c.s.d, c.s.writers[c.scribe.value], c.hashed[c.scribe.value])
  }

  /** The block's process can still take steps. */
  predicate Acting(c: State, w: S.Id)
    requires w in c.blocks
  {
    L.Alive(c.l, c.blocks[w].actor)
  }

  ghost predicate OneScribe(c: State)
  {
    forall w | w in c.blocks && w in c.s.writers && Acting(c, w) && c.s.writers[w].pc.Rewriting? :: c.scribe == Some(w)
  }

  ghost predicate SideInv(c: State)
  {
    && Inv(c) && HexHash(c.s.d)
    && (forall w | w in c.blocks :: HashOk(c, w)) && ScribeOk(c) && OneScribe(c)
  }

  /** Sidecar writes do not overlap: a sidecar is opened when no other live block is writing it. */
  predicate Separate(c: State, step: Step)
  {
    step.Disk? && step.dstep.W? && step.dstep.wstep.Truncate? && step.dstep.w in c.blocks ==>
      forall v | v in c.blocks && v != step.dstep.w && v in c.s.writers && Acting(c, v) :: !c.s.writers[v].pc.Rewriting?
  }

  ghost predicate RunSeparate(c: State, run: seq<Step>)
    requires Exec(c, run).Some?
    decreases |run|
  {
    run == [] || (Separate(c, run[0]) && RunSeparate(Do(c, run[0]), run[1..]))
  }

  // ----- one writer's own steps -----------------------------------------------------------------------

  lemma MadeStays(d: S.Disk, d': S.Disk, x: S.Writer, h: Hashing, text: Option<Bytes>)
    requires MadeFrom(d, x, h, text) && SI.Grows(d, d')
    ensures MadeFrom(d', x, h, text)
  {
    hide SidecarText.Describes;
  }

  lemma TextDescribes(d: S.Disk, x: S.Writer, timestamp: string)
    requires HexHash(d) && S.Show(d, x.target).Present?
    ensures var text := S.SidecarBytes(d, x, timestamp);
      text.Some? ==>
        SidecarText.Describes(text.value, d.hash(x.algo, S.Show(d, x.target).data), x.target, x.algo, timestamp)
  {
    var digest := d.hash(x.algo, S.Show(d, x.target).data);
    hide SidecarText.Print, SidecarText.EncodeAscii, SidecarText.Describes, SidecarText.IsDigest, SidecarText.IsAscii;
    assert SidecarText.IsDigest(digest);
    if S.SidecarBytes(d, x, timestamp).Some? { SidecarText.PrintDescribes(digest, x.target, x.algo, timestamp); }
  }

  lemma ReopenShows(d: S.Disk, t: S.Name, ino: S.Ino)
    requires if Paths.ChecksumPath(t) in d.dir then ino == d.dir[Paths.ChecksumPath(t)] && ino in d.inodes
             else ino !in d.inodes
    requires t != Paths.ChecksumPath(t)
    requires S.Entry(d, t).Some? && S.Entry(d, t).value in d.inodes ==> S.Entry(d, t).value != ino
    ensures S.Show(S.Reopen(d, t, ino), Paths.ChecksumPath(t)) == S.Present(ino, [])
    ensures S.Show(d, t).Present? ==> S.Show(S.Reopen(d, t, ino), t) == S.Show(d, t)
    ensures S.Reopen(d, t, ino).hash == d.hash
  {
    hide Paths.ChecksumPath;
  }

  /** An emptied sidecar holds the first none of the text's bytes. */
  lemma TruncateStarts(d: S.Disk, w: S.Id, x: S.Writer, ino: S.Ino, h: Hashing)
    requires SI.DiskOk(d) && SI.WriterOk(d, w, x) && AtStep(d, x, S.Truncate(ino)) && MadeFrom(d, x, h, x.pc.text)
    requires SI.Grows(d, S.Reopen(d, x.target, ino))
    ensures Written(S.Reopen(d, x.target, ino), x.(pc := S.Rewriting(x.pc.version, x.pc.content, x.pc.text, ino, 0)), h)
  {
    hide SI.DiskOk, SI.WriterOk, SI.NamesOk, S.Show, S.Reopen, S.Entry, Paths.ChecksumPath, SI.Grows;
    hide SidecarText.Describes;
    var d', y := S.Reopen(d, x.target, ino), x.(pc := S.Rewriting(x.pc.version, x.pc.content, x.pc.text, ino, 0));
    SI.DiskIsNamed(d);
    WriterOwns(d, w, x);
    NamesApart(d, x.target, x.target);
    EntriesKnown(d, x.target);
    TruncatedFile(d, x, S.Truncate(ino));
    ReopenShows(d, x.target, ino);
    MadeStays(d, d', x, h, x.pc.text);
    assert MadeFrom(d', y, h, x.pc.text) && MadeFrom(d', y, h, None);
    if x.pc.text.Some? { assert x.pc.text.value[..0] == []; }
  }

  lemma WriteSideShows(d: S.Disk, t: S.Name, side: S.Ino, data: Bytes)
    requires S.Show(d, Paths.ChecksumPath(t)).Present? && S.Show(d, Paths.ChecksumPath(t)).ino == side
    requires side in d.inodes && S.Entry(d, t) != Some(side)
    ensures S.Show(S.Fill(d, side, data, false), Paths.ChecksumPath(t)) == S.Present(side, data)
    ensures S.Show(S.Fill(d, side, data, false), t) == S.Show(d, t)
  {
    hide Paths.ChecksumPath;
  }

  /** Appending at the file's end. */
  lemma OverwriteAtEnd(text: Bytes, offset: nat, n: nat)
    requires offset <= |text|
    ensures var part := Slice(text, offset, n);
      offset + |part| <= |text| && Overwrite(text[..offset], offset, part) == text[..offset + |part|]
  {
  }

  lemma WriteSideGoesOn(d: S.Disk, w: S.Id, x: S.Writer, n: nat, h: Hashing)
    requires SI.DiskOk(d) && SI.WriterOk(d, w, x) && Written(d, x, h)
    requires x.pc.Rewriting? && x.pc.text.Some? && x.pc.side in d.inodes
    ensures var part := Slice(x.pc.text.value, x.pc.offset, n);
      Written(S.Fill(d, x.pc.side, Overwrite(d.inodes[x.pc.side].data, x.pc.offset, part), false),
              x.(pc := x.pc.(offset := x.pc.offset + |part|)), h)
  {
    hide SI.DiskOk, SI.WriterOk, Paths.ChecksumPath, SidecarText.Describes, Slice, Overwrite, S.Fill, S.Entry, S.Show;
    WriterOwns(d, w, x);
    EntriesKnown(d, x.target);
    OverwriteAtEnd(x.pc.text.value, x.pc.offset, n);
    ShownData(d, Paths.ChecksumPath(x.target));
    var data := Overwrite(d.inodes[x.pc.side].data, x.pc.offset, Slice(x.pc.text.value, x.pc.offset, n));
    WriteSideShows(d, x.target, x.pc.side, data);
    FillHistory(d, x.pc.side, data);
  }

  lemma FillHistory(d: S.Disk, i: S.Ino, data: Bytes)
    requires i in d.inodes
    ensures S.Fill(d, i, data, false).hash == d.hash && S.Fill(d, i, data, false).versions == d.versions
  {
  }

  lemma ShownData(d: S.Disk, n: S.Name)
    requires S.Show(d, n).Present?
    ensures S.Show(d, n).ino in d.inodes && d.inodes[S.Show(d, n).ino].data == S.Show(d, n).data
  {
  }

  /** The last writer of the sidecar goes on writing it, returns, or fails. */
  lemma ScribeGoesOn(d: S.Disk, w: S.Id, x: S.Writer, step: S.WriterStep, h: Hashing)
    requires SI.DiskOk(d) && SI.WriterOk(d, w, x) && S.CanWriter(d, w, x, step) && Written(d, x, h)
    requires !step.Forget? && !step.Collide? && SI.Grows(d, S.NextDisk(d, w, x, step))
    ensures Written(S.NextDisk(d, w, x, step), x.(pc := S.NextPc(d, w, x, step)), h)
  {
    hide Written, SI.DiskOk, SI.WriterOk, MadeFrom, SI.Grows, SidecarText.Describes;
    ScribePc(d, x, h);
    if step.WriteSide? {
      WriteSideGoesOn(d, w, x, step.n, h);
    } else {
      TargetIsKnown(d, w, x);
      SidecarStays(d, w, x, step, x.target);
      OtherSteps(d, w, x, step, h);
    }
  }

  lemma ScribePc(d: S.Disk, x: S.Writer, h: Hashing)
    requires Written(d, x, h)
    ensures x.pc.Rewriting? || x.pc.Returned? || x.pc.Raised?
  {
  }

  lemma TargetIsKnown(d: S.Disk, w: S.Id, x: S.Writer)
    requires SI.DiskOk(d) && SI.WriterOk(d, w, x)
    ensures x.target in d.targets
  {
    hide SI.DiskOk;
  }

  lemma OtherSteps(d: S.Disk, w: S.Id, x: S.Writer, step: S.WriterStep, h: Hashing)
    requires S.CanWriter(d, w, x, step) && Written(d, x, h) && (x.pc.Rewriting? || x.pc.Returned? || x.pc.Raised?)
    requires !step.WriteSide? && !step.Forget? && !step.Collide? && SI.Grows(d, S.NextDisk(d, w, x, step))
    requires S.Show(S.NextDisk(d, w, x, step), Paths.ChecksumPath(x.target)) == S.Show(d, Paths.ChecksumPath(x.target))
    ensures Written(S.NextDisk(d, w, x, step), x.(pc := S.NextPc(d, w, x, step)), h)
  {
    hide S.NextDisk, S.Show, SI.Grows, SidecarText.Describes, Paths.ChecksumPath, Paths.LockPath;
    var d', y := S.NextDisk(d, w, x, step), x.(pc := S.NextPc(d, w, x, step));
    MadeStays(d, d', x, h, None);
    assert MadeFrom(d', y, h, None);
    if x.pc.Rewriting? {
      MadeStays(d, d', x, h, x.pc.text);
      if step.Return? { assert x.pc.text.value[..x.pc.offset] == x.pc.text.value; }
    }
    if x.pc.Returned? { MadeStays(d, d', x, h, SidecarOf(d, x.target)); }
  }

  /** A writer that only sees others move. */
  lemma WrittenStays(d: S.Disk, d': S.Disk, x: S.Writer, h: Hashing)
    requires Written(d, x, h) && SI.Grows(d, d')
    requires S.Show(d', Paths.ChecksumPath(x.target)) == S.Show(d, Paths.ChecksumPath(x.target))
    ensures Written(d', x, h)
  {
    hide S.Show, SI.Grows, SidecarText.Describes, Paths.ChecksumPath, MadeFrom;
    MadeStays(d, d', x, h, None);
    if x.pc.Rewriting? { MadeStays(d, d', x, h, x.pc.text); }
    if x.pc.Returned? { MadeStays(d, d', x, h, SidecarOf(d, x.target)); }
  }

  // ----- steps of the whole system ----------------------------------------------------------------------

  lemma DiskGrows(c: State, step: S.Step)
    requires Inv(c) && Can(c, Disk(step))
    ensures SI.Grows(c.s.d, Do(c, Disk(step)).s.d)
  {
    hide S.Do, Inv, Can, SI.Inv, S.Can, SI.Grows;
    DiskStep(c, step);
    SI.StepKeeps(c.s, step);
  }

  lemma BlocksStay(c: State, step: S.Step)
    requires Inv(c) && Can(c, Disk(step))
    ensures Do(c, Disk(step)).blocks == c.blocks && Do(c, Disk(step)).l == c.l
    ensures forall v | v in c.blocks ::
      var c' := Do(c, Disk(step));
      && v in c'.s.writers && v in c.s.writers && (Held(c', v) <==> Held(c, v))
      && (!(step.W? && step.w == v) ==> c'.s.writers[v] == c.s.writers[v])
  {
    hide Can, LogOk, ViewOk, SI.Inv, L.Inv, BlocksOk, S.Do;
    DiskBlocks(c, step);
  }

  lemma StepParts(c: State, step: S.Step)
    requires Inv(c) && Can(c, Disk(step)) && step.W?
    ensures step.w in c.s.writers && S.CanWriter(c.s.d, step.w, c.s.writers[step.w], step.wstep) && !step.wstep.Collide?
    ensures SI.DiskOk(c.s.d) && SI.WriterOk(c.s.d, step.w, c.s.writers[step.w])
    ensures c.t in c.s.d.targets && (c.s.writers[step.w].target == c.t <==> step.w in c.blocks)
    ensures step.w in c.blocks ==>
      CanBlockStep(c, step.w, step.wstep) && (c.wholeOnly ==> c.s.writers[step.w].goal.None?)
    ensures step.wstep.Forget? ==> Do(c, Disk(step)).s.d == c.s.d && step.w !in c.blocks
    ensures !step.wstep.Forget? ==> Do(c, Disk(step)).s.d == S.NextDisk(c.s.d, step.w, c.s.writers[step.w], step.wstep)
    ensures !step.wstep.Forget? ==>
      && step.w in Do(c, Disk(step)).s.writers
      && Do(c, Disk(step)).s.writers[step.w]
           == c.s.writers[step.w].(pc := S.NextPc(c.s.d, step.w, c.s.writers[step.w], step.wstep))
  {
    hide S.NextDisk, S.NextPc, S.CanWriter, SI.DiskOk, SI.WriterOk, LogOk, ViewOk, L.Inv;
  }


  /** Steps that are no writer's leave the disk alone. */
  lemma CalmDisk(c: State, step: S.Step)
    requires Can(c, Disk(step)) && !step.W?
    ensures Do(c, Disk(step)).s.d == c.s.d
  {
    hide S.CanReader, S.NextReader;
  }

  lemma HashNow(c: State, w: S.Id, x: S.Writer, timestamp: string)
    requires Inv(c) && HexHash(c.s.d) && x.target == c.t && S.Show(c.s.d, c.t).Present?
    ensures MadeFrom(c.s.d, x, Hashing(S.Latest(c.s.d, c.t), timestamp), S.SidecarBytes(c.s.d, x, timestamp))
  {
    hide BlocksOk, ViewOk, LogOk, L.Inv, SI.Inv, S.Show, S.SidecarBytes, HexHash, SidecarText.Describes;
    TextDescribes(c.s.d, x, timestamp);
    ST.ShownIsLatest(c.s, c.t);
  }

  /** How a text gets into a writer's hands. */
  lemma TextComes(d: S.Disk, w: S.Id, x: S.Writer, step: S.WriterStep)
    requires S.CanWriter(d, w, x, step) && !step.Collide?
    ensures var pc' := S.NextPc(d, w, x, step);
      && (pc'.Hashed? && !step.Hash? ==> x.pc == pc')
      && (step.Hash? ==> S.Show(d, x.target).Present? && pc' == S.Hashed(x.pc.version, x.pc.content,
          S.SidecarBytes(d, x, step.timestamp)))
      && (pc'.Rewriting? ==> (x.pc.Hashed? || x.pc.Rewriting?) && TextOf(x.pc) == TextOf(pc') && !step.Hash?)
      && (step.Truncate? ==>
            && x.pc.Hashed?
            && pc' == S.Rewriting(x.pc.version, x.pc.content, x.pc.text, step.ino, 0)
            && S.NextDisk(d, w, x, step) == S.Reopen(d, x.target, step.ino))
      && (pc'.Rewriting? && !step.Truncate? ==> x.pc.Rewriting?)
      && (step.WriteSide? ==> x.pc.Rewriting?)
  {
    hide S.SidecarBytes, S.Reopen, Paths.ChecksumPath, Paths.LockPath, Paths.IsTmpName;
  }

  lemma MadeForSame(d: S.Disk, x: S.Writer, y: S.Writer, h: Hashing, text: Option<Bytes>)
    requires MadeFrom(d, x, h, text) && y.target == x.target && y.algo == x.algo
    ensures MadeFrom(d, y, h, text)
  {
  }

  lemma HashOkStays(c: State, step: S.Step, v: S.Id)
    requires SideInv(c) && Can(c, Disk(step)) && v in c.blocks
    ensures HashOk(Do(c, Disk(step)), v)
  {
    hide Inv, Can, Do, HexHash, ScribeOk, OneScribe, S.NextPc, S.NextDisk, S.CanWriter, MadeFrom, SI.Grows,
        CanBlockStep;
    hide SI.DiskOk, SI.WriterOk, S.SidecarBytes, S.Show, S.Latest, Log, Committed, S.Do;
    assert HashOk(c, v);
    var c' := Do(c, Disk(step));
    BlocksStay(c, step);
    NotedSides(c, step);
    NotedLog(c, step);
    DiskGrows(c, step);
    if step.W? && step.w == v {
      StepParts(c, step);
      var x := c.s.writers[v];
      TextComes(c.s.d, v, x, step.wstep);
      if step.wstep.Hash? {
        HashNow(c, v, x, step.wstep.timestamp);
        MadeForSame(c.s.d, x, c'.s.writers[v], c'.hashed[v], TextOf(c'.s.writers[v].pc));
        MadeStays(c.s.d, c'.s.d, c'.s.writers[v], c'.hashed[v], TextOf(c'.s.writers[v].pc));
      } else if c'.s.writers[v].pc.Hashed? || c'.s.writers[v].pc.Rewriting? {
        MadeForSame(c.s.d, x, c'.s.writers[v], c.hashed[v], TextOf(x.pc));
        MadeStays(c.s.d, c'.s.d, c'.s.writers[v], c'.hashed[v], TextOf(x.pc));
      }
    } else if c.s.writers[v].pc.Hashed? || c.s.writers[v].pc.Rewriting? {
      MadeStays(c.s.d, c'.s.d, c.s.writers[v], c.hashed[v], TextOf(c.s.writers[v].pc));
    }
  }

  /** A block that opens the sidecar becomes its scribe. */
  lemma NewScribe(c: State, step: S.Step)
    requires SideInv(c) && Can(c, Disk(step)) && step.W? && step.wstep.Truncate? && step.w in c.blocks
    ensures ScribeOk(Do(c, Disk(step)))
  {
    hide S.SidecarBytes;
    hide Inv, Can, Do, HexHash, OneScribe, S.NextPc, S.NextDisk, S.CanWriter, MadeFrom, SI.Grows, CanBlockStep;
    hide SI.DiskOk, SI.WriterOk, S.Reopen, S.Show, Written, Paths.ChecksumPath, S.Do;
    assert HashOk(c, step.w);
    StepParts(c, step);
    BlocksStay(c, step);
    NotedSides(c, step);
    NotedLog(c, step);
    DiskGrows(c, step);
    var x := c.s.writers[step.w];
    TextComes(c.s.d, step.w, x, step.wstep);
    StepIsAt(c.s.d, step.w, x, step.wstep);
    TruncateStarts(c.s.d, step.w, x, step.wstep.ino, c.hashed[step.w]);
  }

  lemma SidecarLeft(c: State, step: S.Step)
    requires SideInv(c) && Can(c, Disk(step))
    requires step.W? && step.w in c.blocks ==> !step.wstep.Truncate? && c.scribe != Some(step.w)
    ensures var n := Paths.ChecksumPath(c.t); S.Show(Do(c, Disk(step)).s.d, n) == S.Show(c.s.d, n)
  {
    hide Inv, Can, Do, HexHash, HashOk, ScribeOk, S.NextPc, S.NextDisk, S.CanWriter, SI.Grows;
    hide SI.DiskOk, SI.WriterOk, S.Show, Paths.ChecksumPath;
    if step.W? {
      StepParts(c, step);
      if !step.wstep.Forget? {
        TextComes(c.s.d, step.w, c.s.writers[step.w], step.wstep);
        SidecarStays(c.s.d, step.w, c.s.writers[step.w], step.wstep, c.t);
      }
    } else {
      CalmDisk(c, step);
    }
  }

  lemma ScribeStays(c: State, step: S.Step)
    requires SideInv(c) && Can(c, Disk(step)) && c.scribe.Some?
    requires step.W? && step.w in c.blocks ==> !step.wstep.Truncate?
    ensures ScribeOk(Do(c, Disk(step)))
  {
    hide Inv, Can, Do, HexHash, OneScribe, HashOk, S.NextPc, S.NextDisk, S.CanWriter, MadeFrom, SI.Grows, CanBlockStep;
    hide SI.DiskOk, SI.WriterOk, S.Show, Written, Paths.ChecksumPath, S.SidecarBytes;
    var w, c' := c.scribe.value, Do(c, Disk(step));
    var x := c.s.writers[w];
    BlocksStay(c, step);
    NotedSides(c, step);
    NotedLog(c, step);
    DiskGrows(c, step);
    ScribePc(c.s.d, x, c.hashed[w]);
    if step.W? && step.w == w {
      StepParts(c, step);
      TextComes(c.s.d, w, x, step.wstep);
      HashPc(c.s.d, w, x, step.wstep);
      ScribeGoesOn(c.s.d, w, x, step.wstep, c.hashed[w]);
    } else {
      SidecarLeft(c, step);
      WrittenStays(c.s.d, c'.s.d, x, c.hashed[w]);
    }
  }

  lemma HashPc(d: S.Disk, w: S.Id, x: S.Writer, step: S.WriterStep)
    requires S.CanWriter(d, w, x, step)
    ensures step.Hash? ==> x.pc.Durable? && x.sidecar
  {
    hide S.Show;
  }

  lemma OneScribeStays(c: State, step: S.Step)
    requires SideInv(c) && Can(c, Disk(step)) && Separate(c, Disk(step))
    ensures OneScribe(Do(c, Disk(step)))
  {
    hide Inv, Can, Do, HexHash, ScribeOk, HashOk, S.NextPc, S.NextDisk, S.CanWriter, SI.DiskOk, SI.WriterOk,
        CanBlockStep;
    hide S.Show, S.SidecarBytes;
    var c' := Do(c, Disk(step));
    BlocksStay(c, step);
    NotedSides(c, step);
    forall v | v in c'.blocks && v in c'.s.writers && Acting(c', v) && c'.s.writers[v].pc.Rewriting?
      ensures c'.scribe == Some(v)
    {
      if step.W? && step.w == v {
        StepParts(c, step);
        TextComes(c.s.d, v, c.s.writers[v], step.wstep);
      }
    }
  }

  lemma DiskKeepsSidecar(c: State, step: S.Step)
    requires SideInv(c) && Can(c, Disk(step)) && Separate(c, Disk(step))
    ensures SideInv(Do(c, Disk(step)))
  {
    hide Inv, Can, Do, HashOk, S.Do, HexHash, OneScribe, Separate, SI.Grows, Written, MadeFrom, Held;
    var c' := Do(c, Disk(step));
    Composite.StepKeeps(c, Disk(step));
    DiskGrows(c, step);
    BlocksStay(c, step);
    NotedSides(c, step);
    OneScribeStays(c, step);
    forall v | v in c'.blocks ensures HashOk(c', v) { HashOkStays(c, step, v); }
    SameHex(c, c');
    if step.W? && step.w in c.blocks && step.wstep.Truncate? {
      NewScribe(c, step);
    } else if c.scribe.Some? {
      ScribeStays(c, step);
    }
  }

  lemma SameHex(c: State, c': State)
    requires HexHash(c.s.d) && SI.Grows(c.s.d, c'.s.d)
    ensures HexHash(c'.s.d)
  {
  }

  /** Steps that leave the disk and the records of the blocks alone. */
  lemma OtherStepKeepsSidecar(c: State, step: Step)
    requires SideInv(c) && Can(c, step) && !step.Disk? && !step.Loss?
    ensures SideInv(Do(c, step))
  {
    hide Inv, Can, Do, HexHash, MadeFrom, Written, L.Alive;
    var c' := Do(c, step);
    Composite.StepKeeps(c, step);
    QuietStep(c, step);
    forall v | v in c'.blocks ensures HashOk(c', v) {
      if v in c.blocks { assert HashOk(c, v); }
    }
  }

  /** The blocks there were are there, with the same processes and records. */
  ghost predicate SameBlocks(c: State, c': State)
  {
    && c'.s.d == c.s.d && c'.t == c.t && c'.hashed == c.hashed && c'.scribe == c.scribe && c'.last == c.last
    && c'.wholeOnly == c.wholeOnly && c'.shown == c.shown
    && (forall w | w in c.blocks ::
          && w in c.s.writers && w in c'.blocks && c'.blocks[w].actor == c.blocks[w].actor
          && w in c'.s.writers && c'.s.writers[w] == c.s.writers[w] && (Acting(c', w) ==> Acting(c, w)))
    && (forall w | w in c'.blocks && w !in c.blocks :: w in c'.s.writers && c'.s.writers[w].pc.Begun?)
  }

  lemma QuietLockStep(c: State, step: L.Step)
    requires Inv(c) && Can(c, Lock(step))
    ensures SameBlocks(c, Do(c, Lock(step)))
  {
    hide L.Alive, SI.Inv, L.Inv, LogOk, ViewOk, S.CanWriter, L.Do, L.Can, S.Latest, S.Show, BlocksOk, CanLock, Inv;
    BlocksKnown(c);
    LockSteps(c, step);
    forall w | w in c.blocks && Acting(Do(c, Lock(step)), w) ensures Acting(c, w) {
      NoneRevives(c.l, step, c.blocks[w].actor);
    }
  }

  lemma QuietBlockStep(c: State, step: Step)
    requires Inv(c) && Can(c, step) && (step.Enter? || step.Look? || step.LookAbsent?)
    ensures SameBlocks(c, Do(c, step))
  {
    hide L.Alive, S.CanWriter, L.Do, L.Can, S.Latest, S.Show, CanLock, Inv, S.AfterLoss, CanBlockStep;
    BlocksKnown(c);
  }

  lemma QuietStep(c: State, step: Step)
    requires Inv(c) && Can(c, step) && !step.Disk? && !step.Loss?
    ensures SameBlocks(c, Do(c, step))
  {
    hide Inv, Can, Do, SameBlocks;
    if step.Lock? { QuietLockStep(c, step.lstep); } else { QuietBlockStep(c, step); }
  }

  lemma LockSteps(c: State, step: L.Step)
    requires CanLock(c, step)
    ensures L.Can(c.l, step)
  {
  }

  lemma BlocksKnown(c: State)
    requires Inv(c)
    ensures forall w | w in c.blocks :: w in c.s.writers && c.blocks[w].actor in c.l.procs
  {
    hide SI.Inv, L.Inv, LogOk, ViewOk;
    forall w | w in c.blocks ensures w in c.s.writers && c.blocks[w].actor in c.l.procs { assert BlockOk(c, w); }
  }

  lemma NoneRevives(l: L.State, step: L.Step, a: L.Actor)
    requires L.Can(l, step) && a in l.procs && L.Alive(L.Do(l, step), a)
    ensures L.Alive(l, a)
  {
    hide L.Running;
  }

  lemma LossKeepsSidecar(c: State, step: Step)
    requires SideInv(c) && Can(c, step) && step.Loss?
    ensures SideInv(Do(c, step))
  {
    hide Inv, Can, Do, HexHash, SI.Grows;
    Composite.StepKeeps(c, step);
    LossIndexed(c, step);
    LossHistory(c, step);
    LossNotes(c, step);
    SameHex(c, Do(c, step));
  }

  lemma LossIndexed(c: State, step: Step)
    requires Inv(c) && step.Loss? && Can(c, step)
    ensures step.k < |c.shown|
  {
    hide S.AfterLoss, S.CanLosePower, S.Show, BlocksOk, ViewOk, SI.Inv, L.Inv;
    assert LogOk(c);
  }

  lemma StepKeepsSidecar(c: State, step: Step)
    requires SideInv(c) && Can(c, step) && Separate(c, step)
    ensures SideInv(Do(c, step))
  {
    hide SideInv, Can, Do, Separate;
    match step {
      case Disk(dstep) => DiskKeepsSidecar(c, dstep);
      case Loss(_, _, _, _) => LossKeepsSidecar(c, step);
      case _ => OtherStepKeepsSidecar(c, step);
    }
  }

  lemma {:induction false} RunKeepsSidecar(c: State, run: seq<Step>, c': State)
    requires SideInv(c) && Exec(c, run) == Some(c') && RunSeparate(c, run)
    ensures SideInv(c')
    decreases |run|
  {
    hide SideInv, Can, Do, Separate;
    if run != [] {
      StepKeepsSidecar(c, run[0]);
      RunKeepsSidecar(Do(c, run[0]), run[1..], c');
    }
  }

  lemma StartsClean(c: State)
    requires Init(c) && HexHash(c.s.d)
    ensures SideInv(c)
  {
    InitHolds(c);
    hide S.Init, Inv, HexHash;
  }

  // ----- what a sidecar is worth ---------------------------------------------------------------------------

  /** Step `i` of the run is the `Hash` step of writer `w` that `h` records. */
  ghost predicate HashedAt(c0: State, run: seq<Step>, i: nat, w: S.Id, h: Hashing)
  {
    && i < |run| && run[i] == Disk(S.W(w, S.Hash(h.timestamp))) && Exec(c0, run[..i]).Some?
    && var c := Exec(c0, run[..i]).value; S.Latest(c.s.d, c.t) == h.version
  }

  lemma HashedLater(c0: State, run: seq<Step>, i: nat, w: S.Id, h: Hashing)
    requires run != [] && Can(c0, run[0]) && HashedAt(Do(c0, run[0]), run[1..], i, w, h)
    ensures HashedAt(c0, run, i + 1, w, h)
  {
    hide Can, Do, S.Latest;
    assert run[..i + 1][1..] == run[1..][..i];
  }

  lemma HashedNow(c: State, step: Step, w: S.Id)
    requires Can(c, step) && w in Do(c, step).hashed
    ensures || (w in c.hashed && Do(c, step).hashed[w] == c.hashed[w])
            || (step == Disk(S.W(w, S.Hash(Do(c, step).hashed[w].timestamp)))
                && Do(c, step).hashed[w].version == S.Latest(c.s.d, c.t))
  {
    if step.Disk? {
      NotedSides(c, step.dstep);
    } else {
      hide CanLock, CanBlockStep, L.Do, S.Do, S.Can, S.AfterLoss, S.Show;
    }
  }

  /** What is on record of a hash is from the run. */
  lemma {:induction false} HashIsOfTheRun(c0: State, run: seq<Step>, c: State, w: S.Id)
    requires Exec(c0, run) == Some(c) && w in c.hashed
    ensures || (w in c0.hashed && c0.hashed[w] == c.hashed[w])
            || exists i: nat :: HashedAt(c0, run, i, w, c.hashed[w])
    decreases |run|
  {
    hide Can, Do, S.Latest;
    if run != [] {
      var c1 := Do(c0, run[0]);
      HashIsOfTheRun(c1, run[1..], c, w);
      if i: nat :| HashedAt(c1, run[1..], i, w, c.hashed[w]) {
        HashedLater(c0, run, i, w, c.hashed[w]);
      } else {
        HashedNow(c0, run[0], w);
        assert run[..0] == [];
        assert HashedAt(c0, run, 0, w, c.hashed[w]) || (w in c0.hashed && c0.hashed[w] == c.hashed[w]);
      }
    }
  }

  /**
    For any mix of locked writers whose sidecar writes do not overlap: once
    the last of them has returned, the sidecar describes the version that one
    had hashed: digest, name, its algorithm, and the time of its hash step.
   */
  lemma SidecarSpeaksForItsVersion(c0: State, run: seq<Step>, c: State)
    requires Init(c0) && HexHash(c0.s.d) && Exec(c0, run) == Some(c) && RunSeparate(c0, run)
    requires c.scribe.Some? && c.scribe.value in c.s.writers && c.s.writers[c.scribe.value].pc.Returned?
    ensures var w := c.scribe.value;
      && w in c.hashed && c.t in c.s.d.versions && c.hashed[w].version < |c.s.d.versions[c.t]|
      && c.s.d.versions[c.t][c.hashed[w].version].Present? && SidecarOf(c.s.d, c.t).Some?
      && SidecarText.Describes(SidecarOf(c.s.d, c.t).value,
                               c.s.d.hash(c.s.writers[w].algo, c.s.d.versions[c.t][c.hashed[w].version].data),
                               c.t, c.s.writers[w].algo, c.hashed[w].timestamp)
      && exists i: nat :: HashedAt(c0, run, i, w, c.hashed[w])
  {
    assert c0.hashed == map[];
    hide Inv, Init, Exec, HexHash, OneScribe, HashOk, SidecarOf, SidecarText.Describes;
    hide HashedAt;
    StartsClean(c0);
    RunKeepsSidecar(c0, run, c);
    HashIsOfTheRun(c0, run, c, c.scribe.value);
  }

  /**
    The exact condition: the sidecar agrees with the target if and only if the
    content its last writer had hashed is the content of the target now; in
    particular if it had hashed the newest version.
   */
  lemma AgreesExactly(c0: State, run: seq<Step>, c: State)
    requires Init(c0) && HexHash(c0.s.d) && Exec(c0, run) == Some(c) && RunSeparate(c0, run)
    requires c.scribe.Some? && c.scribe.value in c.s.writers && c.s.writers[c.scribe.value].pc.Returned?
    requires Injective(c.s.d, c.s.writers[c.scribe.value].algo)
    ensures var w := c.scribe.value;
      && w in c.hashed && c.t in c.s.d.versions && c.hashed[w].version < |c.s.d.versions[c.t]|
      && (Agrees(c.s.d, c.t, c.s.writers[w].algo) <==>
            ST.Content(c.s.d.versions[c.t][c.hashed[w].version]) == ST.Content(S.Show(c.s.d, c.t)))
      && (c.hashed[w].version == S.Latest(c.s.d, c.t) ==> Agrees(c.s.d, c.t, c.s.writers[w].algo))
      && ((forall k | 0 <= k < S.Latest(c.s.d, c.t) ::
             ST.Content(c.s.d.versions[c.t][k]) != ST.Content(S.Show(c.s.d, c.t)))
          ==> (Agrees(c.s.d, c.t, c.s.writers[w].algo) <==> c.hashed[w].version == S.Latest(c.s.d, c.t)))
  {
    hide Init, Exec, HexHash, SidecarOf, S.Show, Inv;
    SidecarSpeaksForItsVersion(c0, run, c);
    InitHolds(c0);
    RunKeeps(c0, run, c);
    NewestIsShown(c);
  }

  lemma NewestIsShown(c: State)
    requires Inv(c)
    ensures c.t in c.s.d.versions && c.s.d.versions[c.t] != []
    ensures S.Show(c.s.d, c.t) == c.s.d.versions[c.t][S.Latest(c.s.d, c.t)]
  {
    hide BlocksOk, ViewOk, LogOk, L.Inv, SI.Inv, S.Show;
    ST.ShownIsLatest(c.s, c.t);
  }
}
