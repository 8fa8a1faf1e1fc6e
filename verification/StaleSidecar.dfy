/**
  Why the sidecar must be written before the lock is released: two locked
  `_write_core` calls after which everything has returned normally, nobody
  holds the lock, and the sidecar speaks for the older content.
 */
module StaleSidecar {
  import opened Basics
  import Paths
  import SidecarText
  import S = Storage
  import ST = StorageTheorems
  import L = LockProtocol
  import opened Composite
  import opened SidecarAgreement
  import opened SerialCommits

  /** A run, in which no two sidecars are written at the same time. */
  ghost predicate Ran(c: State, run: seq<Step>, c': State)
  {
    Exec(c, run) == Some(c') && RunSeparate(c, run)
  }

  lemma {:induction false} RunAppend(c: State, run: seq<Step>, c1: State, step: Step)
    requires Exec(c, run) == Some(c1) && RunSeparate(c, run) && Can(c1, step) && Separate(c1, step)
    ensures Exec(c, run + [step]) == Some(Do(c1, step)) && RunSeparate(c, run + [step])
    decreases |run|
  {
    hide Do, Can, Separate;
    if run == [] {
      assert run + [step] == [step];
      assert Exec(Do(c, step), [step][1..]) == Some(Do(c, step));
    } else {
      assert (run + [step])[1..] == run[1..] + [step];
      RunAppend(Do(c, run[0]), run[1..], c1, step);
    }
  }

  lemma Then(c0: State, run: seq<Step>, c: State, step: Step) returns (run': seq<Step>, c': State)
    requires Ran(c0, run, c) && Can(c, step) && Separate(c, step)
    ensures c' == Do(c, step) && Ran(c0, run', c')
  {
    hide Do, Can, Separate;
    run', c' := run + [step], Do(c, step);
    RunAppend(c0, run, c, step);
  }

  /** A process that has not run before takes the free lock. */
  lemma TakesLock(c0: State, run0: seq<Step>, c1: State, a: L.Actor) returns (run: seq<Step>, c: State)
    requires Ran(c0, run0, c1) && c1.l.file.None?
    requires a !in c1.l.procs && forall b | b in c1.l.procs :: c1.l.procs[b].id != L.Ident(0, a)
    ensures Ran(c0, run, c) && c == c1.(l := c.l)
    ensures c.l.procs == c1.l.procs[a := L.Proc(L.Ident(0, a), true, L.Holding(c1.l.next))]
    ensures c.l.file == Some(L.LockFile(c1.l.next, a, L.Doc(L.Ident(0, a))))
  {
    hide Ran, S.Can, S.Do, S.AfterLoss, S.Latest, S.Show, CanBlockStep;
    run, c := Then(c0, run0, c1, Lock(L.Spawn(a, L.Ident(0, a))));
    run, c := Then(c0, run, c, Lock(L.Create(a)));
    run, c := Then(c0, run, c, Lock(L.WritePayload(a, false)));
  }

  lemma GivesLockBack(c0: State, run0: seq<Step>, c1: State, a: L.Actor, w: S.Id) returns (run: seq<Step>, c: State)
    requires Ran(c0, run0, c1)
    requires L.Alive(c1.l, a) && c1.l.procs[a].pc.Holding? && w in c1.s.writers && c1.s.writers[w].pc.Placed?
    requires c1.s.writers[w].goal.Some?
    requires forall v | v in c1.blocks && c1.blocks[v].actor == a :: v == w
    requires c1.l.file.Some? && c1.l.file.value.payload == L.Doc(c1.l.procs[a].id)
    ensures Ran(c0, run, c) && c == c1.(l := c.l) && c.l.file.None?
    ensures c.l.procs == c1.l.procs[a := c1.l.procs[a].(pc := L.Idle)]
  {
    hide Ran;
    run, c := Then(c0, run0, c1, Lock(L.InspectOwn(a, true)));
    run, c := Then(c0, run, c, Lock(L.Unlock(a, true)));
  }

  const TMP := Paths.TmpName("")

  function Job(data: Bytes): S.Writer
  {
    S.Writer("t", S.Strict, true, "sha256", Some(data), S.Begun)
  }

  /** A hash that tells the two contents below apart. */
  function Digest(algo: string, data: Bytes): string
  {
    if data == [1] then "a" else "b"
  }

  function TextFor(data: Bytes): Option<Bytes>
  {
    SidecarText.EncodeAscii(SidecarText.Print(Digest("sha256", data), "t", "sha256", ""))
  }

  /** What the steps below need to know of the disk. */
  ghost predicate Ready(d: S.Disk)
  {
    "t" in d.targets && TMP !in d.dir && TMP != "t" && Paths.IsTmpName(TMP)
    && Paths.ChecksumPath("t") != "t" && Paths.ChecksumPath("t") != TMP
  }

  lemma EntersBlock(c0: State, run0: seq<Step>, c1: State, a: L.Actor, w: S.Id, data: Bytes)
    returns (run: seq<Step>, c: State)
    requires Ran(c0, run0, c1) && !c1.wholeOnly && c1.t == "t" && Ready(c1.s.d)
    requires L.Alive(c1.l, a) && c1.l.procs[a].pc.Holding?
    requires w !in c1.s.writers && w !in c1.blocks && forall v | v in c1.blocks :: c1.blocks[v].actor != a
    ensures Ran(c0, run, c) && c == c1.(s := c.s, blocks := c.blocks)
    ensures c.blocks.Keys == c1.blocks.Keys + {w}
    ensures c.blocks[w].actor == a && c.blocks[w].epoch == c.l.procs[a].pc.epoch
      && c.blocks[w].view.None?
    ensures forall v | v in c1.blocks :: c.blocks[v] == c1.blocks[v]
    ensures c.s == c1.s.(writers := c1.s.writers[w := Job(data)])
  {
    hide Ran, Paths.IsTmpName, Paths.TmpName, Paths.ChecksumPath, Paths.LockPath, S.Latest;
    run, c := Then(c0, run0, c1, Enter(a, w, Job(data), before => data));
  }

  lemma FillsScratch(c0: State, run0: seq<Step>, c1: State, w: S.Id, data: Bytes, ino: S.Ino)
    returns (run: seq<Step>, c: State)
    requires Ran(c0, run0, c1) && c1.t == "t" && Ready(c1.s.d)
    requires w in c1.blocks && Held(c1, w) && ino !in c1.s.d.inodes
    requires w in c1.s.writers && c1.s.writers[w] == Job(data)
    ensures Ran(c0, run, c) && c == c1.(s := c.s)
    ensures c.s.writers == c1.s.writers[w := Job(data).(pc := S.Open(TMP, ino, data))]
    ensures c.s.d.inodes == c1.s.d.inodes[ino := S.Inode(data, false, S.Scratch(w))]
    ensures c.s.d.dir == c1.s.d.dir[TMP := ino]
    ensures c.s.d.targets == c1.s.d.targets && c.s.d.hash == c1.s.d.hash
  {
    hide Ran, Paths.IsTmpName, Paths.TmpName, Paths.ChecksumPath, Paths.LockPath, S.SidecarBytes, L.Can, L.Do,
        L.Careful;
    hide S.NextReader, S.CanReader, S.Show, S.Latest;
    assert [] + data == data;
    run, c := Then(c0, run0, c1, Disk(S.W(w, S.Create(TMP, ino))));
    run, c := Then(c0, run, c, Disk(S.W(w, S.Write(data))));
  }

  lemma Replaces(c0: State, run0: seq<Step>, c1: State, a: L.Actor, w: S.Id, data: Bytes, ino: S.Ino)
    returns (run: seq<Step>, c: State)
    requires Ran(c0, run0, c1) && c1.t == "t"
    requires TMP in c1.s.d.dir && c1.s.d.dir[TMP] == ino && ino in c1.s.d.inodes && TMP != "t"
    requires c1.s.d.inodes[ino] == S.Inode(data, false, S.Scratch(w))
    requires w in c1.blocks && c1.blocks[w].actor == a && c1.blocks[w].view.None? && Held(c1, w)
    requires w in c1.s.writers && c1.s.writers[w] == Job(data).(pc := S.Open(TMP, ino, data))
    ensures Ran(c0, run, c) && c == c1.(s := c.s, shown := c.shown, last := Some(w))
    ensures c.s.writers.Keys == c1.s.writers.Keys
    ensures forall v | v in c.s.writers && v != w :: c.s.writers[v] == c1.s.writers[v]
    ensures c.s.writers[w].pc.Placed? && c.s.writers[w] == Job(data).(pc := c.s.writers[w].pc)
    ensures c.s.d.inodes == c1.s.d.inodes[ino := S.Inode(data, true, S.Published)]
    ensures c.s.d.dir == (c1.s.d.dir - {TMP})["t" := ino]
    ensures c.s.d.targets == c1.s.d.targets && c.s.d.hash == c1.s.d.hash
  {
    hide Ran, Paths.IsTmpName, Paths.TmpName, Paths.ChecksumPath, Paths.LockPath, S.SidecarBytes, L.Can, L.Do,
        L.Careful;
    hide S.NextReader, S.CanReader, S.Show, S.Latest, S.AfterLoss;
    run, c := SyncsAndCloses(c0, run0, c1, a, w, data, ino);
    run, c := Then(c0, run, c, Disk(S.W(w, S.Place)));
  }

  lemma SyncsAndCloses(c0: State, run0: seq<Step>, c1: State, a: L.Actor, w: S.Id, data: Bytes, ino: S.Ino)
    returns (run: seq<Step>, c: State)
    requires Ran(c0, run0, c1) && ino in c1.s.d.inodes
    requires c1.s.d.inodes[ino] == S.Inode(data, false, S.Scratch(w))
    requires w in c1.blocks && c1.blocks[w].actor == a && c1.blocks[w].view.None? && Held(c1, w)
    requires w in c1.s.writers && c1.s.writers[w] == Job(data).(pc := S.Open(TMP, ino, data))
    ensures Ran(c0, run, c)
    ensures c == c1.(s := S.State(c1.s.d.(inodes := c1.s.d.inodes[ino := S.Inode(data, true, S.Scratch(w))]),
                                  c1.s.writers[w := Job(data).(pc := S.Closed(TMP, ino, data))], c1.s.readers))
  {
    hide Ran, Paths.IsTmpName, Paths.TmpName, Paths.ChecksumPath, Paths.LockPath, S.SidecarBytes, L.Can, L.Do,
        L.Careful;
    hide S.NextReader, S.CanReader, S.Show, S.Latest, S.AfterLoss;
    run, c := Then(c0, run0, c1, Disk(S.W(w, S.Sync)));
    run, c := Then(c0, run, c, Disk(S.W(w, S.Close)));
  }

  lemma PutsInPlace(c0: State, run0: seq<Step>, c1: State, a: L.Actor, w: S.Id, data: Bytes, ino: S.Ino)
    returns (run: seq<Step>, c: State)
    requires Ran(c0, run0, c1) && c1.t == "t" && Ready(c1.s.d)
    requires w in c1.blocks && c1.blocks[w].actor == a && c1.blocks[w].view.None? && Held(c1, w)
        && ino !in c1.s.d.inodes
    requires w in c1.s.writers && c1.s.writers[w] == Job(data)
    ensures Ran(c0, run, c) && c == c1.(s := c.s, shown := c.shown, last := Some(w))
    ensures c.s.writers.Keys == c1.s.writers.Keys
    ensures forall v | v in c.s.writers && v != w :: c.s.writers[v] == c1.s.writers[v]
    ensures c.s.writers[w].pc.Placed? && c.s.writers[w] == Job(data).(pc := c.s.writers[w].pc)
    ensures c.s.d.inodes == c1.s.d.inodes[ino := S.Inode(data, true, S.Published)]
    ensures c.s.d.dir == c1.s.d.dir["t" := ino]
    ensures c.s.d.targets == c1.s.d.targets && c.s.d.hash == c1.s.d.hash
  {
    hide Ran, Paths.IsTmpName, Paths.TmpName, Paths.ChecksumPath;
    run, c := FillsScratch(c0, run0, c1, w, data, ino);
    run, c := Replaces(c0, run, c, a, w, data, ino);
  }

  /** The target is hashed once the directory is synced, after the lock is gone. */
  lemma HashesTarget(c0: State, run0: seq<Step>, c1: State, w: S.Id, timestamp: string)
    returns (run: seq<Step>, c: State)
    requires Ran(c0, run0, c1) && c1.t == "t"
    requires w in c1.blocks && L.Alive(c1.l, c1.blocks[w].actor) && c1.l.procs[c1.blocks[w].actor].pc.Idle?
    requires w in c1.s.writers && c1.s.writers[w].pc.Placed? && c1.s.writers[w].sidecar && c1.s.writers[w].target == "t"
    requires c1.s.writers[w].goal.Some?
    requires S.Show(c1.s.d, "t").Present?
    ensures Ran(c0, run, c) && c == c1.(s := c.s, hashed := c.hashed)
    ensures w in c.s.writers && c.s.writers == c1.s.writers[w := c1.s.writers[w].(pc := c.s.writers[w].pc)]
    ensures c.s.writers[w].pc.Hashed?
    ensures c.s.writers[w].pc.text == S.SidecarBytes(c1.s.d, c1.s.writers[w], timestamp)
    ensures c.s.d.inodes == c1.s.d.inodes && c.s.d.dir == c1.s.d.dir
    ensures c.s.d.targets == c1.s.d.targets && c.s.d.hash == c1.s.d.hash
  {
    hide Ran, Paths.ChecksumPath, Paths.LockPath, L.Can, L.Do, L.Careful, S.NextReader, S.CanReader, S.Latest;
    hide SidecarText.Print, SidecarText.EncodeAscii;
    run, c := Then(c0, run0, c1, Disk(S.W(w, S.SyncDir(true))));
    run, c := Then(c0, run, c, Disk(S.W(w, S.Hash(timestamp))));
  }

  lemma OpensSidecar(c0: State, run0: seq<Step>, c1: State, w: S.Id, ino: S.Ino)
    returns (run: seq<Step>, c: State)
    requires Ran(c0, run0, c1) && c1.t == "t" && Ready(c1.s.d)
    requires w in c1.blocks && L.Alive(c1.l, c1.blocks[w].actor) && c1.l.procs[c1.blocks[w].actor].pc.Idle?
    requires w in c1.s.writers && c1.s.writers[w].pc.Hashed? && c1.s.writers[w].target == "t"
        && c1.s.writers[w].goal.Some?
    requires forall v | v in c1.blocks && v != w && v in c1.s.writers :: !c1.s.writers[v].pc.Rewriting?
    requires var side := Paths.ChecksumPath("t");
      if side in c1.s.d.dir then ino == c1.s.d.dir[side] && ino in c1.s.d.inodes else ino !in c1.s.d.inodes
    ensures Ran(c0, run, c) && c == c1.(s := c.s, scribe := Some(w))
    ensures var x := c1.s.writers[w];
      c.s.writers == c1.s.writers[w := x.(pc := S.Rewriting(x.pc.version, x.pc.content, x.pc.text, ino, 0))]
    ensures c.s.d.inodes.Keys == c1.s.d.inodes.Keys + {ino} && c.s.d.inodes[ino].data == []
    ensures forall i | i in c1.s.d.inodes && i != ino :: c.s.d.inodes[i] == c1.s.d.inodes[i]
    ensures c.s.d.dir == c1.s.d.dir[Paths.ChecksumPath("t") := ino]
    ensures c.s.d.targets == c1.s.d.targets && c.s.d.hash == c1.s.d.hash
  {
    hide Ran, Paths.ChecksumPath, Paths.LockPath, L.Can, L.Do, L.Careful, S.NextReader, S.CanReader, S.Latest, S.Show;
    run, c := Then(c0, run0, c1, Disk(S.W(w, S.Truncate(ino))));
  }

  lemma OverwriteAll(text: Bytes)
    ensures Overwrite([], 0, Slice(text, 0, |text|)) == text && |Slice(text, 0, |text|)| == |text|
  {
  }

  lemma WritesSidecar(c0: State, run0: seq<Step>, c1: State, w: S.Id) returns (run: seq<Step>, c: State)
    requires Ran(c0, run0, c1) && c1.t == "t"
    requires w in c1.blocks && L.Alive(c1.l, c1.blocks[w].actor) && c1.l.procs[c1.blocks[w].actor].pc.Idle?
    requires w in c1.s.writers && c1.s.writers[w].pc.Rewriting?
    requires c1.s.writers[w].target == "t" && c1.s.writers[w].goal.Some?
    requires var pc := c1.s.writers[w].pc;
      pc.text.Some? && pc.offset == 0 && pc.side in c1.s.d.inodes && c1.s.d.inodes[pc.side].data == []
    ensures Ran(c0, run, c) && c == c1.(s := c.s)
    ensures w in c.s.writers && c.s.writers == c1.s.writers[w := c1.s.writers[w].(pc := c.s.writers[w].pc)]
    ensures c.s.writers[w].pc.Returned?
    ensures var pc := c1.s.writers[w].pc;
      c.s.d.inodes == c1.s.d.inodes[pc.side := c1.s.d.inodes[pc.side].(data := pc.text.value, durable := false)]
    ensures c.s.d.dir == c1.s.d.dir && c.s.d.targets == c1.s.d.targets && c.s.d.hash == c1.s.d.hash
  {
    hide Ran, Paths.ChecksumPath, Paths.LockPath, L.Can, L.Do, L.Careful, S.NextReader, S.CanReader, S.Latest, S.Show,
         Overwrite, Slice;
    var text := c1.s.writers[w].pc.text.value;
    OverwriteAll(text);
    run, c := Then(c0, run0, c1, Disk(S.W(w, S.WriteSide(|text|))));
    run, c := Then(c0, run, c, Disk(S.W(w, S.Return)));
  }

  /** One locked call, up to its first step on the disk. */
  lemma BeginsUnderLock(c0: State, run0: seq<Step>, c1: State, a: L.Actor, w: S.Id, data: Bytes)
    returns (run: seq<Step>, c: State)
    requires Ran(c0, run0, c1) && !c1.wholeOnly && c1.t == "t" && Ready(c1.s.d)
    requires c1.l.file.None? && a !in c1.l.procs && forall b | b in c1.l.procs :: c1.l.procs[b].id != L.Ident(0, a)
    requires w !in c1.s.writers && w !in c1.blocks && forall v | v in c1.blocks :: c1.blocks[v].actor != a
    ensures Ran(c0, run, c) && c == c1.(s := c.s, l := c.l, blocks := c.blocks)
    ensures c.l.procs == c1.l.procs[a := L.Proc(L.Ident(0, a), true, L.Holding(c1.l.next))]
    ensures c.l.file == Some(L.LockFile(c1.l.next, a, L.Doc(L.Ident(0, a))))
    ensures c.blocks.Keys == c1.blocks.Keys + {w}
    ensures c.blocks[w].actor == a && c.blocks[w].epoch == c1.l.next && c.blocks[w].view.None?
    ensures forall v | v in c1.blocks :: c.blocks[v] == c1.blocks[v]
    ensures c.s == c1.s.(writers := c1.s.writers[w := Job(data)])
  {
    hide Ran, Paths.IsTmpName, Paths.TmpName, Paths.ChecksumPath, Can, Do, S.Latest, S.Show;
    run, c := TakesLock(c0, run0, c1, a);
    run, c := EntersBlock(c0, run, c, a, w, data);
  }

  /** One locked call, up to the release of the lock. */
  lemma PlacesUnderLock(c0: State, run0: seq<Step>, c1: State, a: L.Actor, w: S.Id, data: Bytes, ino: S.Ino)
    returns (run: seq<Step>, c: State)
    requires Ran(c0, run0, c1) && !c1.wholeOnly && c1.t == "t" && Ready(c1.s.d)
    requires c1.l.file.None? && a !in c1.l.procs && forall b | b in c1.l.procs :: c1.l.procs[b].id != L.Ident(0, a)
    requires w !in c1.s.writers && w !in c1.blocks && ino !in c1.s.d.inodes
    requires forall v | v in c1.blocks :: c1.blocks[v].actor != a
    ensures Ran(c0, run, c) && !c.wholeOnly && c.t == "t" && c.l.file.None? && c.last == Some(w)
    ensures c.l.procs == c1.l.procs[a := L.Proc(L.Ident(0, a), true, L.Idle)]
    ensures c.blocks.Keys == c1.blocks.Keys + {w} && c.blocks[w].actor == a
    ensures forall v | v in c1.blocks :: c.blocks[v] == c1.blocks[v]
    ensures c.s.writers.Keys == c1.s.writers.Keys + {w}
    ensures forall v | v in c1.s.writers :: c.s.writers[v] == c1.s.writers[v]
    ensures c.s.writers[w].pc.Placed? && c.s.writers[w] == Job(data).(pc := c.s.writers[w].pc)
    ensures c.s.d.inodes == c1.s.d.inodes[ino := S.Inode(data, true, S.Published)]
    ensures c.s.d.dir == c1.s.d.dir["t" := ino]
    ensures c.s.d.targets == c1.s.d.targets && c.s.d.hash == c1.s.d.hash
  {
    hide Ran, Paths.IsTmpName, Paths.TmpName, Paths.ChecksumPath, Can, Do, S.Latest, S.Show;
    run, c := BeginsUnderLock(c0, run0, c1, a, w, data);
    run, c := PutsInPlace(c0, run, c, a, w, data, ino);
    run, c := GivesLockBack(c0, run, c, a, w);
  }

  /** One locked call, up to the moment it knows what its sidecar will say. */
  lemma WritesUpToHash(c0: State, run0: seq<Step>, c1: State, a: L.Actor, w: S.Id, data: Bytes, ino: S.Ino)
    returns (run: seq<Step>, c: State)
    requires Ran(c0, run0, c1) && !c1.wholeOnly && c1.t == "t" && Ready(c1.s.d) && c1.s.d.hash == Digest
    requires c1.l.file.None? && a !in c1.l.procs && forall b | b in c1.l.procs :: c1.l.procs[b].id != L.Ident(0, a)
    requires w !in c1.s.writers && w !in c1.blocks && ino !in c1.s.d.inodes
    requires forall v | v in c1.blocks :: c1.blocks[v].actor != a
    ensures Ran(c0, run, c) && !c.wholeOnly && c.t == "t" && Ready(c.s.d) && c.l.file.None? && c.last == Some(w)
    ensures c.l.procs == c1.l.procs[a := L.Proc(L.Ident(0, a), true, L.Idle)]
    ensures c.blocks.Keys == c1.blocks.Keys + {w} && c.blocks[w].actor == a
    ensures forall v | v in c1.blocks :: c.blocks[v] == c1.blocks[v]
    ensures c.s.writers.Keys == c1.s.writers.Keys + {w}
    ensures forall v | v in c1.s.writers :: c.s.writers[v] == c1.s.writers[v]
    ensures c.s.writers[w] == Job(data).(pc := c.s.writers[w].pc) && c.s.writers[w].pc.Hashed?
    ensures c.s.writers[w].pc.text == TextFor(data)
    ensures c.s.d.inodes == c1.s.d.inodes[ino := S.Inode(data, true, S.Published)]
    ensures c.s.d.dir == c1.s.d.dir["t" := ino]
    ensures c.s.d.targets == c1.s.d.targets && c.s.d.hash == c1.s.d.hash
  {
    hide Ran, Paths.IsTmpName, Paths.TmpName, Paths.ChecksumPath, SidecarText.Print, SidecarText.EncodeAscii, Digest,
        Held;
    run, c := PlacesUnderLock(c0, run0, c1, a, w, data, ino);
    run, c := HashesTarget(c0, run, c, w, "");
  }

  lemma WritesToTheEnd(c0: State, run0: seq<Step>, c1: State, w: S.Id, ino: S.Ino)
    returns (run: seq<Step>, c: State)
    requires Ran(c0, run0, c1) && c1.t == "t" && Ready(c1.s.d)
    requires w in c1.blocks && L.Alive(c1.l, c1.blocks[w].actor) && c1.l.procs[c1.blocks[w].actor].pc.Idle?
    requires w in c1.s.writers && c1.s.writers[w].pc.Hashed? && c1.s.writers[w].target == "t"
        && c1.s.writers[w].goal.Some?
    requires c1.s.writers[w].pc.text.Some?
    requires forall v | v in c1.blocks && v != w && v in c1.s.writers :: !c1.s.writers[v].pc.Rewriting?
    requires var side := Paths.ChecksumPath("t");
      if side in c1.s.d.dir then ino == c1.s.d.dir[side] && ino in c1.s.d.inodes else ino !in c1.s.d.inodes
    ensures Ran(c0, run, c) && c == c1.(s := c.s, scribe := Some(w))
    ensures c.s.writers.Keys == c1.s.writers.Keys && c.s.writers[w].pc.Returned?
    ensures c.s.writers[w] == c1.s.writers[w].(pc := c.s.writers[w].pc)
    ensures forall v | v in c1.s.writers && v != w :: c.s.writers[v] == c1.s.writers[v]
    ensures c.s.d.inodes.Keys == c1.s.d.inodes.Keys + {ino} && c.s.d.inodes[ino].data == c1.s.writers[w].pc.text.value
    ensures !c.s.d.inodes[ino].durable
    ensures forall i | i in c1.s.d.inodes && i != ino :: c.s.d.inodes[i] == c1.s.d.inodes[i]
    ensures c.s.d.dir == c1.s.d.dir[Paths.ChecksumPath("t") := ino] && Ready(c.s.d)
    ensures c.s.d.targets == c1.s.d.targets && c.s.d.hash == c1.s.d.hash
  {
    hide Ran, Paths.ChecksumPath;
    run, c := OpensSidecar(c0, run0, c1, w, ino);
    run, c := WritesSidecar(c0, run, c, w);
  }

  ghost predicate Fresh(c: State)
  {
    && Init(c) && !c.wholeOnly && c.t == "t" && Ready(c.s.d) && c.s.d.hash == Digest
    && c.s.d.inodes == map[] && c.s.d.dir == map[]
  }

  lemma EmptyDirectory() returns (c: State)
    ensures Fresh(c) && HexHash(c.s.d)
  {
    hide Paths.LockPath, Paths.ChecksumPath, Paths.IsTmpName, Paths.TmpName;
    ST.OneGoodTarget(TMP);
    Paths.DerivedNames("t", "t");
    Paths.TmpNamesExactly(TMP);
    var d := S.Disk(Digest, {"t"}, map[], map[], map[], map["t" := [S.Absent]], map["t" := 0], map["t" := 0]);
    c := State(false, "t", None, S.State(d, map[], map[]), L.START, map[], [[]], 0, None, map[], None);
    assert SidecarText.IsDigest("a") && SidecarText.IsDigest("b");
  }

  lemma TextSays(data: Bytes)
    ensures TextFor(data).Some?
    ensures SidecarText.Describes(TextFor(data).value, Digest("sha256", data), "t", "sha256", "")
  {
    var digest := Digest("sha256", data);
    hide SidecarText.Print, SidecarText.EncodeAscii, SidecarText.Describes;
    assert SidecarText.IsDigest(digest);
    SidecarText.PrintableExactly(digest, "t", "sha256", "");
    SidecarText.PrintDescribes(digest, "t", "sha256", "");
  }

  ghost predicate HasHashed(c: State, w: S.Id, data: Bytes)
  {
    && w in c.blocks && c.blocks[w].actor == w
    && w in c.s.writers && c.s.writers[w].pc.Hashed? && c.s.writers[w].pc.text == TextFor(data)
    && c.s.writers[w] == Job(data).(pc := c.s.writers[w].pc)
  }

  /** Both calls have replaced the target, released the lock and hashed what they found; neither sidecar is written. */
  ghost predicate BothHashed(c: State)
  {
    && !c.wholeOnly && c.t == "t" && Ready(c.s.d) && c.s.d.hash == Digest && c.l.file.None?
    && c.blocks.Keys == {1, 2} && c.s.writers.Keys == {1, 2}
    && HasHashed(c, 1, [1]) && HasHashed(c, 2, [2]) && c.last == Some(2)
    && c.l.procs == map[1 := L.Proc(L.Ident(0, 1), true, L.Idle), 2 := L.Proc(L.Ident(0, 2), true, L.Idle)]
    && c.s.d.dir == map["t" := 1] && c.s.d.inodes.Keys == {0, 1} && c.s.d.inodes[1].data == [2]
  }

  lemma FirstCallHashes(c0: State) returns (run: seq<Step>, c: State)
    requires Fresh(c0)
    ensures Ran(c0, run, c) && HasHashed(c, 1, [1])
    ensures !c.wholeOnly && c.t == "t" && Ready(c.s.d) && c.s.d.hash == Digest && c.l.file.None?
    ensures c.blocks.Keys == {1} && c.s.writers.Keys == {1}
    ensures c.l.procs == map[1 := L.Proc(L.Ident(0, 1), true, L.Idle)]
    ensures c.s.d.dir == map["t" := 0] && c.s.d.inodes.Keys == {0}
  {
    hide Ran, Init, Paths.ChecksumPath, Paths.LockPath, Paths.IsTmpName, Paths.TmpName, TextFor, Ready, Digest;
    run, c := [], c0;
    assert Ran(c0, run, c) by { Nothing(c0); }
    assert c.l == L.START && c.blocks == map[] && c.s.writers == map[] by { Begins(c0); }
    run, c := WritesUpToHash(c0, run, c, 1, 1, [1], 0);
  }

  lemma BothCallsHash(c0: State) returns (run: seq<Step>, c: State)
    requires Fresh(c0)
    ensures Ran(c0, run, c) && BothHashed(c)
  {
    hide Ran, Fresh, Paths.ChecksumPath, Paths.LockPath, Paths.IsTmpName, Paths.TmpName, TextFor, Ready, Digest;
    run, c := FirstCallHashes(c0);
    run, c := WritesUpToHash(c0, run, c, 2, 2, [2], 1);
  }

  lemma SidecarIsNoTarget(d: S.Disk)
    requires Ready(d)
    ensures Paths.ChecksumPath("t") != "t"
  {
  }

  /** The second call writes its sidecar first. */
  lemma BothCallsReturn(c0: State, run0: seq<Step>, c1: State) returns (run: seq<Step>, c: State)
    requires Ran(c0, run0, c1) && BothHashed(c1)
    ensures Ran(c0, run, c) && c == c1.(s := c.s, scribe := Some(1)) && c.s.writers.Keys == {1, 2}
    ensures c.s.writers[1].pc.Returned? && c.s.writers[2].pc.Returned?
    ensures c.s.writers[2] == Job([2]).(pc := c.s.writers[2].pc)
    ensures c.s.d.hash == Digest && c.s.d.dir == map["t" := 1, Paths.ChecksumPath("t") := 2]
    ensures {1, 2} <= c.s.d.inodes.Keys && c.s.d.inodes[1].data == [2]
    ensures TextFor([1]).Some? && c.s.d.inodes[2].data == TextFor([1]).value
  {
    hide Ran, Paths.ChecksumPath, Paths.LockPath, Paths.IsTmpName, Paths.TmpName, TextFor, Digest, Ready, Can, Do;
    hide SidecarText.Describes;
    TextSays([1]);
    TextSays([2]);
    SidecarIsNoTarget(c1.s.d);
    run, c := WritesToTheEnd(c0, run0, c1, 2, 2);
    run, c := WritesToTheEnd(c0, run, c, 1, 2);
  }

  /**
    Both calls have returned, nobody is inside the lock, every rule of the
    lock was kept, and yet the sidecar holds the digest of the older content.
    The sidecars were not even written at the same time; the second call
    committed while the first was between its replace and its return.
   */
  lemma ReleasingEarlyLeavesAStaleSidecar() returns (c0: State, run: seq<Step>, c: State)
    ensures Init(c0) && !c0.wholeOnly && HexHash(c0.s.d)
    ensures Exec(c0, run) == Some(c) && RunSeparate(c0, run) && !RunSerial(c0, run)
    ensures c.blocks.Keys == {1, 2} && c.s.writers.Keys == {1, 2}
    ensures forall w | w in c.s.writers :: c.s.writers[w].pc.Returned?
    ensures c.l.file.None? && forall a :: !L.Inside(c.l, a)
    ensures c.t == "t" && ST.Content(S.Show(c.s.d, "t")) == Some([2])
    ensures SidecarOf(c.s.d, "t").Some?
    ensures SidecarText.Describes(SidecarOf(c.s.d, "t").value, c.s.d.hash("sha256", [1]), "t", "sha256", "")
    ensures !Agrees(c.s.d, "t", "sha256")
  {
    hide Ran, Init, HexHash, Paths.ChecksumPath, Paths.LockPath, Paths.IsTmpName, Paths.TmpName, TextFor;
    c0 := EmptyDirectory();
    run, c := BothCallsHash(c0);
    run, c := BothCallsReturn(c0, run, c);
    SidecarIsElsewhere();
    hide SidecarText.Describes, Agrees, Digest, SidecarOf, S.Show;
    OlderDigest(c.s.d);
    NotSerial(c0, run, c);
  }

  lemma SidecarIsElsewhere()
    ensures Paths.ChecksumPath("t") != "t"
  {
    Paths.DerivedNames("t", "t");
  }

  /** The sidecar was made for the content `[1]`, and the target holds `[2]`. */
  lemma OlderDigest(d: S.Disk)
    requires d.hash == Digest && Paths.ChecksumPath("t") != "t"
    requires d.dir == map["t" := 1, Paths.ChecksumPath("t") := 2]
    requires {1, 2} <= d.inodes.Keys && d.inodes[1].data == [2]
    requires TextFor([1]).Some? && d.inodes[2].data == TextFor([1]).value
    ensures S.Show(d, "t") == S.Present(1, [2]) && SidecarOf(d, "t").Some? && !Agrees(d, "t", "sha256")
    ensures SidecarText.Describes(SidecarOf(d, "t").value, d.hash("sha256", [1]), "t", "sha256", "")
  {
    hide Paths.ChecksumPath, TextFor;
    TextSays([1]);
    assert Digest("sha256", [1]) != Digest("sha256", [2]);
    hide SidecarText.Describes, Agrees, Digest;
    AgreesBy(d, "t", "sha256", Digest("sha256", [1]), "");
  }

  /** Commits one after the other would have left an agreeing sidecar. */
  lemma NotSerial(c0: State, run: seq<Step>, c: State)
    requires Init(c0) && HexHash(c0.s.d) && Ran(c0, run, c) && !Agrees(c.s.d, c.t, "sha256")
    requires c.last == Some(2) && 2 in c.s.writers && c.s.writers[2].pc.Returned?
    requires c.s.writers[2].sidecar && c.s.writers[2].algo == "sha256"
    ensures Exec(c0, run) == Some(c) && RunSeparate(c0, run) && !RunSerial(c0, run)
  {
    hide Init, HexHash, Agrees, Exec;
    if RunSerial(c0, run) { SidecarSpeaksForTarget(c0, run, c); }
  }

  lemma Nothing(c: State)
    ensures Ran(c, [], c)
  {
  }

  lemma Begins(c: State)
    requires Init(c)
    ensures c.l == L.START && c.blocks == map[] && c.s.writers == map[]
  {
  }
}
