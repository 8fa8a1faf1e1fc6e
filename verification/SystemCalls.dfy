/**
  The system calls the writing code makes, as one process sees them: anything
  may happen before a call, and the call may fail (src/safeatomic/_io_core.py:171-261).
 */
module SystemCalls {
  import opened Basics
  import Paths
  import SidecarText
  import S = Storage
  import SI = StorageInvariant
  import ST = StorageTheorems
  import L = LockProtocol
  import opened Composite
  import opened Machine
  import SA = SidecarAgreement

  /** What can go wrong up to the replace, and what with the sidecar after it. */
  const TRYING: set<Failure> := {TmpOpen, TmpWrite, TmpFsync, TmpClose, DeviceStat, TargetRename}
  const REWRITING: set<Failure> := {TargetHash, SideOpen, SideEncode, SideWrite}

  /** `os.open` with O_CREAT|O_EXCL; the kernel picks the inode. */
  method OpenTmp(p: Process, w: S.Id, tmp: S.Name) returns (fd: Option<S.Ino>)
    requires p.Valid() && Turn(p.me, p.c, w) && p.Pc(w).Begun?
    requires tmp in p.me.names && tmp !in p.c.s.d.dir
    modifies p
    ensures p.Stepped(w, {tmp}) && Turn(p.me, p.c, w) && Replacements(p.mine) == old(Replacements(p.mine))
    ensures fd.Some? ==> p.Pc(w) == S.Open(tmp, fd.value, [])
    ensures fd.Some? ==> p.open == old(p.open) + {fd.value} && fd.value !in old(p.open)
    ensures fd.None? ==> p.Pc(w).Begun? && tmp !in p.c.s.d.dir && p.open == old(p.open)
    ensures p.failures == old(p.failures) + if fd.Some? then [] else [TmpOpen]
  {
    hide Inv, Keeps, Adds, OwnOf, Reaches, Replacements;
    p.Wait(w);
    label waited:
    var failed: bool := *;
    var ino: S.Ino := *;
    if failed || ino in p.c.s.d.inodes || ino in p.open {
      Widen(p.me, old(p.c), old(p.run), p.c, p.run, w, {}, {tmp});
      p.Fail(TmpOpen);
      return None;
    }
    p.Go(w, S.Create(tmp, ino));
    KeepsTwice(p.me, old(p.c), old(p.run), old@waited(p.c), old@waited(p.run), p.c, p.run, {w}, {tmp}, {w}, {}, {w},
        {tmp});
    p.open := p.open + {ino};
    fd := Some(ino);
  }

  lemma Widen(me: Self, c: State, run: seq<Step>, c': State, run': seq<Step>, w: S.Id, made: set<S.Name>,
      made': set<S.Name>)
    requires Keeps(me, c, c', {w}, made) && Adds(me, run, run', {w}, made) && made <= made'
    ensures Keeps(me, c, c', {w}, made') && Adds(me, run, run', {w}, made')
  {
    hide Gone, Foreign, KeepsNotes;
  }

  /** `os.write`: some of the bytes, or an error. */
  method Write(p: Process, w: S.Id, chunk: Bytes) returns (n: Option<nat>)
    requires p.Valid() && Turn(p.me, p.c, w) && p.Pc(w).Open? && chunk != []
    requires p.c.s.writers[w].goal.Some? ==> p.Pc(w).accepted + chunk <= p.c.s.writers[w].goal.value
    modifies p
    ensures p.Stepped(w, {}) && Turn(p.me, p.c, w) && p.open == old(p.open)
    ensures Replacements(p.mine) == old(Replacements(p.mine))
    ensures n.None? ==> p.Pc(w) == old(p.Pc(w))
    ensures n.Some? ==>
      && 0 < n.value <= |chunk|
      && p.Pc(w) == S.Open(old(p.Pc(w)).tmp, old(p.Pc(w)).ino, old(p.Pc(w)).accepted + chunk[..n.value])
    ensures p.failures == old(p.failures) + if n.Some? then [] else [TmpWrite]
  {
    hide Inv, Keeps, Adds, OwnOf, Reaches, Replacements;
    p.Wait(w);
    label waited:
    var taken: nat := *;
    if !(0 < taken <= |chunk|) {
      p.Fail(TmpWrite);
      return None;
    }
    OwnFiles(p.c, w);
    p.Go(w, S.Write(chunk[..taken]));
    KeepsTwice(p.me, old(p.c), old(p.run), old@waited(p.c), old@waited(p.run), p.c, p.run, {w}, {}, {w}, {}, {w}, {});
    n := Some(taken);
  }

  /** `_write_bytes_to_fd`: partial writes are continued until all bytes are accepted or a call fails. */
  method WriteBytesToFd(p: Process, w: S.Id, data: Bytes) returns (ok: bool, written: nat)
    requires p.Valid() && Turn(p.me, p.c, w) && p.Pc(w).Open?
    requires p.c.s.writers[w].goal.Some? ==> p.Pc(w).accepted + data <= p.c.s.writers[w].goal.value
    modifies p
    ensures p.Stepped(w, {}) && Turn(p.me, p.c, w) && p.open == old(p.open)
    ensures Replacements(p.mine) == old(Replacements(p.mine))
    ensures written <= |data| && (ok <==> written == |data|)
    ensures p.Pc(w) == S.Open(old(p.Pc(w)).tmp, old(p.Pc(w)).ino, old(p.Pc(w)).accepted + data[..written])
    ensures p.failures == old(p.failures) + if ok then [] else [TmpWrite]
  {
    hide Inv, Keeps, Adds, OwnOf, Reaches, Replacements;
    written := 0;
    StartStep(p.me, p.c, p.run, w);
    while written < |data|
      invariant written <= |data|
      invariant p.Stepped(w, {}) && Turn(p.me, p.c, w) && p.open == old(p.open)
      invariant Replacements(p.mine) == old(Replacements(p.mine)) && p.failures == old(p.failures)
      invariant p.Pc(w) == S.Open(old(p.Pc(w)).tmp, old(p.Pc(w)).ino, old(p.Pc(w)).accepted + data[..written])
      decreases |data| - written
    {
      label before:
      assert data == data[..written] + data[written..];
      SameRecord(p.me, old(p.c), p.c, w);
      var n := Write(p, w, data[written..]);
      KeepsTwice(p.me, old(p.c), old(p.run), old@before(p.c), old@before(p.run), p.c, p.run, {w}, {}, {w}, {}, {w}, {});
      if n.None? {
        return false, written;
      }
      assert data[..written] + data[written..][..n.value] == data[..written + n.value];
      written := written + n.value;
    }
    ok := true;
  }

  lemma StartStep(me: Self, c: State, run: seq<Step>, w: S.Id)
    requires L.Alive(c.l, me.a)
    ensures Keeps(me, c, c, {w}, {}) && Adds(me, run, run, {w}, {})
  {
    hide Gone;
  }

  /** Moving a writer leaves all but its program counter. */
  lemma SameRecord(me: Self, c: State, c': State, w: S.Id)
    requires Turn(me, c, w) && Keeps(me, c, c', {w}, {})
    ensures w in c'.s.writers && c'.s.writers[w] == c.s.writers[w].(pc := c'.s.writers[w].pc)
    ensures c'.t == c.t && c'.wholeOnly == c.wholeOnly && (w in c'.blocks <==> w in c.blocks)
    ensures w in c.blocks ==> c'.blocks[w] == c.blocks[w]
  {
  }

  /** `os.fsync` of the temporary file; the last one before the replace ends the writing. */
  method Fsync(p: Process, w: S.Id, final: bool) returns (ok: bool)
    requires p.Valid() && Turn(p.me, p.c, w) && p.Pc(w).Open?
    requires final ==> S.GoalMet(p.c.s.writers[w], p.Pc(w).accepted)
    modifies p
    ensures p.Stepped(w, {}) && Turn(p.me, p.c, w) && p.open == old(p.open)
    ensures Replacements(p.mine) == old(Replacements(p.mine))
    ensures p.Pc(w) == var pc := old(p.Pc(w)); if ok && final then S.Synced(pc.tmp, pc.ino, pc.accepted) else pc
    ensures ok ==> var ino := old(p.Pc(w)).ino; ino in p.c.s.d.inodes && p.c.s.d.inodes[ino].durable
    ensures p.failures == old(p.failures) + if ok then [] else [TmpFsync]
  {
    hide Inv, Keeps, Adds, OwnOf, Reaches, Replacements;
    p.Wait(w);
    label waited:
    ok := *;
    if ok {
      OwnFiles(p.c, w);
      p.Go(w, if final then S.Sync else S.Flush);
      KeepsTwice(p.me, old(p.c), old(p.run), old@waited(p.c), old@waited(p.run), p.c, p.run, {w}, {}, {w}, {}, {w}, {});
    } else {
      p.Fail(TmpFsync);
    }
  }

  method Close(p: Process, w: S.Id) returns (ok: bool)
    requires p.Valid() && Turn(p.me, p.c, w) && p.Pc(w).Synced?
    modifies p
    ensures p.Stepped(w, {}) && Turn(p.me, p.c, w) && p.open == old(p.open) - {old(p.Pc(w)).ino}
    ensures Replacements(p.mine) == old(Replacements(p.mine))
    ensures p.Pc(w) == var pc := old(p.Pc(w)); if ok then S.Closed(pc.tmp, pc.ino, pc.accepted) else pc
    ensures p.failures == old(p.failures) + if ok then [] else [TmpClose]
  {
    hide Inv, Keeps, Adds, OwnOf, Reaches, Replacements;
    p.Wait(w);
    label waited:
    p.open := p.open - {p.Pc(w).ino};
    ok := *;
    if ok {
      p.Go(w, S.Close);
      KeepsTwice(p.me, old(p.c), old(p.run), old@waited(p.c), old@waited(p.run), p.c, p.run, {w}, {}, {w}, {}, {w}, {});
    } else {
      p.Fail(TmpClose);
    }
  }

  /** `Path.replace`: the point from which the content is visible. */
  method Replace(p: Process, w: S.Id) returns (ok: bool)
    requires p.Valid() && Turn(p.me, p.c, w) && p.Pc(w).Closed?
    modifies p
    ensures p.Stepped(w, {}) && p.open == old(p.open) && w in p.c.s.writers
    ensures !ok ==> Turn(p.me, p.c, w) && p.Pc(w) == old(p.Pc(w)) && Replacements(p.mine) == old(Replacements(p.mine))
    ensures ok ==> Replacements(p.mine) == old(Replacements(p.mine)) + 1
    ensures ok ==>
      && old(p.Pc(w)).tmp !in p.c.s.d.dir
      && p.Pc(w).Placed? && p.Pc(w).content == old(p.Pc(w)).accepted
      && Shows(p.c.s.d, p.c.s.writers[w].target, p.Pc(w).version, p.Pc(w).content)
      && S.Latest(p.c.s.d, p.c.s.writers[w].target) == p.Pc(w).version
      && old(S.Latest(p.c.s.d, p.c.s.writers[w].target)) < p.Pc(w).version
      && (w in p.c.blocks ==> p.c.last == Some(w))
    ensures p.failures == old(p.failures) + if ok then [] else [TargetRename]
  {
    hide Inv, Keeps, Adds, OwnOf, Reaches, Replacements, Shows, Paths.IsTmpName;
    p.Wait(w);
    label waited:
    ok := *;
    if ok {
      OwnFiles(p.c, w);
      PlaceIsPlain(p.c, w);
      p.Move(w, S.Place);
      KeepsTwice(p.me, old(p.c), old(p.run), old@waited(p.c), old@waited(p.run), p.c, p.run, {w}, {}, {w}, {}, {w}, {});
      OneMore(old@waited(p.mine), Disk(S.W(w, S.Place)));
      KeptRecord(p.me, old(p.c), p.c, w);
      OwnVersion(p.c, w);
      LatestGrows(p.me, old(p.c), old@waited(p.c), w, {});
    } else {
      p.Fail(TargetRename);
    }
  }

  lemma KeptRecord(me: Self, c: State, c': State, w: S.Id)
    requires w in me.ids && w in c.s.writers && Keeps(me, c, c', {w}, {})
    ensures w in c'.s.writers && c'.s.writers[w] == c.s.writers[w].(pc := c'.s.writers[w].pc)
  {
  }

  lemma LatestGrows(me: Self, c: State, c': State, w: S.Id, made: set<S.Name>)
    requires Keeps(me, c, c', {w}, made) && w in me.ids && w in c.s.writers
    ensures S.Latest(c.s.d, c.s.writers[w].target) <= S.Latest(c'.s.d, c.s.writers[w].target)
  {
    hide Gone, KeepsNotes;
  }

  lemma PlaceIsPlain(c: State, w: S.Id)
    requires Inv(c) && w in c.s.writers && c.s.writers[w].pc.Closed?
    ensures var x := c.s.writers[w];
      && x.pc.tmp != x.target && x.target in c.s.d.versions
      && c.s.d.versions[x.target] != []
  {
    hide Inv, Paths.IsTmpName;
    WriterHolds(c, w);
    WriterTarget(c, w);
    SI.TargetIsNoTmp(c.s.d, c.s.writers[w].target);
    HasVersions(c, c.s.writers[w].target);
  }

  lemma HasVersions(c: State, t: S.Name)
    requires Inv(c) && t in c.s.d.targets
    ensures t in c.s.d.versions && c.s.d.versions[t] != []
  {
    hide BlocksOk, ViewOk, LogOk, L.Inv, SI.Inv, S.Show;
    ST.ShownIsLatest(c.s, t);
  }

  // ----- the cleanup handler ---------------------------------------------------------------------------

  /** An exception on its way to the handler. */
  method Raise(p: Process, w: S.Id)
    requires p.Valid() && Turn(p.me, p.c, w) && var pc := p.Pc(w); pc.Begun? || pc.Open? || pc.Synced? || pc.Closed?
    modifies p
    ensures p.Stepped(w, {}) && Turn(p.me, p.c, w) && p.open == old(p.open)
    ensures Replacements(p.mine) == old(Replacements(p.mine))
    ensures p.Pc(w) == var pc := old(p.Pc(w)); S.Doomed(if pc.Begun? then None else Some(pc.tmp))
    ensures forall n | n in p.me.names && n !in old(p.c.s.d.dir) :: n !in p.c.s.d.dir
    ensures p.failures == old(p.failures)
  {
    hide Inv, Keeps, Adds, OwnOf, Reaches, Replacements;
    p.Go(w, S.Break);
  }

  /** `unlink` with its errors suppressed; the end of the handler. */
  method Unlink(p: Process, w: S.Id, tmp: S.Name) returns (failed: bool)
    requires p.Valid() && Turn(p.me, p.c, w) && p.Pc(w).Doomed? && tmp in p.me.names
    requires p.Pc(w).orphan == Some(tmp) || (p.Pc(w).orphan.None? && tmp !in p.c.s.d.dir)
    modifies p
    ensures p.Stepped(w, {}) && p.open == old(p.open) && w in p.c.s.writers && p.Pc(w) == S.Raised(false)
    ensures Replacements(p.mine) == old(Replacements(p.mine))
    ensures !failed ==> tmp !in p.c.s.d.dir
    ensures p.failures == old(p.failures) + if !failed then [] else [TmpUnlink]
  {
    hide Inv, Keeps, Adds, OwnOf, Reaches, Replacements;
    p.Wait(w);
    label waited:
    failed := *;
    p.Move(w, S.Clean(!failed));
    KeepsTwice(p.me, old(p.c), old(p.run), old@waited(p.c), old@waited(p.run), p.c, p.run, {w}, {}, {w}, {}, {w}, {});
    if failed { p.Fail(TmpUnlink); }
    OneMore(old@waited(p.mine), Disk(S.W(w, S.Clean(!failed))));
  }

  /** An exception nobody cleans up after: there is no file yet. */
  method GiveUp(p: Process, w: S.Id)
    requires p.Valid() && Turn(p.me, p.c, w) && p.Pc(w).Begun?
    modifies p
    ensures p.Stepped(w, {}) && p.open == old(p.open) && w in p.c.s.writers && p.Pc(w) == S.Raised(false)
    ensures Replacements(p.mine) == old(Replacements(p.mine))
    ensures p.failures == old(p.failures)
  {
    hide Inv, Keeps, Adds, OwnOf, Reaches, Replacements;
    p.Go(w, S.Break);
    label raised:
    p.Move(w, S.Clean(false));
    KeepsTwice(p.me, old(p.c), old(p.run), old@raised(p.c), old@raised(p.run), p.c, p.run, {w}, {}, {w}, {}, {w}, {});
    OneMore(old@raised(p.mine), Disk(S.W(w, S.Clean(false))));
  }

  // ----- after the replace --------------------------------------------------------------------------------

  /** `_fsync_dir`: a failure is an error under strict, a warning under warn, and nothing under best effort. */
  method FsyncDir(p: Process, w: S.Id) returns (ok: bool, warned: bool)
    requires p.Valid() && Turn(p.me, p.c, w) && p.Pc(w).Placed?
    modifies p
    ensures p.Stepped(w, {}) && Turn(p.me, p.c, w) && p.open == old(p.open)
    ensures Replacements(p.mine) == old(Replacements(p.mine))
    ensures p.Pc(w) == if ok then S.Durable(old(p.Pc(w)).version, old(p.Pc(w)).content) else S.Raised(true)
    ensures var failed := p.failures != old(p.failures);
      && p.failures == old(p.failures) + (if failed then [DirFsync] else [])
      && (ok <==> !failed || p.c.s.writers[w].safety != S.Strict)
      && (warned <==> failed && p.c.s.writers[w].safety == S.Warn)
      && (!failed ==> p.c.s.d.pending == map[])
  {
    hide Inv, Keeps, Adds, OwnOf, Reaches, Replacements;
    p.Wait(w);
    label waited:
    var synced: bool := *;
    p.Go(w, S.SyncDir(synced));
    KeepsTwice(p.me, old(p.c), old(p.run), old@waited(p.c), old@waited(p.run), p.c, p.run, {w}, {}, {w}, {}, {w}, {});
    if !synced { p.Fail(DirFsync); }
    KeptRecord(p.me, old(p.c), p.c, w);
    ok := synced || p.c.s.writers[w].safety != S.Strict;
    warned := !synced && p.c.s.writers[w].safety == S.Warn;
  }

  /** An exception after the replace. */
  method FailLate(p: Process, w: S.Id)
    requires p.Valid() && Turn(p.me, p.c, w) && p.c.s.writers[w].sidecar
    requires var pc := p.Pc(w); pc.Durable? || pc.Hashed? || pc.Rewriting?
    modifies p
    ensures p.Stepped(w, {}) && Turn(p.me, p.c, w) && p.open == old(p.open) && p.Pc(w) == S.Raised(true)
    ensures Replacements(p.mine) == old(Replacements(p.mine))
    ensures p.failures == old(p.failures)
  {
    hide Inv, Keeps, Adds, OwnOf, Reaches, Replacements;
    p.Go(w, S.FailLate);
  }

  /** A normal return. */
  method Return(p: Process, w: S.Id)
    requires p.Valid() && Turn(p.me, p.c, w) && S.MayReturn(p.c.s.writers[w])
    modifies p
    ensures p.Stepped(w, {}) && Turn(p.me, p.c, w) && p.open == old(p.open)
    ensures Replacements(p.mine) == old(Replacements(p.mine))
    ensures p.Pc(w) == S.Returned(old(p.Pc(w)).version, old(p.Pc(w)).content)
    ensures p.failures == old(p.failures)
  {
    hide Inv, Keeps, Adds, OwnOf, Reaches, Replacements;
    p.Go(w, S.Return);
  }

  /**
    `write_checksum_file`: hash the target, empty the sidecar, write the text
    in place.  The target is opened once and its inode is never written
    again, so hashing it chunk by chunk is hashing it at one moment.
   */
  method WriteSidecar(p: Process, w: S.Id) returns (ok: bool)
    requires p.Valid() && Turn(p.me, p.c, w) && p.Pc(w).Durable? && p.c.s.writers[w].sidecar
    modifies p
    ensures p.Stepped(w, {}) && Turn(p.me, p.c, w) && p.open == old(p.open)
    ensures Replacements(p.mine) == old(Replacements(p.mine))
    ensures ok ==>
      && p.Pc(w).Rewriting? && S.MayReturn(p.c.s.writers[w])
      && p.Pc(w).version == old(p.Pc(w)).version && p.Pc(w).content == old(p.Pc(w)).content
      && (w in p.c.blocks ==> CameAfter(p.me, p.c.scribe, {w})) && TextTells(p.c, w)
    ensures !ok ==> p.Pc(w) == S.Raised(true)
    ensures if ok then p.failures == old(p.failures) else OneFailure(old(p.failures), p.failures, REWRITING)
  {
    hide Inv, Keeps, Adds, OwnOf, Reaches, Replacements, S.SidecarBytes, TextTells;
    ok := HashTarget(p, w);
    if ok {
      label hashed:
      ok := OpenSidecar(p, w);
      TellsStays(p.me, old@hashed(p.c), p.c, w);
      KeepsTwice(p.me, old(p.c), old(p.run), old@hashed(p.c), old@hashed(p.run), p.c, p.run, {w}, {}, {w}, {}, {w}, {});
    }
    if ok {
      label reopened:
      ok := FillSidecar(p, w);
      TellsStays(p.me, old@reopened(p.c), p.c, w);
      NotesStay(p.me, old@reopened(p.c), p.c, w, {w}, {});
      KeepsTwice(p.me, old(p.c), old(p.run), old@reopened(p.c), old@reopened(p.run), p.c, p.run, {w}, {}, {w}, {},
          {w}, {});
    }
    if !ok {
      label failing:
      KeptRecord(p.me, old(p.c), p.c, w);
      FailLate(p, w);
      KeepsTwice(p.me, old(p.c), old(p.run), old@failing(p.c), old@failing(p.run), p.c, p.run, {w}, {}, {w}, {}, {w},
          {});
    }
  }

  /** The last to commit, and the last to open the sidecar, are this writer or somebody else's. */
  lemma NotesStay(me: Self, c: State, c': State, w: S.Id, moved: set<S.Id>, made: set<S.Name>)
    requires Keeps(me, c, c', moved, made) && moved <= {w}
    ensures CameAfter(me, c.last, {w}) ==> CameAfter(me, c'.last, {w})
    ensures CameAfter(me, c.scribe, {w}) ==> CameAfter(me, c'.scribe, {w})
    ensures w in me.ids ==> (w in c'.blocks <==> w in c.blocks)
  {
    hide Gone, SI.Grows;
  }

  /**
    The text a writer has in hand describes a version of its target no older
    than its own: digest, the target's name, the writer's algorithm, and when.
   */
  ghost predicate TextTells(c: State, w: S.Id)
  {
    w in c.s.writers && SA.HexHash(c.s.d) ==>
      var x := c.s.writers[w];
      && (x.pc.Hashed? || x.pc.Rewriting?)
      && exists h: Hashing :: x.pc.version <= h.version && SA.MadeFrom(c.s.d, x, h, x.pc.text)
  }

  predicate SameText(pc: S.WriterPc, pc': S.WriterPc)
  {
    (pc.Hashed? || pc.Rewriting?) && (pc'.Hashed? || pc'.Rewriting?) && pc'.version == pc.version && pc'.text == pc.text
  }

  lemma TellsStays(me: Self, c: State, c': State, w: S.Id)
    requires TextTells(c, w) && Keeps(me, c, c', {w}, {}) && w in me.ids && w in c.s.writers && w in c'.s.writers
    ensures SameText(c.s.writers[w].pc, c'.s.writers[w].pc) ==> TextTells(c', w)
  {
    hide SA.MadeFrom, SI.Grows;
    SameHash(me, c, c', w);
    var x, x' := c.s.writers[w], c'.s.writers[w];
    if SA.HexHash(c.s.d) && SameText(x.pc, x'.pc) {
      var h: Hashing :| x.pc.version <= h.version && SA.MadeFrom(c.s.d, x, h, x.pc.text);
      SA.MadeStays(c.s.d, c'.s.d, x, h, x.pc.text);
      SA.MadeForSame(c'.s.d, x, x', h, x.pc.text);
    }
  }

  lemma SameHash(me: Self, c: State, c': State, w: S.Id)
    requires Keeps(me, c, c', {w}, {})
    ensures SI.Grows(c.s.d, c'.s.d) && c'.s.d.hash == c.s.d.hash && (SA.HexHash(c'.s.d) ==> SA.HexHash(c.s.d))
  {
    hide Gone;
  }

  lemma HashTells(c: State, w: S.Id, timestamp: string)
    requires Inv(c) && w in c.s.writers && c.s.writers[w].pc.Durable? && S.Show(c.s.d, c.s.writers[w].target).Present?
    ensures var x := c.s.writers[w];
      && x.pc.version <= S.Latest(c.s.d, x.target)
      && (SA.HexHash(c.s.d) ==>
            SA.MadeFrom(c.s.d, x, Hashing(S.Latest(c.s.d, x.target), timestamp), S.SidecarBytes(c.s.d, x, timestamp)))
  {
    hide S.SidecarBytes, SidecarText.Describes, S.Show, BlocksOk, LogOk, ViewOk, L.Inv, SI.ReaderOk, SA.HexHash;
    var x := c.s.writers[w];
    assert SI.WriterOk(c.s.d, w, x);
    ST.ShownIsLatest(c.s, x.target);
    if SA.HexHash(c.s.d) { SA.TextDescribes(c.s.d, x, timestamp); }
  }

  lemma HashWent(c: State, c': State, w: S.Id, timestamp: string)
    requires Went(c, c', w, S.Hash(timestamp))
    ensures c'.s.d == c.s.d
    ensures var pc := c.s.writers[w].pc;
      c'.s.writers[w].pc == S.Hashed(pc.version, pc.content, S.SidecarBytes(c.s.d, c.s.writers[w], timestamp))
  {
    hide S.SidecarBytes, S.Show;
  }

  lemma HashTold(me: Self, c: State, c': State, w: S.Id, timestamp: string)
    requires Inv(c) && w in c.s.writers && c.s.writers[w].pc.Durable? && S.Show(c.s.d, c.s.writers[w].target).Present?
    requires w in me.ids && Keeps(me, c, c', {w}, {}) && Went(c, c', w, S.Hash(timestamp))
    ensures TextTells(c', w)
  {
    hide Inv, Keeps, Went, S.SidecarBytes, SA.MadeFrom, SA.HexHash, S.Show;
    HashTells(c, w, timestamp);
    KeptRecord(me, c, c', w);
    HashWent(c, c', w, timestamp);
    var x, x' := c.s.writers[w], c'.s.writers[w];
    if SA.HexHash(c.s.d) {
      SA.MadeForSame(c.s.d, x, x', Hashing(S.Latest(c.s.d, x.target), timestamp), x'.pc.text);
    }
  }

  method HashTarget(p: Process, w: S.Id) returns (ok: bool)
    requires p.Valid() && Turn(p.me, p.c, w) && p.Pc(w).Durable? && p.c.s.writers[w].sidecar
    modifies p
    ensures p.Stepped(w, {}) && Turn(p.me, p.c, w) && p.open == old(p.open)
    ensures Replacements(p.mine) == old(Replacements(p.mine))
    ensures !ok ==> p.Pc(w) == old(p.Pc(w))
    ensures ok ==> p.Pc(w).Hashed? && p.Pc(w).version == old(p.Pc(w)).version && p.Pc(w).content == old(p.Pc(w)).content
    ensures ok ==> TextTells(p.c, w)
    ensures p.failures == old(p.failures) + if ok then [] else [TargetHash]
  {
    hide Inv, Keeps, Adds, OwnOf, Reaches, Replacements, S.SidecarBytes, S.Show;
    p.Wait(w);
    label waited:
    var failed: bool := *;
    var timestamp: string := *;
    ok := !failed && S.Show(p.c.s.d, p.c.s.writers[w].target).Present?;
    if ok {
      p.Go(w, S.Hash(timestamp));
      HashTold(p.me, old@waited(p.c), p.c, w, timestamp);
      KeepsTwice(p.me, old(p.c), old(p.run), old@waited(p.c), old@waited(p.run), p.c, p.run, {w}, {}, {w}, {}, {w}, {});
    } else {
      p.Fail(TargetHash);
    }
  }

  /** `open(..., "w")`: an existing sidecar is emptied, a missing one created. */
  method OpenSidecar(p: Process, w: S.Id) returns (ok: bool)
    requires p.Valid() && Turn(p.me, p.c, w) && p.Pc(w).Hashed?
    modifies p
    ensures p.Stepped(w, {}) && Turn(p.me, p.c, w) && p.open == old(p.open)
    ensures Replacements(p.mine) == old(Replacements(p.mine))
    ensures !ok ==> p.Pc(w) == old(p.Pc(w))
    ensures ok ==>
      var pc := old(p.Pc(w));
      p.Pc(w).Rewriting? && p.Pc(w) == S.Rewriting(pc.version, pc.content, pc.text, p.Pc(w).side, 0)
    ensures ok && w in p.c.blocks ==> p.c.scribe == Some(w)
    ensures p.failures == old(p.failures) + if ok then [] else [SideOpen]
  {
    hide Inv, Keeps, Adds, OwnOf, Reaches, Replacements, Paths.ChecksumPath;
    p.Wait(w);
    label waited:
    var failed: bool := *;
    var ino: S.Ino := *;
    var d, side := p.c.s.d, Paths.ChecksumPath(p.c.s.writers[w].target);
    ok := !failed && (if side in d.dir then ino == d.dir[side] && ino in d.inodes else ino !in d.inodes);
    if ok {
      p.Go(w, S.Truncate(ino));
      NotesStay(p.me, old@waited(p.c), p.c, w, {w}, {});
      KeepsTwice(p.me, old(p.c), old(p.run), old@waited(p.c), old@waited(p.run), p.c, p.run, {w}, {}, {w}, {}, {w}, {});
    } else {
      p.Fail(SideOpen);
    }
  }

  /** The text goes out in as many writes as it takes; text outside ASCII cannot be encoded. */
  method FillSidecar(p: Process, w: S.Id) returns (ok: bool)
    requires p.Valid() && Turn(p.me, p.c, w) && p.Pc(w).Rewriting? && p.Pc(w).offset == 0
    modifies p
    ensures p.Stepped(w, {}) && Turn(p.me, p.c, w) && p.open == old(p.open)
    ensures Replacements(p.mine) == old(Replacements(p.mine))
    ensures p.Pc(w).Rewriting? && p.Pc(w) == old(p.Pc(w)).(offset := p.Pc(w).offset)
    ensures ok ==> S.MayReturn(p.c.s.writers[w])
    ensures ok ==> old(p.Pc(w)).text.Some?
    ensures p.failures == old(p.failures) +
      if ok then [] else if old(p.Pc(w)).text.None? then [SideEncode] else [SideWrite]
  {
    hide Inv, Keeps, Adds, OwnOf, Reaches, Replacements, Overwrite;
    StartStep(p.me, p.c, p.run, w);
    if p.Pc(w).text.None? {
      p.Fail(SideEncode);
      return false;
    }
    var size := |p.Pc(w).text.value|;
    while p.Pc(w).offset < size
      invariant p.Stepped(w, {}) && Turn(p.me, p.c, w) && p.open == old(p.open)
      invariant Replacements(p.mine) == old(Replacements(p.mine)) && p.failures == old(p.failures)
      invariant p.Pc(w).Rewriting? && p.Pc(w) == old(p.Pc(w)).(offset := p.Pc(w).offset) && p.Pc(w).offset <= size
      decreases size - p.Pc(w).offset
    {
      label before:
      var taken: nat := *;
      p.Wait(w);
      KeepsTwice(p.me, old(p.c), old(p.run), old@before(p.c), old@before(p.run), p.c, p.run, {w}, {}, {w}, {}, {w}, {});
      if !(0 < taken <= size - p.Pc(w).offset) {
        p.Fail(SideWrite);
        return false;
      }
      label waited:
      OwnFiles(p.c, w);
      p.Go(w, S.WriteSide(taken));
      KeepsTwice(p.me, old(p.c), old(p.run), old@waited(p.c), old@waited(p.run), p.c, p.run, {w}, {}, {w}, {}, {w}, {});
    }
    ok := true;
  }
}
