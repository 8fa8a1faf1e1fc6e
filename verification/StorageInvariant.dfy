/**
  What every step of the persistence protocol keeps, and therefore what holds
  in every reachable state, for any number of processes and any schedule.
 */
module StorageInvariant {
  import opened Basics
  import Paths
  import SidecarText
  import opened Storage

  // ----- the invariant --------------------------------------------------------------

  /** Published content is frozen: whatever a target ever showed is still on the disk, synced and unchanged. */
  ghost predicate Frozen(d: Disk, v: Version)
  {
    v.Present? ==> v.ino in d.inodes && d.inodes[v.ino] == Inode(v.data, true, Published)
  }

  /** Power loss can bring `entry` back only as something the target showed from `floor` on. */
  ghost predicate Covered(vs: seq<Version>, floor: nat, entry: Option<Ino>)
  {
    exists k :: floor <= k < |vs| && VersionEntry(vs[k]) == entry
  }

  ghost predicate HistoryOk(d: Disk, t: Name)
    requires t in d.versions && t in d.floor && t in d.acked
  {
    var vs := d.versions[t];
    && d.acked[t] <= d.floor[t] < |vs|
    && (forall k | 0 <= k < |vs| :: Frozen(d, vs[k]))
    && VersionEntry(vs[|vs| - 1]) == Entry(d, t)
    && (forall o | MayBe(d, t, o) :: Covered(vs, d.floor[t], o))
  }

  ghost predicate SideOk(d: Disk, t: Name)
  {
    forall i | MayBe(d, Paths.ChecksumPath(t), Some(i)) :: i in d.inodes && d.inodes[i].kind == Sidecar(t)
  }

  ghost predicate NamesOk(d: Disk)
  {
    && Paths.GoodTargets(d.targets)
    && d.versions.Keys == d.floor.Keys == d.acked.Keys == d.targets
    && (forall n, i | MayBe(d, n, Some(i)) :: i in d.inodes)
    && (forall i | i in d.inodes && d.inodes[i].kind == Published :: d.inodes[i].durable)
  }

  ghost predicate SidesOk(d: Disk)
  {
    forall t | t in d.targets :: SideOk(d, t)
  }

  ghost predicate DiskOk(d: Disk)
  {
    NamesOk(d) && SidesOk(d) && forall t | t in d.targets :: HistoryOk(d, t)
  }

  /** The writer's temporary file holds exactly what its writes accepted, and is its alone. */
  ghost predicate HasScratch(d: Disk, w: Id, tmp: Name, ino: Ino, accepted: Bytes)
  {
    && Paths.IsTmpName(tmp)
    && tmp in d.dir && d.dir[tmp] == ino
    && ino in d.inodes && d.inodes[ino].kind == Scratch(w) && d.inodes[ino].data == accepted
  }

  ghost predicate HasPlaced(d: Disk, x: Writer, version: nat, content: Bytes)
    requires x.target in d.versions
  {
    && version < |d.versions[x.target]|
    && d.versions[x.target][version].Present?
    && d.versions[x.target][version].data == content
    && GoalMet(x, content)
  }

  ghost predicate WriterOk(d: Disk, w: Id, x: Writer)
    requires d.versions.Keys == d.floor.Keys == d.acked.Keys == d.targets
  {
    && x.target in d.targets
    && match x.pc
       case Begun => true
       case Open(tmp, ino, accepted) => HasScratch(d, w, tmp, ino, accepted)
       case Synced(tmp, ino, accepted) =>
         HasScratch(d, w, tmp, ino, accepted) && d.inodes[ino].durable && GoalMet(x, accepted)
       case Closed(tmp, ino, accepted) =>
         HasScratch(d, w, tmp, ino, accepted) && d.inodes[ino].durable && GoalMet(x, accepted)
       case Placed(v, c) => HasPlaced(d, x, v, c)
       case Durable(v, c) => HasPlaced(d, x, v, c) && (x.safety == Strict ==> v <= d.floor[x.target])
       case Hashed(v, c, _) => HasPlaced(d, x, v, c) && (x.safety == Strict ==> v <= d.floor[x.target])
       case Rewriting(v, c, text, side, offset) =>
         && HasPlaced(d, x, v, c) && (x.safety == Strict ==> v <= d.floor[x.target])
         && side in d.inodes && d.inodes[side].kind == Sidecar(x.target)
         && (text.Some? ==> offset <= |text.value|)
       case Returned(v, c) => HasPlaced(d, x, v, c) && (x.safety == Strict ==> v <= d.acked[x.target])
       case Doomed(orphan) =>
         orphan.Some? ==>
           && Paths.IsTmpName(orphan.value) && orphan.value in d.dir
           && d.dir[orphan.value] in d.inodes && d.inodes[d.dir[orphan.value]].kind == Scratch(w)
       case Raised(_) => true
  }

  /** The sidecar bytes `seen` parse, and their digest is `digest`. */
  ghost predicate Vouches(seen: Bytes, digest: string)
  {
    SidecarText.ParseBytes(seen).Some? && SidecarText.ParseBytes(seen).value.digest == digest
  }

  ghost predicate WantOk(x: Reader, want: Option<string>, seen: Bytes)
  {
    && (want.Some? <==> x.check)
    && (x.check ==> Vouches(seen, want.value))
  }

  /** A reader holds a prefix of one version, and that version is no older than its own start. */
  ghost predicate ReaderOk(d: Disk, x: Reader)
    requires d.versions.Keys == d.targets
  {
    && x.target in d.targets
    && x.since < |d.versions[x.target]|
    && match x.pc
       case InSidecar(_, _) => x.check
       case Expecting(want, seen) => WantOk(x, want, seen)
       case Reading(want, seen, v, ino, got) =>
         && WantOk(x, want, seen)
         && x.since <= v < |d.versions[x.target]|
         && d.versions[x.target][v].Present? && d.versions[x.target][v].ino == ino
         && got <= d.versions[x.target][v].data
       case Got(v, content, seen) =>
         && x.since <= v < |d.versions[x.target]|
         && d.versions[x.target][v].Present? && d.versions[x.target][v].data == content
         && (x.check ==> Vouches(seen, d.hash(x.algo, content)))
       case Mismatch(v, content, seen) =>
         && x.since <= v < |d.versions[x.target]|
         && d.versions[x.target][v].Present? && d.versions[x.target][v].data == content
         && x.check && SidecarText.ParseBytes(seen).Some? && !Vouches(seen, d.hash(x.algo, content))
       case NoSidecar => x.check
       case BadSidecar(seen) => x.check && SidecarText.ParseBytes(seen).None?
       case _ => true
  }

  ghost predicate Inv(s: State)
  {
    && DiskOk(s.d)
    && (forall w | w in s.writers :: WriterOk(s.d, w, s.writers[w]))
    && (forall r | r in s.readers :: ReaderOk(s.d, s.readers[r]))
  }

  lemma InitHolds(s: State)
    requires Init(s)
    ensures Inv(s)
  {
    hide Paths.GoodTargets;
    forall t | t in s.d.targets ensures HistoryOk(s.d, t) && SideOk(s.d, t) {
      assert Frozen(s.d, s.d.versions[t][0]);
      assert VersionEntry(s.d.versions[t][0]) == Entry(s.d, t);
    }
  }

  // ----- what other processes may rely on -----------------------------------------------

  /** Histories only grow, and what is published stays. */
  ghost predicate Grows(d: Disk, d': Disk)
  {
    && d'.hash == d.hash && d'.targets == d.targets
    && d.versions.Keys == d'.versions.Keys && d.floor.Keys == d'.floor.Keys && d.acked.Keys == d'.acked.Keys
    && (forall t | t in d.versions :: d.versions[t] <= d'.versions[t])
    && (forall t | t in d.floor :: d.floor[t] <= d'.floor[t])
    && (forall t | t in d.acked :: d.acked[t] <= d'.acked[t])
    && (forall i | i in d.inodes && (d.inodes[i].kind.Sidecar? || d.inodes[i].kind.Published?) ::
          i in d'.inodes && d'.inodes[i].kind == d.inodes[i].kind
          && (d.inodes[i].kind.Published? ==> d'.inodes[i] == d.inodes[i]))
  }

  /** Everything of writer `u` that lives on the disk is as it was. */
  ghost predicate Spared(d: Disk, d': Disk, u: Id)
  {
    forall n | n in d.dir && d.dir[n] in d.inodes && d.inodes[d.dir[n]].kind == Scratch(u) && Paths.IsTmpName(n) ::
      n in d'.dir && d'.dir[n] == d.dir[n]
      && d.dir[n] in d'.inodes && d'.inodes[d.dir[n]] == d.inodes[d.dir[n]]
  }

  lemma WriterRelies(d: Disk, d': Disk, u: Id, x: Writer)
    requires NamesOk(d) && NamesOk(d') && Grows(d, d') && Spared(d, d', u) && WriterOk(d, u, x)
    ensures WriterOk(d', u, x)
  {
    hide Paths.GoodTargets, Paths.IsTmpName;
  }

  lemma ReaderRelies(d: Disk, d': Disk, x: Reader)
    requires NamesOk(d) && NamesOk(d') && Grows(d, d') && ReaderOk(d, x)
    ensures ReaderOk(d', x)
  {
    hide Paths.GoodTargets, Vouches;
  }

  /** A writer's step keeps the invariant when the disk and the writer itself end up in order. */
  lemma WriterStepKeeps(s: State, s': State, w: Id)
    requires Inv(s) && s'.readers == s.readers
    requires s'.writers - {w} == s.writers - {w}
    requires DiskOk(s'.d) && Grows(s.d, s'.d)
    requires forall u | u in s.writers && u != w :: Spared(s.d, s'.d, u)
    requires w in s'.writers ==> WriterOk(s'.d, w, s'.writers[w])
    ensures Inv(s')
  {
    hide DiskOk, NamesOk, Grows, Spared, WriterOk, ReaderOk;
    DiskIsNamed(s.d);
    DiskIsNamed(s'.d);
    forall u | u in s'.writers ensures WriterOk(s'.d, u, s'.writers[u]) {
      if u != w {
        assert u in s'.writers - {w};
        WriterRelies(s.d, s'.d, u, s.writers[u]);
      }
    }
    forall r | r in s'.readers ensures ReaderOk(s'.d, s'.readers[r]) {
      ReaderRelies(s.d, s'.d, s.readers[r]);
    }
  }

  lemma DiskIsNamed(d: Disk)
    requires DiskOk(d)
    ensures NamesOk(d) && SidesOk(d)
    ensures d.versions.Keys == d.floor.Keys == d.acked.Keys == d.targets
  {
  }

  // ----- changes of the disk that no history notices ------------------------------------------

  ghost predicate Quiet(d: Disk, d': Disk)
  {
    && d'.hash == d.hash && d'.targets == d.targets && d'.versions == d.versions && d'.floor == d.floor
    && d'.acked == d.acked
    && (forall i | i in d.inodes :: i in d'.inodes && d'.inodes[i].kind == d.inodes[i].kind
                                 && (d.inodes[i].kind == Published ==> d'.inodes[i] == d.inodes[i]))
    && (forall i | i in d'.inodes && d'.inodes[i].kind == Published :: i in d.inodes)
    && (forall n, i | MayBe(d', n, Some(i)) :: i in d'.inodes)
    && (forall t | t in d.targets :: Entry(d', t) == Entry(d, t) && forall o | MayBe(d', t, o) :: MayBe(d, t, o))
    && SidesOk(d')
  }

  lemma QuietHistory(d: Disk, d': Disk, t: Name)
    requires t in d.targets && t in d.versions && t in d.floor && t in d.acked
    requires HistoryOk(d, t) && Quiet(d, d')
    ensures HistoryOk(d', t)
  {
    hide SidesOk;
    forall k | 0 <= k < |d.versions[t]| ensures Frozen(d', d.versions[t][k]) {
      assert Frozen(d, d.versions[t][k]);
    }
  }

  lemma QuietDisk(d: Disk, d': Disk)
    requires DiskOk(d) && Quiet(d, d')
    ensures DiskOk(d') && Grows(d, d')
  {
    hide HistoryOk, SidesOk, Paths.GoodTargets;
    forall t | t in d'.targets ensures HistoryOk(d', t) {
      QuietHistory(d, d', t);
    }
  }

  lemma QuietTwice(d: Disk, d1: Disk, d2: Disk)
    requires Quiet(d, d1) && Quiet(d1, d2)
    ensures Quiet(d, d2)
  {
    hide SidesOk;
  }

  lemma FillIsQuiet(d: Disk, ino: Ino, data: Bytes, durable: bool)
    requires NamesOk(d) && SidesOk(d)
    requires ino in d.inodes && d.inodes[ino].kind != Published
    ensures Quiet(d, Fill(d, ino, data, durable))
  {
    hide Paths.GoodTargets, Paths.ChecksumPath;
    var d' := Fill(d, ino, data, durable);
    forall n, i | MayBe(d', n, Some(i)) ensures i in d'.inodes {
      assert MayBe(d, n, Some(i));
    }
    forall t, i | t in d.targets && MayBe(d', Paths.ChecksumPath(t), Some(i))
      ensures i in d'.inodes && d'.inodes[i].kind == Sidecar(t)
    {
      assert SideOk(d, t) && MayBe(d, Paths.ChecksumPath(t), Some(i));
    }
  }

  lemma AddIsQuiet(d: Disk, ino: Ino, inode: Inode)
    requires NamesOk(d) && SidesOk(d) && ino !in d.inodes && inode.kind != Published
    ensures Quiet(d, AddInode(d, ino, inode)) && NamesOk(AddInode(d, ino, inode))
  {
    hide Paths.GoodTargets, Paths.ChecksumPath, MayBe, Entry;
    var d' := AddInode(d, ino, inode);
    AddEntries(d, ino, inode);
    forall n, i | MayBe(d', n, Some(i)) ensures i in d'.inodes {
      assert MayBe(d, n, Some(i));
    }
    forall t, i | t in d.targets && MayBe(d', Paths.ChecksumPath(t), Some(i))
      ensures i in d'.inodes && d'.inodes[i].kind == Sidecar(t)
    {
      assert SideOk(d, t) && MayBe(d, Paths.ChecksumPath(t), Some(i));
    }
  }

  lemma AddEntries(d: Disk, ino: Ino, inode: Inode)
    ensures forall n :: Entry(AddInode(d, ino, inode), n) == Entry(d, n)
    ensures forall n, o :: MayBe(AddInode(d, ino, inode), n, o) <==> MayBe(d, n, o)
  {
  }

  lemma EntrySet(d: Disk, n: Name, entry: Option<Ino>)
    ensures var d' := SetEntry(d, n, entry);
      && Entry(d', n) == entry
      && (forall o :: MayBe(d', n, o) <==> o == entry || MayBe(d, n, o))
      && (forall m | m != n :: Entry(d', m) == Entry(d, m))
      && (forall m, o | m != n :: MayBe(d', m, o) <==> MayBe(d, m, o))
  {
  }

  /** A name that is no target may change at will; a sidecar's name may take one of its sidecar inodes. */
  lemma EntryIsQuiet(d: Disk, n: Name, entry: Option<Ino>)
    requires NamesOk(d) && SidesOk(d)
    requires n !in d.targets
    requires entry.Some? ==> entry.value in d.inodes
    requires forall t | t in d.targets && n == Paths.ChecksumPath(t) ::
      entry.Some? && d.inodes[entry.value].kind == Sidecar(t)
    ensures Quiet(d, SetEntry(d, n, entry)) && NamesOk(SetEntry(d, n, entry))
  {
    hide Paths.GoodTargets, Paths.ChecksumPath, MayBe, Entry;
    var d' := SetEntry(d, n, entry);
    EntrySet(d, n, entry);
    forall m, i | MayBe(d', m, Some(i)) ensures i in d'.inodes {
      if m != n || entry != Some(i) { assert MayBe(d, m, Some(i)); }
    }
    forall t, i | t in d.targets && MayBe(d', Paths.ChecksumPath(t), Some(i))
      ensures i in d'.inodes && d'.inodes[i].kind == Sidecar(t)
    {
      assert SideOk(d, t);
      if Paths.ChecksumPath(t) != n || entry != Some(i) { assert MayBe(d, Paths.ChecksumPath(t), Some(i)); }
    }
  }

  /** The names that stand for no target and no target's sidecar. */
  ghost predicate Plain(d: Disk, n: Name)
  {
    n !in d.targets && forall t | t in d.targets :: n != Paths.ChecksumPath(t)
  }

  lemma TmpIsPlain(d: Disk, tmp: Name)
    requires NamesOk(d) && Paths.IsTmpName(tmp)
    ensures Plain(d, tmp)
  {
    assert forall t | t in d.targets :: Paths.Apart(t, t);
    forall t | t in d.targets ensures tmp != Paths.ChecksumPath(t) {
      Paths.DerivedNames(t, t);
    }
  }

  lemma TargetIsNoTmp(d: Disk, t: Name)
    requires NamesOk(d) && t in d.targets
    ensures !Paths.IsTmpName(t)
  {
    assert Paths.Apart(t, t);
  }

  lemma LockIsPlain(d: Disk, t: Name)
    requires NamesOk(d) && t in d.targets
    ensures Plain(d, Paths.LockPath(t)) && !Paths.IsTmpName(Paths.LockPath(t))
  {
    forall u | u in d.targets ensures Paths.LockPath(t) != Paths.ChecksumPath(u) {
      Paths.DerivedNames(t, u);
    }
    Paths.DerivedNames(t, t);
    assert forall u | u in d.targets :: Paths.Apart(u, t);
  }

  lemma SideIsApart(d: Disk, t: Name)
    requires NamesOk(d) && t in d.targets
    ensures var n := Paths.ChecksumPath(t);
      n !in d.targets && !Paths.IsTmpName(n) && forall u | u in d.targets && n == Paths.ChecksumPath(u) :: u == t
  {
    forall u | u in d.targets && Paths.ChecksumPath(t) == Paths.ChecksumPath(u) ensures u == t {
      Paths.DerivedNames(t, u);
    }
    Paths.DerivedNames(t, t);
    assert forall u | u in d.targets :: Paths.Apart(u, t);
  }

  // ----- the disk after each kind of step ------------------------------------------------------

  /** A new inode under a name that is no target. */
  lemma NewFile(d: Disk, n: Name, ino: Ino, inode: Inode)
    requires DiskOk(d) && ino !in d.inodes && n !in d.targets && inode.kind != Published
    requires forall t | t in d.targets && n == Paths.ChecksumPath(t) :: inode.kind == Sidecar(t)
    ensures var d' := SetEntry(AddInode(d, ino, inode), n, Some(ino)); DiskOk(d') && Grows(d, d')
  {
    hide HistoryOk, SideOk, Grows, Paths.GoodTargets, Paths.ChecksumPath;
    var d1 := AddInode(d, ino, inode);
    AddIsQuiet(d, ino, inode);
    assert NamesOk(d1) && SidesOk(d1);
    EntryIsQuiet(d1, n, Some(ino));
    QuietTwice(d, d1, SetEntry(d1, n, Some(ino)));
    QuietDisk(d, SetEntry(d1, n, Some(ino)));
  }

  lemma CreateDisk(d: Disk, w: Id, tmp: Name, ino: Ino)
    requires DiskOk(d) && Paths.IsTmpName(tmp) && tmp !in d.dir && ino !in d.inodes
    ensures var d' := SetEntry(AddInode(d, ino, Inode([], false, Scratch(w))), tmp, Some(ino));
      DiskOk(d') && Grows(d, d') && forall u | u != w :: Spared(d, d', u)
  {
    TmpIsPlain(d, tmp);
    NewFile(d, tmp, ino, Inode([], false, Scratch(w)));
  }

  lemma FillDisk(d: Disk, ino: Ino, data: Bytes, durable: bool)
    requires DiskOk(d) && ino in d.inodes && d.inodes[ino].kind != Published
    ensures var d' := Fill(d, ino, data, durable);
      DiskOk(d') && Grows(d, d') && forall u | d.inodes[ino].kind != Scratch(u) :: Spared(d, d', u)
  {
    FillIsQuiet(d, ino, data, durable);
    hide DiskOk, Quiet, Grows, Paths.IsTmpName;
    QuietDisk(d, Fill(d, ino, data, durable));
  }

  lemma UnlinkDisk(d: Disk, w: Id, tmp: Name)
    requires DiskOk(d) && Paths.IsTmpName(tmp)
    requires tmp in d.dir && d.dir[tmp] in d.inodes && d.inodes[d.dir[tmp]].kind == Scratch(w)
    ensures var d' := SetEntry(d, tmp, None);
      DiskOk(d') && Grows(d, d') && forall u | u != w :: Spared(d, d', u)
  {
    TmpIsPlain(d, tmp);
    EntryIsQuiet(d, tmp, None);
    hide DiskOk, Quiet, Grows, Paths.IsTmpName;
    QuietDisk(d, SetEntry(d, tmp, None));
  }

  lemma LockDisk(d: Disk, t: Name, entry: Option<Ino>)
    requires DiskOk(d) && t in d.targets
    requires entry.Some? ==> entry.value !in d.inodes
    ensures var d' := SetEntry(if entry.Some? then AddInode(d, entry.value, Inode([], false, Other)) else d,
                               Paths.LockPath(t), entry);
      DiskOk(d') && Grows(d, d') && forall u :: Spared(d, d', u)
  {
    hide HistoryOk, SideOk, Grows, Paths.GoodTargets, Paths.ChecksumPath;
    LockIsPlain(d, t);
    if entry.Some? {
      NewFile(d, Paths.LockPath(t), entry.value, Inode([], false, Other));
    } else {
      EntryIsQuiet(d, Paths.LockPath(t), None);
      QuietDisk(d, SetEntry(d, Paths.LockPath(t), None));
    }
  }

  lemma ReopenDisk(d: Disk, t: Name, ino: Ino)
    requires DiskOk(d) && t in d.targets
    requires if Paths.ChecksumPath(t) in d.dir then ino == d.dir[Paths.ChecksumPath(t)] && ino in d.inodes
             else ino !in d.inodes
    ensures var d' := Reopen(d, t, ino);
      && DiskOk(d') && Grows(d, d') && (forall u :: Spared(d, d', u))
      && ino in d'.inodes && d'.inodes[ino].kind == Sidecar(t)
  {
    hide HistoryOk, Grows, Paths.GoodTargets;
    var side := Paths.ChecksumPath(t);
    SideIsApart(d, t);
    if side in d.dir {
      assert SideOk(d, t) && MayBe(d, side, Some(ino));
      FillDisk(d, ino, [], false);
    } else {
      NewFile(d, side, ino, Inode([], false, Sidecar(t)));
    }
  }

  /** After the rename the target shows the synced scratch file, as its newest version. */
  lemma RenameDisk(d: Disk, w: Id, tmp: Name, t: Name)
    requires DiskOk(d) && t in d.targets && Paths.IsTmpName(tmp)
    requires tmp in d.dir && d.dir[tmp] in d.inodes
    requires d.inodes[d.dir[tmp]].kind == Scratch(w) && d.inodes[d.dir[tmp]].durable
    ensures var d' := Rename(d, tmp, t);
      && DiskOk(d') && Grows(d, d') && (forall u | u != w :: Spared(d, d', u))
      && d'.versions == d.versions[t := d.versions[t] + [Present(d.dir[tmp], d.inodes[d.dir[tmp]].data)]]
  {
    hide HistoryOk, SideOk, Paths.GoodTargets, Paths.ChecksumPath, Paths.IsTmpName, MayBe;
    TmpIsPlain(d, tmp);
    TargetIsNoTmp(d, t);
    RenameNames(d, tmp, t);
    RenameSides(d, tmp, t);
    forall u | u in d.targets ensures HistoryOk(Rename(d, tmp, t), u) {
      RenameHistory(d, tmp, t, u);
    }
    forall u | u != w ensures Spared(d, Rename(d, tmp, t), u) {
      RenameSpares(d, tmp, t, u);
    }
  }

  lemma RenameSpares(d: Disk, tmp: Name, t: Name, u: Id)
    requires tmp in d.dir && d.dir[tmp] in d.inodes && d.inodes[d.dir[tmp]].kind != Scratch(u)
    requires !Paths.IsTmpName(t)
    ensures Spared(d, Rename(d, tmp, t), u)
  {
    hide Paths.IsTmpName, MayBe;
  }

  lemma RenameEntries(d: Disk, tmp: Name, t: Name)
    requires tmp in d.dir && d.dir[tmp] in d.inodes && tmp != t
    ensures var d' := Rename(d, tmp, t);
      && Entry(d', t) == Entry(d, tmp) && Entry(d', tmp) == None
      && (forall o :: MayBe(d', t, o) <==> o == Entry(d, tmp) || MayBe(d, t, o))
      && (forall o :: MayBe(d', tmp, o) <==> o == None || MayBe(d, tmp, o))
      && (forall n | n != t && n != tmp :: Entry(d', n) == Entry(d, n))
      && (forall n, o | n != t && n != tmp :: MayBe(d', n, o) <==> MayBe(d, n, o))
  {
    EntrySet(d, tmp, None);
    EntrySet(SetEntry(d, tmp, None), t, Entry(d, tmp));
  }

  lemma RenameNames(d: Disk, tmp: Name, t: Name)
    requires NamesOk(d) && t in d.targets && tmp !in d.targets
    requires tmp in d.dir && d.dir[tmp] in d.inodes && d.inodes[d.dir[tmp]].durable
    ensures NamesOk(Rename(d, tmp, t))
  {
    hide Paths.GoodTargets;
    var d' := Rename(d, tmp, t);
    RenameEntries(d, tmp, t);
    forall n, i | MayBe(d', n, Some(i)) ensures i in d'.inodes {
      assert MayBe(d, n, Some(i)) || Some(i) == Entry(d, tmp);
    }
  }

  lemma RenameSides(d: Disk, tmp: Name, t: Name)
    requires NamesOk(d) && SidesOk(d) && t in d.targets && Plain(d, tmp)
    requires tmp in d.dir && d.dir[tmp] in d.inodes && !d.inodes[d.dir[tmp]].kind.Sidecar?
    ensures SidesOk(Rename(d, tmp, t))
  {
    hide Paths.GoodTargets, Paths.ChecksumPath;
    RenameEntries(d, tmp, t);
    hide MayBe;
    forall u | u in d.targets ensures SideOk(Rename(d, tmp, t), u) {
      SideIsApart(d, u);
      assert SideOk(d, u);
    }
  }

  lemma RenameHistory(d: Disk, tmp: Name, t: Name, u: Name)
    requires u in d.versions && u in d.floor && u in d.acked && HistoryOk(d, u)
    requires t in d.versions && tmp != t && tmp != u
    requires tmp in d.dir && d.dir[tmp] in d.inodes
    requires d.inodes[d.dir[tmp]].kind.Scratch? && d.inodes[d.dir[tmp]].durable
    ensures HistoryOk(Rename(d, tmp, t), u)
  {
    var d' := Rename(d, tmp, t);
    var vs, vs' := d.versions[u], d'.versions[u];
    RenameEntries(d, tmp, t);
    hide MayBe;
    forall k | 0 <= k < |vs'| ensures Frozen(d', vs'[k]) {
      if k < |vs| { assert vs'[k] == vs[k] && Frozen(d, vs[k]); }
    }
    forall o | MayBe(d', u, o) ensures Covered(vs', d'.floor[u], o) {
      if MayBe(d, u, o) {
        assert Covered(vs, d.floor[u], o);
        var k :| d.floor[u] <= k < |vs| && VersionEntry(vs[k]) == o;
        assert vs'[k] == vs[k];
      } else {
        assert VersionEntry(vs'[|vs|]) == o;
      }
    }
  }

  /** The same inodes under entries that were possible before. */
  ghost predicate SameFiles(d: Disk, d': Disk)
  {
    && d'.inodes == d.inodes && d'.targets == d.targets
    && d'.versions.Keys == d.versions.Keys && d'.floor.Keys == d.floor.Keys && d'.acked.Keys == d.acked.Keys
    && forall n, o | MayBe(d', n, o) :: MayBe(d, n, o)
  }

  lemma SameFilesAreOk(d: Disk, d': Disk)
    requires NamesOk(d) && SidesOk(d) && SameFiles(d, d')
    ensures NamesOk(d') && SidesOk(d') && forall u :: d'.dir == d.dir ==> Spared(d, d', u)
  {
    hide Paths.GoodTargets, Paths.ChecksumPath, Paths.IsTmpName, MayBe;
    forall t, i | t in d.targets && MayBe(d', Paths.ChecksumPath(t), Some(i))
      ensures i in d'.inodes && d'.inodes[i].kind == Sidecar(t)
    {
      assert SideOk(d, t) && MayBe(d, Paths.ChecksumPath(t), Some(i));
    }
  }

  lemma SameFilesHistory(d: Disk, d': Disk, t: Name)
    requires t in d.versions && t in d.floor && t in d.acked && HistoryOk(d, t)
    requires SameFiles(d, d') && d'.versions == d.versions && Entry(d', t) == Entry(d, t)
    requires d'.acked[t] <= d'.floor[t] < |d.versions[t]|
    requires forall o | MayBe(d', t, o) :: Covered(d.versions[t], d'.floor[t], o)
    ensures HistoryOk(d', t)
  {
    forall k | 0 <= k < |d.versions[t]| ensures Frozen(d', d.versions[t][k]) {
      assert Frozen(d, d.versions[t][k]);
    }
  }

  lemma SettleDisk(d: Disk)
    requires DiskOk(d)
    ensures DiskOk(Settle(d)) && Grows(d, Settle(d)) && forall u :: Spared(d, Settle(d), u)
    ensures forall t | t in d.targets :: Settle(d).floor[t] == |d.versions[t]| - 1
  {
    hide Paths.GoodTargets, Paths.ChecksumPath, Paths.IsTmpName, SideOk;
    var d' := Settle(d);
    assert SameFiles(d, d');
    SameFilesAreOk(d, d');
    forall t | t in d.targets ensures HistoryOk(d', t) {
      var vs := d.versions[t];
      forall o | MayBe(d', t, o) ensures Covered(vs, d'.floor[t], o) {
        assert VersionEntry(vs[|vs| - 1]) == o;
      }
      hide MayBe;
      SameFilesHistory(d, d', t);
    }
  }

  lemma AcknowledgeDisk(d: Disk, t: Name, v: nat)
    requires DiskOk(d) && t in d.targets && v <= d.floor[t]
    ensures var d' := Acknowledge(d, t, v);
      DiskOk(d') && Grows(d, d') && (forall u :: Spared(d, d', u)) && v <= d'.acked[t]
  {
    hide Paths.GoodTargets, Paths.ChecksumPath, Paths.IsTmpName, SideOk, MayBe, HistoryOk, Grows, Spared, SameFiles;
    var d' := Acknowledge(d, t, v);
    AcknowledgeGrows(d, t, v);
    SameFilesAreOk(d, d');
    forall u | u in d.targets ensures HistoryOk(d', u) {
      AcknowledgeHistory(d, t, v, u);
    }
  }

  lemma AcknowledgeGrows(d: Disk, t: Name, v: nat)
    requires t in d.acked
    ensures var d' := Acknowledge(d, t, v);
      && SameFiles(d, d') && Grows(d, d') && (forall u :: Spared(d, d', u))
      && d'.dir == d.dir && t in d'.acked && v <= d'.acked[t]
  {
    hide MayBe, Paths.IsTmpName;
    AcknowledgeEntries(d, t, v);
  }

  lemma AcknowledgeHistory(d: Disk, t: Name, v: nat, u: Name)
    requires t in d.acked && t in d.floor && v <= d.floor[t]
    requires u in d.versions && u in d.floor && u in d.acked && HistoryOk(d, u)
    ensures HistoryOk(Acknowledge(d, t, v), u)
  {
    hide MayBe;
    var d' := Acknowledge(d, t, v);
    AcknowledgeEntries(d, t, v);
    SameFilesHistory(d, d', u);
  }

  lemma AcknowledgeEntries(d: Disk, t: Name, v: nat)
    ensures forall n, o :: MayBe(Acknowledge(d, t, v), n, o) <==> MayBe(d, n, o)
  {
  }

  // ----- power loss -----------------------------------------------------------------------------

  /** Every name comes back with an entry it may have, and with the inode that entry names. */
  lemma LossEntry(d: Disk, keep: map<Name, Option<Ino>>, junk: map<Ino, Bytes>, n: Name)
    requires CanLosePower(d, keep)
    ensures var d' := AfterLoss(d, keep, junk);
      && MayBe(d, n, Entry(d', n))
      && (forall o | MayBe(d', n, o) :: o == Entry(d', n))
      && d'.inodes.Keys == d.inodes.Keys
      && (forall i | i in d.inodes && d.inodes[i].durable :: d'.inodes[i] == d.inodes[i])
      && (forall i | i in d.inodes :: d'.inodes[i].kind == d.inodes[i].kind)
  {
  }

  /**
    Crash consistency at one target: what power loss leaves is, byte for byte,
    one of the versions the target showed, and none older than `floor`.
   */
  lemma LossRestores(d: Disk, keep: map<Name, Option<Ino>>, junk: map<Ino, Bytes>, t: Name) returns (k: nat)
    requires NamesOk(d) && t in d.targets && HistoryOk(d, t) && CanLosePower(d, keep)
    ensures d.floor[t] <= k < |d.versions[t]|
    ensures Show(AfterLoss(d, keep, junk), t) == d.versions[t][k]
  {
    hide Paths.GoodTargets, CanLosePower, AfterLoss;
    var d' := AfterLoss(d, keep, junk);
    LossEntry(d, keep, junk, t);
    assert Covered(d.versions[t], d.floor[t], Entry(d', t));
    k :| d.floor[t] <= k < |d.versions[t]| && VersionEntry(d.versions[t][k]) == Entry(d', t);
    assert Frozen(d, d.versions[t][k]);
  }

  lemma LossHistory(d: Disk, keep: map<Name, Option<Ino>>, junk: map<Ino, Bytes>, t: Name)
    requires NamesOk(d) && t in d.targets && HistoryOk(d, t) && CanLosePower(d, keep)
    ensures HistoryOk(AfterLoss(d, keep, junk), t)
  {
    hide Paths.GoodTargets, CanLosePower;
    var d' := AfterLoss(d, keep, junk);
    var vs, vs' := d.versions[t], d'.versions[t];
    LossEntry(d, keep, junk, t);
    var k := LossRestores(d, keep, junk, t);
    assert vs' == vs + [Show(d', t)] && vs'[|vs|] == vs[k];
    forall j | 0 <= j < |vs'| ensures Frozen(d', vs'[j]) {
      assert Frozen(d, if j < |vs| then vs[j] else vs[k]);
    }
    forall o | MayBe(d', t, o) ensures Covered(vs', d'.floor[t], o) {
      assert VersionEntry(vs'[|vs|]) == o;
    }
  }

  lemma LossDisk(d: Disk, keep: map<Name, Option<Ino>>, junk: map<Ino, Bytes>)
    requires DiskOk(d) && CanLosePower(d, keep)
    ensures var d' := AfterLoss(d, keep, junk); DiskOk(d') && Grows(d, d')
  {
    hide Paths.GoodTargets, Paths.ChecksumPath, CanLosePower, HistoryOk, MayBe, Grows;
    LossGrows(d, keep, junk);
    var d' := AfterLoss(d, keep, junk);
    forall n, i | MayBe(d', n, Some(i)) ensures i in d'.inodes {
      LossEntry(d, keep, junk, n);
      assert MayBe(d, n, Some(i));
    }
    forall t | t in d.targets ensures HistoryOk(d', t) && SideOk(d', t) {
      LossHistory(d, keep, junk, t);
      LossEntry(d, keep, junk, Paths.ChecksumPath(t));
      assert SideOk(d, t);
    }
    LossFreezes(d, keep, junk);
  }

  lemma LossGrows(d: Disk, keep: map<Name, Option<Ino>>, junk: map<Ino, Bytes>)
    requires DiskOk(d) && CanLosePower(d, keep)
    ensures Grows(d, AfterLoss(d, keep, junk))
  {
    hide Paths.GoodTargets, Paths.ChecksumPath, CanLosePower, HistoryOk, SideOk, MayBe;
    forall t | t in d.targets ensures d.floor[t] <= |d.versions[t]| {
      FloorIsBelow(d, t);
    }
    LossFreezes(d, keep, junk);
  }

  lemma FloorIsBelow(d: Disk, t: Name)
    requires DiskOk(d) && t in d.targets
    ensures d.acked[t] <= d.floor[t] < |d.versions[t]|
  {
    assert HistoryOk(d, t);
  }

  /** Nothing published is unsynced, so power loss touches no published inode. */
  lemma LossFreezes(d: Disk, keep: map<Name, Option<Ino>>, junk: map<Ino, Bytes>)
    requires NamesOk(d) && CanLosePower(d, keep)
    ensures forall i | i in d.inodes && d.inodes[i].kind.Published? :: AfterLoss(d, keep, junk).inodes[i] == d.inodes[i]
  {
  }

  // ----- every step keeps the invariant -----------------------------------------------------------

  /** The writer step `w` takes leaves the disk in order, harms no other writer, and leaves `w` in order. */
  ghost predicate StepsWell(d: Disk, w: Id, x: Writer, step: WriterStep)
    requires CanWriter(d, w, x, step)
  {
    var d' := NextDisk(d, w, x, step);
    && DiskOk(d') && Grows(d, d')
    && (forall u | u != w :: Spared(d, d', u))
    && WriterOk(d', w, x.(pc := NextPc(d, w, x, step)))
  }

  lemma CreateSteps(d: Disk, w: Id, x: Writer, tmp: Name, ino: Ino)
    requires DiskOk(d) && WriterOk(d, w, x) && CanWriter(d, w, x, Create(tmp, ino))
    ensures StepsWell(d, w, x, Create(tmp, ino))
  {
    hide DiskOk, Grows, Spared, Paths.IsTmpName;
    DiskIsNamed(d);
    CreateDisk(d, w, tmp, ino);
  }

  /** Writing through one of its own file descriptors harms nobody. */
  lemma FillOwn(d: Disk, w: Id, x: Writer, ino: Ino, data: Bytes, durable: bool)
    requires DiskOk(d) && WriterOk(d, w, x) && ino in d.inodes
    requires (x.pc.Open? && ino == x.pc.ino) || (x.pc.Rewriting? && ino == x.pc.side)
    ensures var d' := Fill(d, ino, data, durable);
      DiskOk(d') && Grows(d, d') && (forall u | u != w :: Spared(d, d', u))
  {
    OwnKind(d, w, x);
    hide DiskOk, NamesOk, Grows, Spared, WriterOk;
    FillDisk(d, ino, data, durable);
  }

  lemma OwnKind(d: Disk, w: Id, x: Writer)
    requires DiskOk(d) && WriterOk(d, w, x)
    ensures x.pc.Open? ==> x.pc.ino in d.inodes && d.inodes[x.pc.ino].kind == Scratch(w)
    ensures x.pc.Rewriting? ==> x.pc.side in d.inodes && d.inodes[x.pc.side].kind.Sidecar?
  {
  }

  lemma FilledIsOk(d: Disk, w: Id, x: Writer, ino: Ino, data: Bytes, durable: bool, pc: WriterPc)
    requires NamesOk(d) && WriterOk(d, w, x) && ino in d.inodes
    requires x.pc.Open? ==> ino == x.pc.ino
    requires x.pc.Open? ==>
      || pc == Open(x.pc.tmp, ino, data)
      || (pc == Synced(x.pc.tmp, ino, data) && durable && GoalMet(x, data))
    requires !x.pc.Open? ==>
      && x.pc.Rewriting? && pc.Rewriting? && pc == x.pc.(offset := pc.offset) && ino == x.pc.side
      && (pc.text.Some? ==> pc.offset <= |pc.text.value|)
    ensures WriterOk(Fill(d, ino, data, durable), w, x.(pc := pc))
  {
    hide NamesOk, Paths.IsTmpName;
    DiskKeys(d);
  }

  lemma DiskKeys(d: Disk)
    requires NamesOk(d)
    ensures d.versions.Keys == d.floor.Keys == d.acked.Keys == d.targets
  {
  }

  lemma FillSteps(d: Disk, w: Id, x: Writer, step: WriterStep)
    requires DiskOk(d) && WriterOk(d, w, x) && CanWriter(d, w, x, step)
    requires step.Write? || step.Flush? || step.Sync? || step.WriteSide?
    ensures StepsWell(d, w, x, step)
  {
    hide DiskOk, NamesOk, Grows, Spared, Overwrite, WriterOk;
    DiskIsNamed(d);
    ScratchData(d, w, x);
    var d', pc' := NextDisk(d, w, x, step), NextPc(d, w, x, step);
    var ino := if step.WriteSide? then x.pc.side else x.pc.ino;
    FillOwn(d, w, x, ino, d'.inodes[ino].data, d'.inodes[ino].durable);
    FilledIsOk(d, w, x, ino, d'.inodes[ino].data, d'.inodes[ino].durable, pc');
  }

  lemma ScratchData(d: Disk, w: Id, x: Writer)
    requires NamesOk(d) && WriterOk(d, w, x)
    ensures x.pc.Open? ==> x.pc.ino in d.inodes && d.inodes[x.pc.ino].data == x.pc.accepted
    ensures x.pc.Rewriting? ==> x.pc.side in d.inodes && (x.pc.text.Some? ==> x.pc.offset <= |x.pc.text.value|)
  {
  }

  lemma CleanSteps(d: Disk, w: Id, x: Writer, ok: bool)
    requires DiskOk(d) && WriterOk(d, w, x) && CanWriter(d, w, x, Clean(ok))
    ensures StepsWell(d, w, x, Clean(ok))
  {
    hide NamesOk, SidesOk, HistoryOk, Grows, Spared, Paths.IsTmpName;
    DiskIsNamed(d);
    NothingChanges(d);
    var orphan := x.pc.orphan;
    if ok && orphan.Some? {
      UnlinkDisk(d, w, orphan.value);
      RaisedIsOk(SetEntry(d, orphan.value, None), w, x, false);
    } else {
      RaisedIsOk(d, w, x, false);
    }
  }

  lemma RaisedIsOk(d: Disk, w: Id, x: Writer, placed: bool)
    requires NamesOk(d) && x.target in d.targets
    ensures WriterOk(d, w, x.(pc := Raised(placed)))
  {
  }

  lemma ScratchIsReady(d: Disk, w: Id, x: Writer)
    requires NamesOk(d) && WriterOk(d, w, x) && x.pc.Closed?
    ensures x.target in d.targets && Paths.IsTmpName(x.pc.tmp)
    ensures x.pc.tmp in d.dir && d.dir[x.pc.tmp] in d.inodes
    ensures d.inodes[d.dir[x.pc.tmp]] == Inode(x.pc.accepted, true, Scratch(w))
    ensures GoalMet(x, x.pc.accepted)
  {
  }

  lemma PlacedIsOk(d: Disk, w: Id, x: Writer, content: Bytes)
    requires NamesOk(d) && x.target in d.targets && GoalMet(x, content)
    requires d.versions[x.target] != []
    requires var v := d.versions[x.target][|d.versions[x.target]| - 1]; v.Present? && v.data == content
    ensures WriterOk(d, w, x.(pc := Placed(|d.versions[x.target]| - 1, content)))
  {
  }

  lemma PlaceSteps(d: Disk, w: Id, x: Writer)
    requires DiskOk(d) && WriterOk(d, w, x) && CanWriter(d, w, x, Place)
    ensures StepsWell(d, w, x, Place)
  {
    hide DiskOk, NamesOk, Grows, Spared, WriterOk, Rename, GoalMet, Paths.IsTmpName;
    DiskIsNamed(d);
    ScratchIsReady(d, w, x);
    var d' := Rename(d, x.pc.tmp, x.target);
    RenameDisk(d, w, x.pc.tmp, x.target);
    DiskIsNamed(d');
    PlacedIsOk(d', w, x, x.pc.accepted);
  }

  lemma DurableIsOk(d: Disk, w: Id, x: Writer)
    requires NamesOk(d) && WriterOk(d, w, x) && x.pc.Placed?
    requires x.safety == Strict ==> x.pc.version <= d.floor[x.target]
    ensures WriterOk(d, w, x.(pc := Durable(x.pc.version, x.pc.content)))
  {
  }

  lemma SyncDirSteps(d: Disk, w: Id, x: Writer, ok: bool)
    requires DiskOk(d) && WriterOk(d, w, x) && CanWriter(d, w, x, SyncDir(ok))
    ensures StepsWell(d, w, x, SyncDir(ok))
  {
    hide DiskOk, NamesOk, Grows, Spared, WriterOk, Settle;
    DiskIsNamed(d);
    PlacedVersion(d, w, x);
    NothingChanges(d);
    if ok {
      SettleDisk(d);
      DiskIsNamed(Settle(d));
      WriterRelies(d, Settle(d), w, x);
      DurableIsOk(Settle(d), w, x);
    } else if x.safety == Strict {
      RaisedIsOk(d, w, x, true);
    } else {
      DurableIsOk(d, w, x);
    }
  }

  lemma PlacedVersion(d: Disk, w: Id, x: Writer)
    requires NamesOk(d) && WriterOk(d, w, x) && (x.pc.Placed? || x.pc.Durable? || x.pc.Rewriting?)
    ensures x.target in d.targets && x.pc.version < |d.versions[x.target]|
    ensures !x.pc.Placed? && x.safety == Strict ==> x.pc.version <= d.floor[x.target]
  {
  }

  lemma TargetKnown(d: Disk, w: Id, x: Writer)
    requires NamesOk(d) && WriterOk(d, w, x)
    ensures x.target in d.targets
  {
  }

  /** Steps in the writer's program alone. */
  lemma ProgramSteps(d: Disk, w: Id, x: Writer, step: WriterStep)
    requires DiskOk(d) && WriterOk(d, w, x) && CanWriter(d, w, x, step)
    requires step.Hash? || step.FailLate? || step.Close? || step.Break?
    ensures StepsWell(d, w, x, step)
  {
    hide NamesOk, SidesOk, HistoryOk, Grows, Spared, Paths.IsTmpName, SidecarBytes;
    DiskIsNamed(d);
    NothingChanges(d);
  }

  lemma TruncateSteps(d: Disk, w: Id, x: Writer, ino: Ino)
    requires DiskOk(d) && WriterOk(d, w, x) && CanWriter(d, w, x, Truncate(ino))
    ensures StepsWell(d, w, x, Truncate(ino))
  {
    hide NamesOk, SidesOk, HistoryOk, Grows, Spared, Paths.ChecksumPath, Reopen;
    DiskIsNamed(d);
    ReopenDisk(d, x.target, ino);
    ReopenHistory(d, x.target, ino);
  }

  lemma ReopenHistory(d: Disk, t: Name, ino: Ino)
    ensures var d' := Reopen(d, t, ino);
      d'.versions == d.versions && d'.floor == d.floor && d'.acked == d.acked && d'.targets == d.targets
  {
    hide Paths.ChecksumPath;
  }

  lemma ReturnedIsOk(d: Disk, w: Id, x: Writer)
    requires NamesOk(d) && WriterOk(d, w, x) && MayReturn(x)
    requires x.safety == Strict ==> x.pc.version <= d.acked[x.target]
    ensures WriterOk(d, w, x.(pc := Returned(x.pc.version, x.pc.content)))
  {
  }

  lemma ReturnSteps(d: Disk, w: Id, x: Writer)
    requires DiskOk(d) && WriterOk(d, w, x) && CanWriter(d, w, x, Return)
    ensures StepsWell(d, w, x, Return)
  {
    hide DiskOk, NamesOk, Grows, Spared, WriterOk, Acknowledge;
    DiskIsNamed(d);
    PlacedVersion(d, w, x);
    NothingChanges(d);
    if x.safety == Strict {
      var d' := Acknowledge(d, x.target, x.pc.version);
      AcknowledgeDisk(d, x.target, x.pc.version);
      DiskIsNamed(d');
      WriterRelies(d, d', w, x);
      ReturnedIsOk(d', w, x);
    } else {
      ReturnedIsOk(d, w, x);
    }
  }

  lemma LockSteps(d: Disk, w: Id, x: Writer, entry: Option<Ino>)
    requires DiskOk(d) && WriterOk(d, w, x) && CanWriter(d, w, x, LockEntry(entry))
    ensures StepsWell(d, w, x, LockEntry(entry))
  {
    hide DiskOk, NamesOk, Grows, Spared, WriterOk, SetEntry, AddInode, Paths.LockPath;
    var d' := NextDisk(d, w, x, LockEntry(entry));
    DiskIsNamed(d);
    TargetKnown(d, w, x);
    LockDisk(d, x.target, entry);
    DiskIsNamed(d');
    WriterRelies(d, d', w, x);
  }

  lemma WriterSteps(d: Disk, w: Id, x: Writer, step: WriterStep)
    requires DiskOk(d) && WriterOk(d, w, x) && CanWriter(d, w, x, step)
    requires !step.Collide? && !step.Forget?
    ensures StepsWell(d, w, x, step)
  {
    hide DiskOk, WriterOk, CanWriter, StepsWell;
    match step {
      case Create(tmp, ino) => CreateSteps(d, w, x, tmp, ino);
      case Write(_) => FillSteps(d, w, x, step);
      case Flush => FillSteps(d, w, x, step);
      case Sync => FillSteps(d, w, x, step);
      case WriteSide(_) => FillSteps(d, w, x, step);
      case Clean(ok) => CleanSteps(d, w, x, ok);
      case Place => PlaceSteps(d, w, x);
      case SyncDir(ok) => SyncDirSteps(d, w, x, ok);
      case Return => ReturnSteps(d, w, x);
      case LockEntry(entry) => LockSteps(d, w, x, entry);
      case Truncate(ino) => TruncateSteps(d, w, x, ino);
      case _ => ProgramSteps(d, w, x, step);
    }
  }

  lemma LatestIsShown(d: Disk, t: Name)
    requires DiskOk(d) && t in d.targets && t in d.dir
    ensures d.versions[t] != [] && d.versions[t][Latest(d, t)] == Present(d.dir[t], d.versions[t][Latest(d, t)].data)
  {
    assert HistoryOk(d, t);
  }

  lemma VersionIsFrozen(d: Disk, t: Name, k: nat)
    requires DiskOk(d) && t in d.targets && k < |d.versions[t]|
    ensures Frozen(d, d.versions[t][k])
  {
    assert HistoryOk(d, t);
  }

  lemma ReaderSteps(d: Disk, x: Reader, step: ReaderStep)
    requires DiskOk(d) && ReaderOk(d, x) && CanReader(d, x, step)
    ensures ReaderOk(d, x.(pc := NextReader(d, x, step)))
  {
    hide NamesOk, SidesOk, HistoryOk, Paths.ChecksumPath, SidecarText.ParseBytes;
    DiskIsNamed(d);
    if x.pc.Reading? {
      VersionIsFrozen(d, x.target, x.pc.version);
    } else if step.OpenTarget? && x.target in d.dir {
      LatestIsShown(d, x.target);
    }
  }

  /** The step that keeps everything: only a clash of temporary names is left out. */
  lemma StepKeeps(s: State, step: Step)
    requires Inv(s) && Can(s, step) && !Collides(step)
    ensures Inv(Do(s, step)) && Grows(s.d, Do(s, step).d)
  {
    hide DiskOk, Grows, Spared, WriterOk, ReaderOk, CanWriter, CanReader, NextDisk, NextPc, NextReader, AfterLoss;
    NothingChanges(s.d);
    DiskIsNamed(s.d);
    match step {
      case Begin(w, x) => BeginIsOk(s.d, w, x);
      case W(w, wstep) =>
        if !wstep.Forget? {
          WriterSteps(s.d, w, s.writers[w], wstep);
          WriterStepKeeps(s, Do(s, step), w);
        }
      case StartRead(r, x) => StartIsOk(s.d, x);
      case R(r, rstep) => if !rstep.Forgo? { ReaderSteps(s.d, s.readers[r], rstep); }
      case PowerLoss(keep, junk) => LossDisk(s.d, keep, junk);
    }
  }

  lemma BeginIsOk(d: Disk, w: Id, x: Writer)
    requires NamesOk(d) && x.pc.Begun? && x.target in d.targets
    ensures WriterOk(d, w, x)
  {
  }

  lemma StartIsOk(d: Disk, x: Reader)
    requires DiskOk(d) && x.pc.Started? && x.target in d.targets && x.since == Latest(d, x.target)
    ensures ReaderOk(d, x)
  {
    assert HistoryOk(d, x.target);
  }

  lemma NothingChanges(d: Disk)
    ensures Grows(d, d) && forall u :: Spared(d, d, u)
  {
  }
}
