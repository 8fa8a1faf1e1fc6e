/**
  The way `AtomicWriter` is meant to be used (src/safeatomic/_io_core.py:879-1002):

      with AtomicWriter(target, ...) as w:
          w.write(data)

  What the constructor is given is what the block does.
 */
module WriterBlock {
  import opened Basics
  import S = Storage
  import SI = StorageInvariant
  import opened Composite
  import opened Machine
  import opened SystemCalls
  import WriteCore
  import WC = WriterCalls
  import opened AtomicWriterObject

  /** What the calls of one plain block make of the object. */
  lemma OneBlock(locking: bool, data: Bytes, written: nat, exit: WC.Call)
    requires written <= |data| && exit.Exit?
    ensures var o := WC.Step(WC.New(locking), WC.Enter(WC.Entered));
      && !o.committed && !o.aborted && o.placed == []
    ensures var o := WC.Step(WC.Step(WC.New(locking), WC.Enter(WC.Entered)), WC.Write(data, written));
      && !o.committed && !o.aborted && o.placed == []
      && WC.Step(o, exit).inside.None?
      && WC.Step(o, exit).placed == if exit.failed || exit.fate.FailedBeforeReplace? then [] else [data[..written]]
  {
    assert [] + data[..written] == data[..written];
  }

  /** The body of the block and its end. */
  method UseBlock(o: AtomicWriter, data: Bytes) returns (raised: bool)
    requires o.Valid() && o.Told() && o.fd.Some? && o.o == WC.Step(WC.New(o.locking), WC.Enter(WC.Entered))
    modifies o, o.p
    ensures o.Valid() && o.Told() && o.fd.None? && o.id == old(o.id)
    ensures o.p.open == old(o.p.open) - {old(o.fd).value} && old(o.p.failures) <= o.p.failures
    ensures Replacements(o.p.mine) <= old(Replacements(o.p.mine)) + 1
    ensures !raised ==>
      && o.CommitReturned() && o.o.placed[|o.o.placed| - 1] == data
      && Replacements(o.p.mine) == old(Replacements(o.p.mine)) + 1
      && old(S.Latest(o.p.c.s.d, o.target)) < o.versions[|o.versions| - 1]
  {
    hide Inv, Adds, OwnOf, Reaches, Replacements, Shows, Gone, S.Latest, SI.Grows, Turn, WC.Possible, WC.Run, WC.Step;
    hide NewFailures, AllShow, CommitRelease, GivenBack, ReleaseShows, Process.Valid, CameAfter, Keeps, LateFate;
    hide o.CommitReturned, o.LockOk, o.PlacedOk, o.Reasons;
    var call, failed := o.Write(data);
    label written:
    Later(o.p, old(o.p.c), o.p.c, o.id, o.target);
    var exit, ended, release := o.Exit(failed);
    OneBlock(o.locking, data, call.written, exit);
    assert data[..|data|] == data;
    raised := ended || failed;
  }

  lemma Later(p: Process, c: State, c': State, w: S.Id, target: S.Name)
    requires Keeps(p.me, c, c', {w}, {})
    ensures S.Latest(c.s.d, target) <= S.Latest(c'.s.d, target)
  {
    WriteCore.Grown(p.me, c, c', {w}, {});
    WriteCore.LatestOf(c.s.d, c'.s.d, target);
  }

  predicate NoneOf(before: seq<Failure>, after: seq<Failure>, kinds: set<Failure>)
  {
    NewFailures(before, after) * kinds == {}
  }

  /** What a returned commit leaves of the block. */
  lemma BlockHasPlaced(o: AtomicWriter)
    requires o.Valid() && o.CommitReturned()
    ensures var v, d := o.versions[|o.versions| - 1], o.p.c.s.d;
      && Shows(d, o.target, v, o.o.placed[|o.o.placed| - 1])
      && (o.safety == S.Strict ==> o.target in d.acked && v <= d.acked[o.target])
    ensures o.locking && o.sidecar ==> WriteCore.SidecarLeft(o.p, o.id)
  {
    hide Inv, Reaches, AllShow, OwnOf, GoodNames, Owned, CameAfter, SI.Grows;
    hide Shows, WriteCore.SidecarLeft, Turn, Gone, o.FileOk, o.LockOk, o.PlacedOk, LockPc;
    OwnVersion(o.p.c, o.id);
    if o.locking && o.sidecar { SidecarAfterCommit(o); }
  }

  lemma LockIsBack(o: AtomicWriter)
    requires o.Valid() && o.Told() && o.fd.None?
    ensures o.locking && o.damaged == {} && NoneOf(o.began, o.p.failures, {DirFsync, LockRead, LockUnlink}) ==>
      LockPc(o.p.me, o.p.c).Idle?
  {
    hide o.Valid, o.Told, NewFailures;
    if o.locking && o.damaged == {} && NoneOf(o.began, o.p.failures, {DirFsync, LockRead, LockUnlink}) {
      var failed := NewFailures(o.began, o.p.failures);
      assert DirFsync !in failed * {DirFsync, LockRead, LockUnlink};
      assert failed * {LockRead, LockUnlink} <= failed * {DirFsync, LockRead, LockUnlink};
      o.LockIsGivenBack();
    }
  }

  /**
    A block that ends without an error has replaced the target once, by
    exactly `data`, as a version it did not have before; a strict one is
    acknowledged, one with a sidecar has left a sidecar made with `algo`
    that speaks for it, and its lock is given back unless a release call
    failed or the lock file was found damaged.
   */
  method WriteBlock(p: Process, w: S.Id, tmp: S.Name, target: S.Name, locking: bool, safety: S.Safety, sidecar: bool,
                    algo: string, retries: nat, delay: bool, data: Bytes)
    returns (raised: bool, ghost version: nat, ghost damaged: set<nat>)
    requires p.Valid() && target in p.c.s.d.targets && (locking <==> target == p.c.t)
    requires locking ==> LockPc(p.me, p.c).Idle?
    requires w in p.me.ids && w !in p.c.s.writers && w !in p.c.blocks
    requires tmp in p.me.names && tmp !in p.c.s.d.dir
    modifies p
    ensures p.Valid() && p.open == old(p.open)
    ensures Replacements(p.mine) <= old(Replacements(p.mine)) + 1
    ensures !raised ==>
      && Replacements(p.mine) == old(Replacements(p.mine)) + 1
      && Shows(p.c.s.d, target, version, data) && old(S.Latest(p.c.s.d, target)) < version
      && w in p.c.s.writers
      && p.c.s.writers[w] == S.Writer(target, safety, sidecar, algo, None, S.Returned(version, data))
    ensures !raised && safety == S.Strict ==> target in p.c.s.d.acked && version <= p.c.s.d.acked[target]
    ensures !raised && locking && sidecar ==> WriteCore.SidecarLeft(p, w)
    ensures old(p.failures) <= p.failures
    ensures locking && damaged == {} && NoneOf(old(p.failures), p.failures, {DirFsync, LockRead, LockUnlink}) ==>
      LockPc(p.me, p.c).Idle?
  {
    hide Inv, Adds, Keeps, OwnOf, Reaches, Replacements, Shows, Gone, S.Latest, SI.Grows, Turn, WC.Possible, WC.Run;
    hide WriteCore.SidecarLeft, NewFailures, AllShow, GivenBack, ReleaseShows, Process.Valid;
    var o := new AtomicWriter(p, target, locking, safety, sidecar, algo, retries, delay);
    version := 0;
    var call, attempt, creates, sleeps, release;
    call, raised, attempt, creates, sleeps, release := o.Enter(w, tmp);
    damaged := o.damaged;
    if raised {
      LockIsBack(o);
      return;
    }
    WriteCore.LatestOf(old(p.c.s.d), p.c.s.d, target);
    raised := UseBlock(o, data);
    damaged := o.damaged;
    LockIsBack(o);
    if !raised {
      version := o.versions[|o.versions| - 1];
      BlockHasPlaced(o);
    }
  }
}
