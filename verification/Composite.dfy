/**
  Writers of one target that use the cooperative lock: the persistence
  protocol and the lock-file protocol run together.  Writers of other targets,
  readers, deaths and failing system calls interleave freely with them.

  Two kinds of writers share the target.  An `AtomicWriter` holds the lock
  until its sidecar is written (src/safeatomic/_io_core.py:1057-1123).
  `_write_core` releases it right after the replace, before the directory
  fsync and the sidecar (src/safeatomic/_io_core.py:418-446).  Only the latter
  is handed all of its data at once, and so has a goal.
 */
module Composite {
  import opened Basics
  import Paths
  import S = Storage
  import SI = StorageInvariant
  import ST = StorageTheorems
  import L = LockProtocol

  type Change = Option<Bytes> -> Bytes

  /**
    One writer's stay in the lock.  `entered` is the version that was current
    when it began, `view` what the application read of the target since
    (`Some(None)`: there was no file), `change` what it makes of that.  Without
    a view the application overwrites the target blindly.
   */
  datatype Block = Block(actor: L.Actor, epoch: nat, entered: nat, change: Change, view: Option<Option<Bytes>>)

  /** What a sidecar was made from: the version of the target that was hashed, and the time that was noted. */
  datatype Hashing = Hashing(version: nat, timestamp: string)

  /**
    `wholeOnly`: every locked writer of the target is an `AtomicWriter`.
    History variables: `base` the target's first content; `shown[i]` the
    changes that version `i` is made of; `from` the version the last power
    loss left; `last` who committed last since; `hashed` the version each
    block made its sidecar for, and when; `scribe` who emptied the sidecar last.
   */
  datatype State = State(wholeOnly: bool, t: S.Name, base: Option<Bytes>, s: S.State, l: L.State,
                         blocks: map<S.Id, Block>, shown: seq<seq<Change>>, from: nat, last: Option<S.Id>,
                         hashed: map<S.Id, Hashing>, scribe: Option<S.Id>)

  /** The changes the target is made of now. */
  function Log(c: State): seq<Change>
  {
    if c.shown == [] then [] else c.shown[|c.shown| - 1]
  }

  datatype Step =
    | Lock(lstep: L.Step)
    | Enter(a: L.Actor, w: S.Id, writer: S.Writer, change: Change)
    | Look(w: S.Id, r: S.Id)
    | LookAbsent(w: S.Id)
    | Disk(dstep: S.Step)
    | Loss(keep: map<S.Name, Option<S.Ino>>, junk: map<S.Ino, Bytes>, file: Option<L.LockFile>, k: nat)

  /** The block's process is alive and has the lock it entered with. */
  predicate Held(c: State, w: S.Id)
    requires w in c.blocks
  {
    var b := c.blocks[w];
    L.Alive(c.l, b.actor) && c.l.procs[b.actor].pc == L.Holding(b.epoch)
  }

  predicate BeforeReplace(pc: S.WriterPc)
  {
    pc.Begun? || pc.Open? || pc.Synced? || pc.Closed? || pc.Doomed?
  }

  predicate AfterReplace(pc: S.WriterPc)
  {
    pc.Placed? || pc.Durable? || pc.Hashed? || pc.Rewriting?
  }

  /** When the code releases the lock it took. */
  predicate MayRelease(x: S.Writer)
  {
    x.pc.Returned? || x.pc.Raised? || (x.goal.Some? && AfterReplace(x.pc))
  }

  predicate CanBlockStep(c: State, w: S.Id, step: S.WriterStep)
    requires w in c.blocks && w in c.s.writers && S.CanWriter(c.s.d, w, c.s.writers[w], step)
  {
    var b, x := c.blocks[w], c.s.writers[w];
    && !step.Forget?
    && L.Alive(c.l, b.actor)
    && (if x.goal.None? || BeforeReplace(x.pc) then Held(c, w) else c.l.procs[b.actor].pc.Idle?)
    && (step.Place? && b.view.Some? ==> x.pc.accepted == b.change(b.view.value))
  }

  /** Lock steps follow the rules of exclusion, and a lock is given back only when its block lets it go. */
  predicate CanLock(c: State, step: L.Step)
  {
    && L.Can(c.l, step) && L.Careful(c.l, step)
    && (step.InspectOwn? && c.l.procs[step.a].pc.Holding? ==>
          forall w | w in c.blocks && w in c.s.writers && c.blocks[w].actor == step.a && Held(c, w) ::
            MayRelease(c.s.writers[w]))
  }

  predicate Can(c: State, step: Step)
  {
    match step
    case Lock(lstep) => CanLock(c, lstep)
    // one writer for each time the lock is taken
    case Enter(a, w, x, _) =>
      && L.Alive(c.l, a) && c.l.procs[a].pc.Holding?
      && (forall v | v in c.blocks :: c.blocks[v].actor == a ==> !Held(c, v))
      && w !in c.blocks && x.target == c.t && (c.wholeOnly ==> x.goal.None?) && S.Can(c.s, S.Begin(w, x))
    // a whole read of the target, begun inside the block; `_write_core` is handed its data ready-made
    case Look(w, r) =>
      && w in c.blocks && Held(c, w) && w in c.s.writers && c.s.writers[w].goal.None?
      && r in c.s.readers && c.s.readers[r].target == c.t && c.s.readers[r].pc.Got?
      && c.blocks[w].entered <= c.s.readers[r].since
    case LookAbsent(w) =>
      && w in c.blocks && Held(c, w) && w in c.s.writers && c.s.writers[w].goal.None?
      && S.Show(c.s.d, c.t).Absent?
    case Disk(dstep) =>
      && S.Can(c.s, dstep) && !dstep.PowerLoss? && !S.Collides(dstep)
      && (dstep.Begin? ==> dstep.writer.target != c.t)
      && (dstep.W? && dstep.w in c.blocks ==> CanBlockStep(c, dstep.w, dstep.wstep))
    // power loss: the target is back as version `k`, the lock file as anything some process once made of it
    case Loss(keep, junk, file, k) =>
      && S.CanLosePower(c.s.d, keep)
      && c.t in c.s.d.versions && c.t in c.s.d.floor && c.s.d.floor[c.t] <= k < |c.s.d.versions[c.t]|
      && S.Show(S.AfterLoss(c.s.d, keep, junk), c.t) == c.s.d.versions[c.t][k]
      && (file.Some? ==> MayReappear(c.l, file.value))
  }

  predicate MayReappear(l: L.State, f: L.LockFile)
  {
    && f.creator in l.procs && f.epoch < l.next
    && (f.payload.Doc? ==> f.payload.id == l.procs[f.creator].id)
  }

  /** Every process is dead; the lock file is what the disk makes of it. */
  function AfterCrash(l: L.State, file: Option<L.LockFile>): L.State
  {
    l.(file := file, procs := map a | a in l.procs :: l.procs[a].(alive := false))
  }

  predicate Commits(c: State, dstep: S.Step)
  {
    dstep.W? && dstep.wstep.Place? && dstep.w in c.blocks
  }

  function Committed(c: State, w: S.Id): Change
    requires w in c.blocks && w in c.s.writers && c.s.writers[w].pc.Closed?
  {
    if c.blocks[w].view.Some? then c.blocks[w].change
    else
      var data := c.s.writers[w].pc.accepted;
      before => data
  }

  function Do(c: State, step: Step): State
    requires Can(c, step)
  {
    match step
    case Lock(lstep) => c.(l := L.Do(c.l, lstep))
    case Enter(a, w, x, change) =>
      c.(s := S.Do(c.s, S.Begin(w, x)),
         blocks := c.blocks[w := Block(a, c.l.procs[a].pc.epoch, S.Latest(c.s.d, c.t), change, None)])
    case Look(w, r) => c.(blocks := c.blocks[w := c.blocks[w].(view := Some(Some(c.s.readers[r].pc.content)))])
    case LookAbsent(w) => c.(blocks := c.blocks[w := c.blocks[w].(view := Some(None))])
    case Disk(dstep) =>
      Noted(c, dstep, c.(s := S.Do(c.s, dstep)))
    case Loss(keep, junk, file, k) =>
      c.(s := S.Do(c.s, S.PowerLoss(keep, junk)), l := AfterCrash(c.l, file), blocks := map[],
         shown := c.shown + [if k < |c.shown| then c.shown[k] else []], from := |c.s.d.versions[c.t]|,
         last := None, hashed := map[], scribe := None)
  }

  /** The history variables after a step of the disk. */
  function Noted(c: State, dstep: S.Step, c1: State): State
    requires Can(c, Disk(dstep))
  {
    if dstep.W? && dstep.w in c.blocks then
      match dstep.wstep
      case Place => c1.(shown := c.shown + [Log(c) + [Committed(c, dstep.w)]], last := Some(dstep.w))
      case Hash(timestamp) => c1.(hashed := c.hashed[dstep.w := Hashing(S.Latest(c.s.d, c.t), timestamp)])
      case Truncate(_) => c1.(scribe := Some(dstep.w))
      case _ => c1
    else c1
  }

  function Exec(c: State, run: seq<Step>): Option<State>
    decreases |run|
  {
    if run == [] then Some(c)
    else if Can(c, run[0]) then Exec(Do(c, run[0]), run[1..])
    else None
  }

  ghost predicate Init(c: State)
  {
    && S.Init(c.s) && c.t in c.s.d.targets && c.base == ST.Content(S.Show(c.s.d, c.t))
    && c.l == L.START && c.blocks == map[] && c.shown == [[]] && c.from == 0
    && c.last == None && c.hashed == map[] && c.scribe == None
  }

  // ----- what the target should hold -----------------------------------------------------

  /** The content after the changes in `log`, each applied to what the one before it left. */
  function Fold(base: Option<Bytes>, log: seq<Change>): Option<Bytes>
    decreases |log|
  {
    if log == [] then base else Some(log[|log| - 1](Fold(base, log[..|log| - 1])))
  }

  lemma FoldSnoc(base: Option<Bytes>, log: seq<Change>, change: Change)
    ensures Fold(base, log + [change]) == Some(change(Fold(base, log)))
  {
    assert (log + [change])[..|log|] == log;
  }

  // ----- the invariant --------------------------------------------------------------------

  ghost predicate BlockOk(c: State, w: S.Id)
    requires w in c.blocks
  {
    var b := c.blocks[w];
    && w in c.s.writers && (c.wholeOnly ==> c.s.writers[w].goal.None?)
    && b.actor in c.l.procs && b.epoch < c.l.next && c.l.procs[b.actor].pc != L.Created(b.epoch)
  }

  /** While it may still replace the target, a block has seen the current content. */
  ghost predicate ViewOk(c: State, w: S.Id)
    requires w in c.blocks && w in c.s.writers
  {
    Held(c, w) && BeforeReplace(c.s.writers[w].pc) ==>
      && c.blocks[w].entered == S.Latest(c.s.d, c.t)
      && (c.blocks[w].view.Some? ==> c.blocks[w].view.value == ST.Content(S.Show(c.s.d, c.t)))
  }

  /** Writers of the target are exactly the blocks, and each has a lock acquisition of its own. */
  ghost predicate BlocksOk(c: State)
  {
    && (forall w | w in c.blocks :: BlockOk(c, w))
    && (forall w | w in c.s.writers :: c.s.writers[w].target == c.t <==> w in c.blocks)
    && (forall v, w | v in c.blocks && w in c.blocks && Held(c, v) && Held(c, w) :: v == w)
  }

  ghost predicate LogOk(c: State)
  {
    && c.t in c.s.d.versions && c.shown != [] && |c.shown| == |c.s.d.versions[c.t]|
    && forall k | 0 <= k < |c.shown| :: ST.Content(c.s.d.versions[c.t][k]) == Fold(c.base, c.shown[k])
  }

  ghost predicate Inv(c: State)
  {
    && SI.Inv(c.s) && L.Inv(c.l) && c.t in c.s.d.targets
    && BlocksOk(c) && LogOk(c)
    && (forall w | w in c.blocks && w in c.s.writers :: ViewOk(c, w))
  }

  lemma InitHolds(c: State)
    requires Init(c)
    ensures Inv(c)
  {
    SI.InitHolds(c.s);
    FirstVersion(c.s, c.t);
    hide S.Init, SI.Inv;
  }

  lemma FirstVersion(s: S.State, t: S.Name)
    requires S.Init(s) && t in s.d.targets
    ensures s.writers == map[] && t in s.d.versions
    ensures s.d.versions[t] == [S.Show(s.d, t)]
  {
  }

  // ----- lock steps ---------------------------------------------------------------------------

  /** Exclusion, as the blocks see it. */
  lemma OneHolder(l: L.State, a: L.Actor, b: L.Actor, d: nat, e: nat)
    requires L.Inv(l) && L.Alive(l, a) && L.Alive(l, b)
    requires l.procs[a].pc == L.Holding(d) && l.procs[b].pc == L.Holding(e)
    ensures a == b && d == e
  {
    assert L.ProcOk(l, a) && L.ProcOk(l, b);
  }

  /** A lock once let go of is never held again under the same epoch. */
  lemma EpochsAreNotReused(l: L.State, step: L.Step, a: L.Actor, epoch: nat)
    requires L.Can(l, step) && a in l.procs && epoch < l.next && l.procs[a].pc != L.Created(epoch)
    ensures var l' := L.Do(l, step);
      && a in l'.procs && epoch < l'.next && l'.procs[a].pc != L.Created(epoch)
      && (L.Alive(l', a) && l'.procs[a].pc == L.Holding(epoch) ==> L.Alive(l, a) && l.procs[a].pc == L.Holding(epoch))
  {
    hide L.Running;
  }

  lemma LockKeeps(c: State, step: L.Step)
    requires Inv(c) && CanLock(c, step)
    ensures Inv(Do(c, Lock(step)))
    ensures forall w | w in c.blocks && Held(Do(c, Lock(step)), w) :: Held(c, w)
  {
    hide SI.Inv, L.Inv, LogOk, L.Can, L.Do, L.Careful, S.Show, S.Latest, ST.Content;
    var c' := Do(c, Lock(step));
    LockStep(c, step);
    forall w | w in c.blocks ensures BlockOk(c', w) && (Held(c', w) ==> Held(c, w)) {
      assert BlockOk(c, w);
      EpochsAreNotReused(c.l, step, c.blocks[w].actor, c.blocks[w].epoch);
    }
    forall w | w in c.blocks && w in c.s.writers ensures ViewOk(c', w) {
      assert ViewOk(c, w);
    }
    assert LogOk(c') by { SameLog(c, c'); }
  }

  lemma LockStep(c: State, step: L.Step)
    requires Inv(c) && CanLock(c, step)
    ensures L.Inv(L.Do(c.l, step))
  {
    hide BlocksOk, LogOk, ViewOk, SI.Inv, L.Inv, L.Do, L.Careful;
    L.StepKeeps(c.l, step);
  }

  lemma SameLog(c: State, c': State)
    requires LogOk(c) && c'.t == c.t && c'.s.d.versions == c.s.d.versions && c'.base == c.base && c'.shown == c.shown
    ensures LogOk(c')
  {
  }

  // ----- blocks ------------------------------------------------------------------------------------

  lemma EnterKeeps(c: State, a: L.Actor, w: S.Id, x: S.Writer, change: Change)
    requires Inv(c) && Can(c, Enter(a, w, x, change))
    ensures Inv(Do(c, Enter(a, w, x, change)))
  {
    hide SI.Inv, L.Inv, LogOk, S.Show, S.Latest, ST.Content;
    var c' := Do(c, Enter(a, w, x, change));
    BeginStep(c, w, x);
    HolderIsKnown(c, a);
    SameLog(c, c');
    forall v | v in c'.blocks ensures BlockOk(c', v) {
      if v != w { assert BlockOk(c, v); }
    }
    forall v | v in c.blocks && Held(c', v) ensures v == w {
      if v != w {
        assert Held(c, v);
        OneHolder(c.l, a, c.blocks[v].actor, c.l.procs[a].pc.epoch, c.blocks[v].epoch);
      }
    }
    forall v | v in c'.blocks && v in c'.s.writers ensures ViewOk(c', v) {
      if v != w { assert ViewOk(c, v); }
    }
  }

  lemma BeginStep(c: State, w: S.Id, x: S.Writer)
    requires Inv(c) && S.Can(c.s, S.Begin(w, x))
    ensures SI.Inv(S.Do(c.s, S.Begin(w, x)))
  {
    hide BlocksOk, LogOk, ViewOk, L.Inv, SI.Inv, S.Do;
    SI.StepKeeps(c.s, S.Begin(w, x));
  }

  lemma HolderIsKnown(c: State, a: L.Actor)
    requires Inv(c) && L.Alive(c.l, a) && c.l.procs[a].pc.Holding?
    ensures c.l.procs[a].pc.epoch < c.l.next
  {
    hide BlocksOk, LogOk, ViewOk, SI.Inv;
    assert L.ProcOk(c.l, a);
  }

  /** A read that began at the current version, and is over, returned the current content. */
  lemma ReadIsCurrent(s: S.State, t: S.Name, r: S.Id)
    requires SI.Inv(s) && t in s.d.targets && r in s.readers
    requires s.readers[r].target == t && s.readers[r].pc.Got? && S.Latest(s.d, t) <= s.readers[r].since
    ensures ST.Content(S.Show(s.d, t)) == Some(s.readers[r].pc.content)
  {
    hide SI.Inv, S.Show;
    ST.ReaderHolds(s, r);
    ST.ShownIsLatest(s, t);
  }

  lemma ViewHolds(c: State, w: S.Id)
    requires Inv(c) && w in c.blocks
    ensures w in c.s.writers && ViewOk(c, w)
  {
    hide SI.Inv, L.Inv, LogOk, ViewOk;
    assert BlockOk(c, w);
  }

  lemma LookSees(c: State, step: Step) returns (view: Option<Bytes>)
    requires step.Look? || step.LookAbsent?
    requires Inv(c) && Can(c, step)
    ensures step.w in c.blocks && step.w in c.s.writers && Held(c, step.w)
    ensures Do(c, step) == c.(blocks := c.blocks[step.w := c.blocks[step.w].(view := Some(view))])
    ensures BeforeReplace(c.s.writers[step.w].pc) ==> view == ST.Content(S.Show(c.s.d, c.t))
  {
    hide BlocksOk, LogOk, L.Inv, SI.Inv, S.Show, S.Can, S.Latest;
    ViewHolds(c, step.w);
    view := Do(c, step).blocks[step.w].view.value;
    if step.Look? && BeforeReplace(c.s.writers[step.w].pc) { ReadIsCurrent(c.s, c.t, step.r); }
  }

  lemma ViewKeeps(c: State, w: S.Id, view: Option<Bytes>)
    requires Inv(c) && w in c.blocks && w in c.s.writers
    requires BeforeReplace(c.s.writers[w].pc) ==> view == ST.Content(S.Show(c.s.d, c.t))
    ensures Inv(c.(blocks := c.blocks[w := c.blocks[w].(view := Some(view))]))
  {
    hide SI.Inv, L.Inv, LogOk, S.Show, S.Latest, ST.Content, BeforeReplace;
    var c' := c.(blocks := c.blocks[w := c.blocks[w].(view := Some(view))]);
    SameLog(c, c');
    forall v | v in c'.blocks ensures BlockOk(c', v) && (Held(c', v) ==> Held(c, v)) {
      assert BlockOk(c, v);
    }
    forall v | v in c'.blocks && v in c'.s.writers ensures ViewOk(c', v) {
      ViewHolds(c, v);
    }
  }

  lemma LookKeeps(c: State, step: Step)
    requires step.Look? || step.LookAbsent?
    requires Inv(c) && Can(c, step)
    ensures Inv(Do(c, step))
  {
    hide Inv, Can, Do;
    var view := LookSees(c, step);
    ViewKeeps(c, step.w, view);
  }

  // ----- disk steps -------------------------------------------------------------------------------------

  /** The versions a step of the disk adds to the target: what a block of it puts in place. */
  ghost predicate AddsCommit(c: State, step: S.Step, s': S.State)
  {
    && c.t in c.s.d.versions && c.t in s'.d.versions
    && (Commits(c, step) ==> step.w in c.s.writers && c.s.writers[step.w].pc.Closed?)
    && ST.Contents(s'.d.versions[c.t]) == ST.Contents(c.s.d.versions[c.t])
         + if Commits(c, step) then [Some(c.s.writers[step.w].pc.accepted)] else []
  }

  lemma DiskStep(c: State, step: S.Step)
    requires Inv(c) && Can(c, Disk(step))
    ensures S.Can(c.s, step) && !step.PowerLoss? && !S.Collides(step) && SI.Inv(c.s) && c.t in c.s.d.targets
    ensures step.W? && step.wstep.Place? ==>
      step.w in c.s.writers && c.s.writers[step.w].pc.Closed?
          && (c.s.writers[step.w].target == c.t <==> step.w in c.blocks)
  {
    hide S.NextDisk, S.NextPc, S.NextReader, S.CanReader, SI.Inv, L.Inv, LogOk, ViewOk;
  }

  lemma DiskHistory(c: State, step: S.Step)
    requires Inv(c) && Can(c, Disk(step))
    ensures SI.Inv(Do(c, Disk(step)).s) && c.t in Do(c, Disk(step)).s.d.targets
    ensures AddsCommit(c, step, Do(c, Disk(step)).s)
  {
    hide Inv, Can, SI.Inv, S.Do, S.Can, ST.Contents;
    DiskStep(c, step);
    SI.StepKeeps(c.s, step);
    ST.StepHistory(c.s, step, c.t);
    ST.SameTargets(c.s, step);
  }

  lemma CommitGuard(c: State, step: S.Step)
    requires Can(c, Disk(step)) && Commits(c, step)
    ensures step.w in c.blocks && step.w in c.s.writers && c.s.writers[step.w].pc.Closed? && Held(c, step.w)
    ensures var b := c.blocks[step.w];
      b.view.Some? ==> c.s.writers[step.w].pc.accepted == b.change(b.view.value)
  {
  }

  /** What a block commits is its change applied to the content it replaces. */
  lemma CommitApplies(c: State, step: S.Step)
    requires Inv(c) && Can(c, Disk(step)) && Commits(c, step)
    requires step.w in c.s.writers && c.s.writers[step.w].pc.Closed?
    ensures c.s.writers[step.w].pc.accepted == Committed(c, step.w)(ST.Content(S.Show(c.s.d, c.t)))
  {
    hide Inv, Can, S.Show, Held;
    CommitGuard(c, step);
    ViewHolds(c, step.w);
  }

  /** A target's content is its last version's. */
  lemma ShownContent(c: State)
    requires Inv(c)
    ensures c.t in c.s.d.versions && ST.Content(S.Show(c.s.d, c.t)) == Fold(c.base, Log(c))
    ensures |c.s.d.versions[c.t]| == |c.shown| == S.Latest(c.s.d, c.t) + 1
  {
    hide BlocksOk, ViewOk, L.Inv, SI.Inv, S.Show;
    ST.ShownIsLatest(c.s, c.t);
  }

  /** One more version, made of one more change. */
  lemma LogExtends(c: State, c': State, change: Change, data: Bytes)
    requires LogOk(c) && c'.t == c.t && c'.base == c.base && c.t in c'.s.d.versions
    requires ST.Contents(c'.s.d.versions[c.t]) == ST.Contents(c.s.d.versions[c.t]) + [Some(data)]
    requires data == change(Fold(c.base, Log(c))) && c'.shown == c.shown + [Log(c) + [change]]
    ensures LogOk(c')
  {
    FoldSnoc(c.base, Log(c), change);
    var vs, vs' := c.s.d.versions[c.t], c'.s.d.versions[c.t];
    assert |ST.Contents(vs')| == |ST.Contents(vs)| + 1;
    forall k | 0 <= k < |c'.shown| ensures ST.Content(vs'[k]) == Fold(c.base, c'.shown[k]) {
      assert ST.Contents(vs')[k] == if k < |vs| then ST.Contents(vs)[k] else Some(data);
    }
  }

  lemma LogStays(c: State, c': State)
    requires LogOk(c) && c'.t == c.t && c'.base == c.base && c.t in c'.s.d.versions && c'.shown == c.shown
    requires ST.Contents(c'.s.d.versions[c.t]) == ST.Contents(c.s.d.versions[c.t])
    ensures LogOk(c')
  {
    var vs, vs' := c.s.d.versions[c.t], c'.s.d.versions[c.t];
    assert |ST.Contents(vs')| == |ST.Contents(vs)|;
    forall k | 0 <= k < |c'.shown| ensures ST.Content(vs'[k]) == Fold(c.base, c'.shown[k]) {
      assert ST.Contents(vs')[k] == ST.Contents(vs)[k];
    }
  }

  lemma LogKeeps(c: State, step: S.Step)
    requires Inv(c) && Can(c, Disk(step))
    ensures LogOk(Do(c, Disk(step)))
  {
    hide BlocksOk, ViewOk, L.Inv, SI.Inv, S.Show, ST.Contents, S.Do, S.Can, Fold;
    DiskHistory(c, step);
    NotedLog(c, step);
    if Commits(c, step) {
      CommitApplies(c, step);
      ShownContent(c);
      LogExtends(c, Do(c, Disk(step)), Committed(c, step.w), c.s.writers[step.w].pc.accepted);
    } else {
      assert ST.Contents(c.s.d.versions[c.t]) + [] == ST.Contents(c.s.d.versions[c.t]);
      LogStays(c, Do(c, Disk(step)));
    }
  }

  /** What a step of the disk notes. */
  lemma NotedLog(c: State, step: S.Step)
    requires Can(c, Disk(step))
    ensures var c' := Do(c, Disk(step));
      && c'.s == S.Do(c.s, step) && c'.t == c.t && c'.base == c.base && c'.from == c.from && c'.wholeOnly == c.wholeOnly
      && c'.blocks == c.blocks && c'.l == c.l
    ensures Commits(c, step) ==> step.w in c.s.writers && c.s.writers[step.w].pc.Closed?
    ensures Do(c, Disk(step)).shown == if Commits(c, step) then c.shown + [Log(c) + [Committed(c, step.w)]] else c.shown
    ensures Do(c, Disk(step)).last == if Commits(c, step) then Some(step.w) else c.last
  {
    hide S.Do;
  }

  /** What a step of the disk notes about sidecars. */
  lemma NotedSides(c: State, step: S.Step)
    requires Can(c, Disk(step))
    ensures var ours := step.W? && step.w in c.blocks;
      var c' := Do(c, Disk(step));
      && c'.hashed == (if ours && step.wstep.Hash?
                       then c.hashed[step.w := Hashing(S.Latest(c.s.d, c.t), step.wstep.timestamp)] else c.hashed)
      && c'.scribe == (if ours && step.wstep.Truncate? then Some(step.w) else c.scribe)
  {
    hide S.Do;
  }

  /** Which records a disk step can change. */
  lemma DiskRecords(c: State, step: S.Step)
    requires Can(c, Disk(step))
    ensures var c' := Do(c, Disk(step));
      && c'.blocks == c.blocks && c'.l == c.l && c'.t == c.t
      && c'.wholeOnly == c.wholeOnly
    ensures step.Begin? ==>
      && step.w !in c.s.writers && step.w in Do(c, Disk(step)).s.writers
      && Do(c, Disk(step)).s.writers[step.w] == step.writer && step.writer.target != c.t
    ensures step.W? && step.wstep.Forget? ==> step.w !in c.blocks && step.w !in Do(c, Disk(step)).s.writers
    ensures forall w | !(step.Begin? && step.w == w) && !(step.W? && step.w == w) ::
      && (w in Do(c, Disk(step)).s.writers <==> w in c.s.writers)
      && (w in c.s.writers ==> Do(c, Disk(step)).s.writers[w] == c.s.writers[w])
    ensures forall r | !(step.StartRead? && step.r == r) && !(step.R? && step.r == r) ::
      && (r in Do(c, Disk(step)).s.readers <==> r in c.s.readers)
      && (r in c.s.readers ==> Do(c, Disk(step)).s.readers[r] == c.s.readers[r])
    ensures step.W? && !step.wstep.Forget? ==>
      var s' := Do(c, Disk(step)).s;
      && step.w in c.s.writers && step.w in s'.writers
      && s'.writers[step.w] == c.s.writers[step.w].(pc := s'.writers[step.w].pc)
  {
    hide S.NextDisk, S.NextPc, S.CanWriter, S.NextReader, S.CanReader, BeforeReplace;
  }

  /** Where a step takes a writer's program, and the disk. */
  lemma MoveEffect(c: State, w: S.Id, step: S.WriterStep)
    requires Can(c, Disk(S.W(w, step))) && !step.Forget? && w in c.s.writers && S.CanWriter(c.s.d, w, c.s.writers[w],
        step)
    ensures var s' := Do(c, Disk(S.W(w, step))).s;
      && w in s'.writers && s'.writers[w].pc == S.NextPc(c.s.d, w, c.s.writers[w], step)
      && s'.d == S.NextDisk(c.s.d, w, c.s.writers[w], step)
  {
    hide S.NextDisk, S.NextPc, S.CanWriter, CanBlockStep;
  }

  /** The program of a block, and the lock, as one step of the disk leaves them. */
  lemma DiskBlocks(c: State, step: S.Step)
    requires BlocksOk(c) && Can(c, Disk(step))
    ensures BlocksOk(Do(c, Disk(step)))
    ensures forall v | v in c.blocks ::
      var c' := Do(c, Disk(step));
      && v in c'.s.writers && v in c.s.writers && (Held(c', v) <==> Held(c, v))
      && (!(step.W? && step.w == v) ==> c'.s.writers[v] == c.s.writers[v])
  {
    hide Can, Do;
    DiskRecords(c, step);
    var c' := Do(c, Disk(step));
    forall v | v in c.blocks ensures BlockOk(c', v) && (Held(c', v) <==> Held(c, v)) {
      assert BlockOk(c, v);
    }
  }

  lemma ProgramsGoOn(d: S.Disk, w: S.Id, x: S.Writer, step: S.WriterStep)
    requires S.CanWriter(d, w, x, step)
    ensures BeforeReplace(S.NextPc(d, w, x, step)) ==> BeforeReplace(x.pc) && !step.Place?
  {
    hide S.SidecarBytes, Paths.ChecksumPath, Paths.LockPath, Paths.IsTmpName;
  }

  lemma BlockPc(c: State, step: S.Step, v: S.Id)
    requires BlocksOk(c) && Can(c, Disk(step)) && v in c.blocks && v in c.s.writers
    ensures var c' := Do(c, Disk(step));
      v in c'.s.writers && (BeforeReplace(c'.s.writers[v].pc) ==> BeforeReplace(c.s.writers[v].pc))
    ensures step.W? && step.wstep.Place? && step.w == v ==> !BeforeReplace(Do(c, Disk(step)).s.writers[v].pc)
  {
    if step.W? { ProgramsGoOn(c.s.d, step.w, c.s.writers[step.w], step.wstep); }
    hide S.NextDisk, S.NextPc, S.CanWriter, S.NextReader, S.CanReader, BeforeReplace;
  }

  lemma DiskKeeps(c: State, step: S.Step)
    requires Inv(c) && Can(c, Disk(step))
    ensures Inv(Do(c, Disk(step)))
  {
    hide Can, Do, BlocksOk, S.Do, S.Show, S.Latest, SI.Inv, L.Inv, LogOk;
    var c' := Do(c, Disk(step));
    LogKeeps(c, step);
    DiskHistory(c, step);
    DiskBlocks(c, step);
    NotedLog(c, step);
    NewContent(c, c');
    forall v | v in c'.blocks && v in c'.s.writers ensures ViewOk(c', v) {
      BlockPc(c, step, v);
      ViewHolds(c, v);
      if Commits(c, step) && Held(c', v) {
        CommitGuard(c, step);
        HolderIsUnique(c, v, step.w);
      }
    }
  }

  lemma HolderIsUnique(c: State, v: S.Id, w: S.Id)
    requires BlocksOk(c) && v in c.blocks && w in c.blocks && Held(c, v) && Held(c, w)
    ensures v == w
  {
  }

  lemma NewContent(c: State, c': State)
    requires Inv(c) && SI.Inv(c'.s) && LogOk(c') && c'.t in c'.s.d.targets && c'.t == c.t && c'.base == c.base
    ensures c'.shown == c.shown ==>
      && S.Latest(c'.s.d, c'.t) == S.Latest(c.s.d, c.t)
      && ST.Content(S.Show(c'.s.d, c'.t)) == ST.Content(S.Show(c.s.d, c.t))
  {
    hide BlocksOk, ViewOk, L.Inv, SI.Inv, S.Show;
    ShownContent(c);
    ST.ShownIsLatest(c'.s, c'.t);
  }

  // ----- power loss -----------------------------------------------------------------------------------------

  /**
    Whatever the disk makes of a power loss, it is a step here, for some
    version `k`: nobody survives it, and the lock file may come back as it was.
   */
  lemma LossIsPossible(c: State, keep: map<S.Name, Option<S.Ino>>, junk: map<S.Ino, Bytes>, file: Option<L.LockFile>)
    returns (k: nat)
    requires Inv(c) && S.Can(c.s, S.PowerLoss(keep, junk)) && (file.Some? ==> MayReappear(c.l, file.value))
    ensures Can(c, Loss(keep, junk, file, k))
    ensures var c' := Do(c, Loss(keep, junk, file, k)); c'.l.file == file && forall a :: !L.Alive(c'.l, a)
    ensures c.l.file.Some? ==> MayReappear(c.l, c.l.file.value)
  {
    hide BlocksOk, ViewOk, LogOk, SI.Inv, S.Show, S.AfterLoss, S.CanLosePower, L.ProcOk;
    k := ST.LossShows(c.s, keep, junk, c.t);
  }

  lemma CrashKeeps(l: L.State, file: Option<L.LockFile>)
    requires L.Inv(l) && (file.Some? ==> MayReappear(l, file.value))
    ensures L.Inv(AfterCrash(l, file))
  {
    var l' := AfterCrash(l, file);
    forall a | a in l'.procs ensures L.ProcOk(l', a) { L.RestingIsOk(l', a); }
    hide L.ProcOk;
  }

  lemma LossHistory(c: State, step: Step)
    requires Inv(c) && step.Loss? && Can(c, step)
    ensures var c' := Do(c, step);
      && SI.Inv(c'.s) && c'.t in c'.s.d.targets && c'.s.writers == map[]
      && c.t in c.s.d.versions && c.t in c'.s.d.versions && step.k < |c.s.d.versions[c.t]|
      && c'.s.d.versions[c.t] == c.s.d.versions[c.t] + [c.s.d.versions[c.t][step.k]]
      && SI.Grows(c.s.d, c'.s.d)
  {
    hide BlocksOk, ViewOk, LogOk, L.Inv, SI.Inv, S.Show, S.CanLosePower, SI.Grows;
    var loss := S.PowerLoss(step.keep, step.junk);
    SI.StepKeeps(c.s, loss);
    ST.SameTargets(c.s, loss);
    assert S.Do(c.s, loss).d.versions[c.t] == c.s.d.versions[c.t] + [S.Show(S.Do(c.s, loss).d, c.t)] by {
      LossAppends(c.s.d, step.keep, step.junk, c.t);
      ST.ShownIsLatest(c.s, c.t);
    }
  }

  lemma LossAppends(d: S.Disk, keep: map<S.Name, Option<S.Ino>>, junk: map<S.Ino, Bytes>, t: S.Name)
    requires t in d.targets && t in d.versions
    ensures var d' := S.AfterLoss(d, keep, junk); t in d'.versions && d'.versions[t] == d.versions[t] + [S.Show(d', t)]
  {
  }

  /** What a power loss leaves of the history. */
  lemma LossNotes(c: State, step: Step)
    requires step.Loss? && Can(c, step) && step.k < |c.shown|
    ensures var c' := Do(c, step);
      && c'.t == c.t && c'.base == c.base && c'.blocks == map[] && c'.l == AfterCrash(c.l, step.file)
      && c'.shown == c.shown + [c.shown[step.k]] && (step.file.Some? ==> MayReappear(c.l, step.file.value))
      && c'.wholeOnly == c.wholeOnly && c'.last == None && c'.scribe == None && c'.hashed == map[]
      && c.t in c.s.d.versions && c'.from == |c.s.d.versions[c.t]| && c.t in c.s.d.floor && c.s.d.floor[c.t] <= step.k
  {
    hide S.Do, S.AfterLoss, S.Show, S.CanLosePower;
  }

  lemma LossLog(c: State, c': State, k: nat)
    requires LogOk(c) && c'.t == c.t && c'.base == c.base && k < |c.shown| && c'.shown == c.shown + [c.shown[k]]
    requires c.t in c'.s.d.versions && c'.s.d.versions[c.t] == c.s.d.versions[c.t] + [c.s.d.versions[c.t][k]]
    ensures LogOk(c')
  {
    hide Fold;
  }

  lemma LossKeeps(c: State, step: Step)
    requires Inv(c) && step.Loss? && Can(c, step)
    ensures Inv(Do(c, step))
  {
    hide Can, Do, SI.Inv, L.Inv, SI.Grows, ViewOk, AfterCrash, Held;
    LossHistory(c, step);
    LossNotes(c, step);
    CrashKeeps(c.l, step.file);
    LossLog(c, Do(c, step), step.k);
    hide LogOk;
  }

  // ----- runs -----------------------------------------------------------------------------------------------

  lemma StepKeeps(c: State, step: Step)
    requires Inv(c) && Can(c, step)
    ensures Inv(Do(c, step))
  {
    hide Inv;
    match step {
      case Lock(lstep) => LockKeeps(c, lstep);
      case Enter(a, w, x, change) => EnterKeeps(c, a, w, x, change);
      case Disk(dstep) => DiskKeeps(c, dstep);
      case Loss(_, _, _, _) => LossKeeps(c, step);
      case _ => LookKeeps(c, step);
    }
  }

  lemma {:induction false} RunKeeps(c: State, run: seq<Step>, c': State)
    requires Inv(c) && Exec(c, run) == Some(c')
    ensures Inv(c')
    decreases |run|
  {
    hide Inv, Can, Do;
    if run != [] {
      StepKeeps(c, run[0]);
      RunKeeps(Do(c, run[0]), run[1..], c');
    }
  }

  /**
    No lost updates: if every writer of the target takes the lock, and what it
    commits is a function of what it read inside its block, the target always
    holds the committed functions applied one after the other, and so did
    every version before.  Deaths, recoveries, failed writes, power losses and
    other targets do not matter; what a power loss may take back is said below.
   */
  lemma NoLostUpdates(c0: State, run: seq<Step>, c: State)
    requires Init(c0) && Exec(c0, run) == Some(c)
    ensures ST.Content(S.Show(c.s.d, c.t)) == Fold(c.base, Log(c))
    ensures c.t in c.s.d.versions && |c.s.d.versions[c.t]| == |c.shown|
    ensures forall k | 0 <= k < |c.shown| :: ST.Content(c.s.d.versions[c.t][k]) == Fold(c.base, c.shown[k])
  {
    hide Exec, Init, BlocksOk, ViewOk, SI.Inv, L.Inv, S.Show;
    InitHolds(c0);
    RunKeeps(c0, run, c);
    ShownContent(c);
  }
}
