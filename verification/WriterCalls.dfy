/**
  `AtomicWriter` as its caller sees it: what each method does to the object,
  given how its system calls turned out, and what follows for every sequence
  of calls (src/safeatomic/_io_core.py:943-1146).  The class in
  AtomicWriterObject is proved to behave like this.
 */
module WriterCalls {
  import opened Basics

  /** `Stuck`: a release failed, so the lock file may still be there although nobody is in the lock. */
  datatype Lock = Free | Held | Stuck

  /**
    `inside`: what the temporary file holds while `_fd` and `_tmp` are set.
    `placed`: what this object has put under the target's name.
   */
  datatype Obj = Obj(locking: bool, inside: Option<Bytes>, committed: bool, aborted: bool, lock: Lock,
      placed: seq<Bytes>)

  /**
    How `__enter__` went.  A refused one may have left a lock file whose payload
    it could not write; `released` tells whether giving the lock back worked.
   */
  datatype EnterFate = Refused(left: bool) | OpenFailed(released: bool) | Entered

  /** How `commit` went, if it got past its guards. */
  datatype CommitFate =
    | FailedBeforeReplace(released: bool)
    | SyncDirRaised
    | SidecarRaised(released: bool)
    | Finished(released: bool)

  datatype Call =
    | Enter(entry: EnterFate)
    | Write(data: Bytes, written: nat)
    | Flush
    | Commit(fate: CommitFate)
    | Abort(gone: bool)
    | Exit(failed: bool, fate: CommitFate, gone: bool)

  const CLOSED := Obj(false, None, false, false, Free, [])

  function New(locking: bool): Obj
  {
    CLOSED.(locking := locking)
  }

  function Release(lock: Lock, worked: bool): Lock
  {
    if lock == Free || worked then Free else Stuck
  }

  function Prefix(data: Bytes, n: nat): Bytes
  {
    if n <= |data| then data[..n] else data
  }

  function AfterCommit(o: Obj, fate: CommitFate): Obj
  {
    if o.committed || o.inside.None? then o // RuntimeError
    else
      match fate
      case FailedBeforeReplace(released) => o.(inside := None, lock := Release(o.lock, released))
      case SyncDirRaised => o.(inside := None, committed := true, placed := o.placed + [o.inside.value])
      case SidecarRaised(released) =>
        o.(inside := None, committed := true, placed := o.placed + [o.inside.value], lock := Release(o.lock, released))
      case Finished(released) =>
        o.(inside := None, committed := true, placed := o.placed + [o.inside.value], lock := Release(o.lock, released))
  }

  function AfterAbort(o: Obj, gone: bool): Obj
  {
    o.(inside := None, aborted := true, lock := Release(o.lock, gone))
  }

  /** Only a locking object can be refused, and one that holds the lock always is. */
  predicate Can(o: Obj, call: Call)
  {
    match call
    case Enter(Refused(left)) => o.locking && (left ==> o.lock != Held)
    case Enter(_) => o.lock != Held
    case Write(data, n) => n <= |data|
    case _ => true
  }

  function Step(o: Obj, call: Call): Obj
  {
    match call
    case Enter(Refused(left)) => if left then o.(lock := Stuck) else o
    case Enter(OpenFailed(released)) => o.(lock := if o.locking then Release(Held, released) else Free)
    case Enter(Entered) => o.(inside := Some([]), lock := if o.locking then Held else Free)
    case Write(data, n) => if o.inside.None? then o else o.(inside := Some(o.inside.value + Prefix(data, n)))
    case Flush => o
    case Commit(fate) => AfterCommit(o, fate)
    case Abort(gone) => AfterAbort(o, gone)
    case Exit(failed, fate, gone) =>
      if failed then AfterAbort(o, gone)
      else if o.committed || o.aborted then o
      else AfterCommit(o, fate)
  }

  function Run(o: Obj, calls: seq<Call>): Obj
    decreases |calls|
  {
    if calls == [] then o else Step(Run(o, calls[..|calls| - 1]), calls[|calls| - 1])
  }

  predicate Possible(o: Obj, calls: seq<Call>)
    decreases |calls|
  {
    calls == [] ||
    (Possible(o, calls[..|calls| - 1]) && Can(Run(o, calls[..|calls| - 1]), calls[|calls| - 1]))
  }

  lemma OneMoreCall(o: Obj, calls: seq<Call>, call: Call)
    ensures Run(o, calls + [call]) == Step(Run(o, calls), call)
    ensures Possible(o, calls + [call]) <==> Possible(o, calls) && Can(Run(o, calls), call)
  {
    assert (calls + [call])[..|calls|] == calls;
  }

  lemma RunSplits(o: Obj, calls: seq<Call>, more: seq<Call>)
    ensures Run(o, calls + more) == Run(Run(o, calls), more)
    decreases |more|
  {
    if more == [] {
      assert calls + more == calls;
    } else {
      assert (calls + more)[..|calls + more| - 1] == calls + more[..|more| - 1];
      RunSplits(o, calls, more[..|more| - 1]);
    }
  }

  // ----- replaced at most once -------------------------------------------------------------

  /** Whatever is called in whatever order, the object replaces its target at most once, and knows whether it did. */
  lemma {:induction false} ReplacedAtMostOnce(locking: bool, calls: seq<Call>)
    ensures var o := Run(New(locking), calls); |o.placed| == if o.committed then 1 else 0
    decreases |calls|
  {
    if calls != [] { ReplacedAtMostOnce(locking, calls[..|calls| - 1]); }
  }

  // ----- what is committed ---------------------------------------------------------------------

  /** The bytes the write loops accepted since the object was last entered. */
  function AcceptedSince(calls: seq<Call>): Bytes
    decreases |calls|
  {
    if calls == [] then []
    else
      var rest, call := calls[..|calls| - 1], calls[|calls| - 1];
      match call
      case Enter(Entered) => []
      case Write(data, n) => AcceptedSince(rest) + Prefix(data, n)
      case _ => AcceptedSince(rest)
  }

  lemma {:induction false} InsideIsAccepted(locking: bool, calls: seq<Call>)
    ensures var o := Run(New(locking), calls); o.inside.Some? ==> o.inside.value == AcceptedSince(calls)
    decreases |calls|
  {
    if calls != [] { InsideIsAccepted(locking, calls[..|calls| - 1]); }
  }

  /** A call replaces the target with exactly the bytes accepted since the object was entered, or leaves it. */
  lemma CommitsWhatWasAccepted(locking: bool, calls: seq<Call>, call: Call)
    ensures var o := Run(New(locking), calls);
      var o' := Run(New(locking), calls + [call]);
      o'.placed == o.placed || (o.placed == [] && o'.placed == [AcceptedSince(calls)])
  {
    assert (calls + [call])[..|calls|] == calls;
    InsideIsAccepted(locking, calls);
    ReplacedAtMostOnce(locking, calls);
  }

  // ----- after an abort ----------------------------------------------------------------------------

  predicate Enters(call: Call)
  {
    call.Enter? && call.entry.Entered?
  }

  predicate NeverEnters(calls: seq<Call>)
  {
    forall i | 0 <= i < |calls| :: !Enters(calls[i])
  }

  predicate Aborts(call: Call)
  {
    call.Abort? || (call.Exit? && call.failed)
  }

  /** Calls after an abort that leave the object entered again. */
  predicate Reopened(more: seq<Call>)
    decreases |more|
  {
    more != [] &&
    var call := more[|more| - 1];
    Enters(call) || (!Aborts(call) && !call.Commit? && Reopened(more[..|more| - 1]))
  }

  /** An explicit commit among them that finds the object entered again and gets past its replace. */
  predicate CommitsAgain(more: seq<Call>)
    decreases |more|
  {
    more != [] &&
    var rest, call := more[..|more| - 1], more[|more| - 1];
    CommitsAgain(rest) || (call.Commit? && !call.fate.FailedBeforeReplace? && Reopened(rest))
  }

  lemma {:induction false} AfterAnAbort(o: Obj, more: seq<Call>)
    requires o.inside.None? && o.aborted && !o.committed
    ensures var o' := Run(o, more);
      && o'.aborted
      && (CommitsAgain(more) ==> o'.committed && |o'.placed| == |o.placed| + 1)
      && (!CommitsAgain(more) ==> !o'.committed && o'.placed == o.placed && (o'.inside.Some? <==> Reopened(more)))
    decreases |more|
  {
    if more != [] { AfterAnAbort(o, more[..|more| - 1]); }
  }

  lemma {:induction false} CommittedForGood(o: Obj, more: seq<Call>)
    requires o.committed
    ensures Run(o, more).committed && Run(o, more).placed == o.placed
    decreases |more|
  {
    if more != [] { CommittedForGood(o, more[..|more| - 1]); }
  }

  /**
    After an abort the target is replaced exactly if it had not been before
    and the object is entered again and committed explicitly; in particular
    never by an object that is not entered again.
   */
  lemma ReplacesAfterAbortExactly(locking: bool, calls: seq<Call>, abort: Call, more: seq<Call>)
    requires Aborts(abort)
    ensures Run(New(locking), calls + [abort] + more).placed != Run(New(locking), calls).placed
      <==> !Run(New(locking), calls).committed && CommitsAgain(more)
  {
    RunSplits(New(locking), calls + [abort], more);
    OneMoreCall(New(locking), calls, abort);
    var o := Run(New(locking), calls + [abort]);
    if o.committed { CommittedForGood(o, more); } else { AfterAnAbort(o, more); }
  }

  lemma {:induction false} NoReentryNoCommit(more: seq<Call>)
    requires NeverEnters(more)
    ensures !Reopened(more) && !CommitsAgain(more)
    decreases |more|
  {
    if more != [] { NoReentryNoCommit(more[..|more| - 1]); }
  }

  /** Entered again, an aborted object can still replace the target: `commit` does not look at `_aborted`. */
  lemma ReenteredObjectReplacesAfterAbort() returns (calls: seq<Call>)
    ensures |calls| == 4 && Possible(New(true), calls) && Aborts(calls[1]) && Run(New(true), calls[..2]).placed == []
    ensures Run(New(true), calls).placed == [[]]
  {
    calls := Aborted();
    OneMoreCall(New(true), calls, Enter(Entered));
    calls := calls + [Enter(Entered)];
    OneMoreCall(New(true), calls, Commit(Finished(true)));
    calls := calls + [Commit(Finished(true))];
    assert calls[..2] == [Enter(Entered), Abort(true)];
  }

  lemma Aborted() returns (calls: seq<Call>)
    ensures calls == [Enter(Entered), Abort(true)] && Possible(New(true), calls)
    ensures Run(New(true), calls) == New(true).(aborted := true)
  {
    OneMoreCall(New(true), [], Enter(Entered));
    assert [] + [Enter(Entered)] == [Enter(Entered)];
    OneMoreCall(New(true), [Enter(Entered)], Abort(true));
    calls := [Enter(Entered)] + [Abort(true)];
  }

  // ----- the lock after the block ----------------------------------------------------------------------

  /** This call is the commit, explicit or implied by the exit, and its directory fsync raises. */
  predicate SyncErrorNow(o: Obj, call: Call)
  {
    && o.inside.Some? && !o.committed
    && ((call.Commit? && call.fate.SyncDirRaised?)
        || (call.Exit? && !call.failed && !o.aborted && call.fate.SyncDirRaised?))
  }

  /** The directory fsync of a commit raised, and no abort has followed. */
  predicate SyncErrorPending(o: Obj, calls: seq<Call>)
    decreases |calls|
  {
    calls != [] &&
    var rest, call := calls[..|calls| - 1], calls[|calls| - 1];
    !Aborts(call) && (SyncErrorPending(o, rest) || SyncErrorNow(Run(o, rest), call))
  }

  /** An open file is never without the lock, and a lock without an open file is a directory fsync's. */
  lemma {:induction false} LockedWhileOpen(calls: seq<Call>)
    requires Possible(New(true), calls)
    ensures var o := Run(New(true), calls);
      && o.locking
      && (o.inside.Some? ==> o.lock == Held && !SyncErrorPending(New(true), calls))
      && (o.inside.None? ==> (o.lock == Held <==> SyncErrorPending(New(true), calls)))
      && (SyncErrorPending(New(true), calls) ==> o.committed)
    decreases |calls|
  {
    if calls != [] { LockedWhileOpen(calls[..|calls| - 1]); }
  }

  /**
    The end of a `with` statement, over every sequence of calls before it,
    with a lock or without.  The exit leaves the file open exactly if it is a
    clean one of an object that is open and has been committed or aborted
    before: it then neither commits nor aborts.  A lock is still held exactly
    if the file is left open, or the directory fsync of a commit raised and no
    abort followed.
   */
  lemma ExitExactly(locking: bool, calls: seq<Call>, exit: Call)
    requires exit.Exit? && Possible(New(locking), calls + [exit])
    ensures var o := Run(New(locking), calls);
      var o' := Run(New(locking), calls + [exit]);
      && (o'.inside.Some? <==> !exit.failed && o.inside.Some? && (o.committed || o.aborted))
      && (o'.lock == Held <==> locking && (o'.inside.Some? || SyncErrorPending(New(locking), calls + [exit])))
  {
    OneMoreCall(New(locking), calls, exit);
    if locking { LockedWhileOpen(calls + [exit]); } else { NeverLocked(calls + [exit]); }
  }

  lemma {:induction false} NeverLocked(calls: seq<Call>)
    requires Possible(New(false), calls)
    ensures !Run(New(false), calls).locking && Run(New(false), calls).lock != Held
    decreases |calls|
  {
    if calls != [] { NeverLocked(calls[..|calls| - 1]); }
  }

  // ----- the same condition, read off the calls ---------------------------------------------------------

  predicate EverAborted(calls: seq<Call>)
  {
    exists i :: 0 <= i < |calls| && Aborts(calls[i])
  }

  /** Some commit, explicit or by a clean exit, found the object open and got past its replace. */
  predicate EverPlaced(calls: seq<Call>)
    decreases |calls|
  {
    calls != [] &&
    var rest, call := calls[..|calls| - 1], calls[|calls| - 1];
    EverPlaced(rest)
    || (IsOpen(rest) && call.Commit? && !call.fate.FailedBeforeReplace?)
    || (IsOpen(rest) && call.Exit? && !call.failed && !EverAborted(rest) && !call.fate.FailedBeforeReplace?)
  }

  /** The object was entered, and no abort and no commit that looked at the file came since. */
  predicate IsOpen(calls: seq<Call>)
    decreases |calls|
  {
    calls != [] &&
    var rest, call := calls[..|calls| - 1], calls[|calls| - 1];
    Enters(call)
    || (IsOpen(rest) && !Aborts(call) && (call.Commit? ==> EverPlaced(rest))
        && (call.Exit? ==> EverPlaced(rest) || EverAborted(rest)))
  }

  lemma AbortedAtTheEnd(calls: seq<Call>)
    requires calls != []
    ensures EverAborted(calls) <==> EverAborted(calls[..|calls| - 1]) || Aborts(calls[|calls| - 1])
  {
    var rest := calls[..|calls| - 1];
    assert forall i | 0 <= i < |rest| :: rest[i] == calls[i];
    if EverAborted(rest) {
      var i :| 0 <= i < |rest| && Aborts(rest[i]);
      assert Aborts(calls[i]);
    }
    if i :| 0 <= i < |calls| && Aborts(calls[i]) {
      if i < |rest| { assert Aborts(rest[i]); }
    }
  }

  lemma {:induction false} CallsTell(locking: bool, calls: seq<Call>)
    ensures var o := Run(New(locking), calls);
      && (o.inside.Some? <==> IsOpen(calls)) && (o.committed <==> EverPlaced(calls))
          && (o.aborted <==> EverAborted(calls))
    decreases |calls|
  {
    if calls != [] {
      CallsTell(locking, calls[..|calls| - 1]);
      AbortedAtTheEnd(calls);
    }
  }

  /** The entry at `i` came after a placing commit, or after an abort with no commit since; no abort followed. */
  predicate Reenters(calls: seq<Call>, i: nat)
  {
    && i < |calls| && Enters(calls[i])
    && (forall j | i < j < |calls| :: !Aborts(calls[j]))
    && (EverPlaced(calls[..i])
        || (EverAborted(calls[..i]) && forall j | i < j < |calls| :: !calls[j].Commit?))
  }

  lemma {:induction false} NotAbortedSince(calls: seq<Call>, i: nat)
    requires i <= |calls| && forall j | i <= j < |calls| :: !Aborts(calls[j])
    ensures EverAborted(calls) <==> EverAborted(calls[..i])
    decreases |calls|
  {
    if i == |calls| {
      assert calls[..i] == calls;
    } else {
      var rest := calls[..|calls| - 1];
      assert rest[..i] == calls[..i];
      NotAbortedSince(rest, i);
      AbortedAtTheEnd(calls);
    }
  }

  lemma {:induction false} PlacedForGood(calls: seq<Call>, i: nat)
    requires i <= |calls| && EverPlaced(calls[..i])
    ensures EverPlaced(calls)
    decreases |calls|
  {
    if i == |calls| {
      assert calls[..i] == calls;
    } else {
      assert calls[..|calls| - 1][..i] == calls[..i];
      PlacedForGood(calls[..|calls| - 1], i);
    }
  }

  /** An entry like that leaves the object open, with nothing left that a clean exit would do. */
  lemma {:induction false} ReentryStaysOpen(calls: seq<Call>, i: nat)
    requires Reenters(calls, i)
    ensures IsOpen(calls) && (EverPlaced(calls) || EverAborted(calls))
    decreases |calls|
  {
    if i == |calls| - 1 {
      assert calls[..i] == calls[..|calls| - 1];
      AbortedAtTheEnd(calls);
    } else {
      var rest := calls[..|calls| - 1];
      assert rest[..i] == calls[..i];
      assert Reenters(rest, i);
      ReentryStaysOpen(rest, i);
      if EverPlaced(calls[..i]) { PlacedForGood(rest, i); } else { AbortedAtTheEnd(calls); }
      AbortedAtTheEnd(calls);
    }
  }

  /** And there is no other way to get there. */
  lemma {:induction false} OpenByReentry(calls: seq<Call>) returns (i: nat)
    requires IsOpen(calls) && (EverPlaced(calls) || EverAborted(calls))
    ensures Reenters(calls, i)
    decreases |calls|
  {
    var rest, call := calls[..|calls| - 1], calls[|calls| - 1];
    AbortedAtTheEnd(calls);
    if Enters(call) {
      i := |calls| - 1;
      assert calls[..i] == rest;
    } else {
      i := OpenByReentry(rest);
      assert rest[..i] == calls[..i];
      if call.Commit? { PlacedBeforeEntry(rest, i); }
    }
  }

  /** An object that is open and has placed its content did so before its last entry. */
  lemma {:induction false} PlacedBeforeEntry(calls: seq<Call>, i: nat)
    requires Reenters(calls, i) && IsOpen(calls) && EverPlaced(calls)
    ensures EverPlaced(calls[..i])
    decreases |calls|
  {
    var rest := calls[..|calls| - 1];
    if i == |calls| - 1 {
      assert calls[..i] == rest;
    } else {
      assert rest[..i] == calls[..i];
      assert Reenters(rest, i);
      ReentryStaysOpen(rest, i);
      NotAbortedSince(rest, i + 1);
      if EverPlaced(rest) { PlacedBeforeEntry(rest, i); }
    }
  }

  /** The exit leaves the file in hand, and with it any lock, exactly after such a re-entry. */
  lemma LeftOpenExactly(locking: bool, calls: seq<Call>, exit: Call)
    requires exit.Exit? && Possible(New(locking), calls + [exit])
    ensures Run(New(locking), calls + [exit]).inside.Some?
      <==> !exit.failed && exists i: nat :: Reenters(calls, i)
  {
    ExitExactly(locking, calls, exit);
    CallsTell(locking, calls);
    if IsOpen(calls) && (EverPlaced(calls) || EverAborted(calls)) {
      var i := OpenByReentry(calls);
    }
    if i: nat :| Reenters(calls, i) { ReentryStaysOpen(calls, i); }
  }

  /**
    So after the one `with` statement of an object that is entered once, the
    file is let go, and the lock is held exactly for a directory fsync that
    raised.  Whoever catches that error of an explicit `commit` keeps the
    lock, too.
   */
  lemma LockAfterTheBlock(body: seq<Call>, exit: Call)
    requires NeverEnters(body) && exit.Exit? && Possible(New(true), [Enter(Entered)] + body + [exit])
    ensures var o := Run(New(true), [Enter(Entered)] + body + [exit]);
      o.inside.None? && (o.lock == Held <==> SyncErrorPending(New(true), [Enter(Entered)] + body + [exit]))
  {
    var calls := [Enter(Entered)] + body;
    ExitExactly(true, calls, exit);
    LeftOpenExactly(true, calls, exit);
    forall i: nat ensures !Reenters(calls, i) { EnteredOnce(body, i); }
  }

  lemma EnteredOnce(body: seq<Call>, i: nat)
    requires NeverEnters(body)
    ensures !Reenters([Enter(Entered)] + body, i)
  {
    var calls := [Enter(Entered)] + body;
    assert calls[..0] == [];
    if 0 < i < |calls| { assert calls[i] == body[i - 1]; }
  }

  /** Only a failed release leaves a lock file that nobody holds. */
  predicate ReleaseFails(call: Call)
  {
    match call
    case Enter(Refused(left)) => left
    case Enter(OpenFailed(released)) => !released
    case Commit(fate) => FateFails(fate)
    case Abort(gone) => !gone
    case Exit(failed, fate, gone) => if failed then !gone else FateFails(fate)
    case _ => false
  }

  predicate FateFails(fate: CommitFate)
  {
    match fate
    case SyncDirRaised => false
    case FailedBeforeReplace(released) => !released
    case SidecarRaised(released) => !released
    case Finished(released) => !released
  }

  lemma {:induction false} StuckOnlyByFailedRelease(locking: bool, calls: seq<Call>)
    requires forall i | 0 <= i < |calls| :: !ReleaseFails(calls[i])
    ensures Run(New(locking), calls).lock != Stuck
    decreases |calls|
  {
    if calls != [] { StuckOnlyByFailedRelease(locking, calls[..|calls| - 1]); }
  }

  /**
    An aborted object that is entered again keeps file and lock after its
    clean exit: the exit sees `_aborted` and neither commits nor aborts.
   */
  lemma ReenteredObjectKeepsTheLock() returns (calls: seq<Call>)
    ensures |calls| == 4 && Aborts(calls[1]) && calls[3].Exit? && Possible(New(true), calls)
    ensures forall i | 0 <= i < |calls| :: !ReleaseFails(calls[i])
    ensures Run(New(true), calls).lock == Held && Run(New(true), calls).inside.Some?
    ensures !SyncErrorPending(New(true), calls)
  {
    calls := Aborted();
    OneMoreCall(New(true), calls, Enter(Entered));
    calls := calls + [Enter(Entered)];
    OneMoreCall(New(true), calls, Exit(false, Finished(true), true));
    SyncErrorNever(calls);
    calls := calls + [Exit(false, Finished(true), true)];
    SyncErrorNever(calls);
  }

  /**
    One object in two ordinary `with` statements, no fault and no abort
    anywhere: the second block ends cleanly, its data is never placed, and
    file and lock stay in hand.  `__enter__` does not reset `_committed`.
   */
  lemma SecondBlockIsLost(first: Bytes, second: Bytes) returns (calls: seq<Call>)
    ensures calls == [Enter(Entered), Write(first, |first|), Exit(false, Finished(true), true),
                      Enter(Entered), Write(second, |second|), Exit(false, Finished(true), true)]
    ensures Possible(New(true), calls) && !SyncErrorPending(New(true), calls)
    ensures Run(New(true), calls) == Obj(true, Some(second), true, false, Held, [first])
  {
    var o := New(true);
    calls := OneBlock(first);
    OneMoreCall(o, calls, Enter(Entered));
    calls := calls + [Enter(Entered)];
    assert second[..|second|] == second && [] + second == second;
    OneMoreCall(o, calls, Write(second, |second|));
    calls := calls + [Write(second, |second|)];
    OneMoreCall(o, calls, Exit(false, Finished(true), true));
    calls := calls + [Exit(false, Finished(true), true)];
    SyncErrorNever(calls);
  }

  lemma OneBlock(data: Bytes) returns (calls: seq<Call>)
    ensures calls == [Enter(Entered), Write(data, |data|), Exit(false, Finished(true), true)]
    ensures Possible(New(true), calls) && Run(New(true), calls) == Obj(true, None, true, false, Free, [data])
  {
    var o := New(true);
    OneMoreCall(o, [], Enter(Entered));
    calls := [] + [Enter(Entered)];
    assert data[..|data|] == data && [] + data == data;
    OneMoreCall(o, calls, Write(data, |data|));
    calls := calls + [Write(data, |data|)];
    OneMoreCall(o, calls, Exit(false, Finished(true), true));
    calls := calls + [Exit(false, Finished(true), true)];
    assert [] + [data] == [data];
  }

  lemma {:induction false} SyncErrorNever(calls: seq<Call>)
    requires forall i | 0 <= i < |calls| ::
      !(calls[i].Commit? && calls[i].fate.SyncDirRaised?) && !(calls[i].Exit? && calls[i].fate.SyncDirRaised?)
    ensures !SyncErrorPending(New(true), calls)
    decreases |calls|
  {
    if calls != [] { SyncErrorNever(calls[..|calls| - 1]); }
  }
}
