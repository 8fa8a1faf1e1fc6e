/**
  The class `AtomicReader` (src/safeatomic/_io_core.py:1202-1270), run by one
  process among others.  The checksum is verified on one open of the target,
  the bytes come from a second one.
 */
module AtomicReaderObject {
  import opened Basics
  import Paths
  import SidecarText
  import S = Storage
  import SI = StorageInvariant
  import opened Composite
  import opened Machine
  import opened ReadTrace
  import RC = ReadCore

  datatype Entry = Entered | NotFound(why: RC.Absence) | IoError | ChecksumMismatch

  /** A checked read by record `r` compared complete content, no older than the call, with the sidecar bytes it got. */
  ghost predicate Verdict(c: State, call: seq<Step>, c': State, r: S.Id, target: S.Name, algo: string, v: nat,
                          data: Bytes, seen: Bytes, agree: bool)
  {
    && r in c'.s.readers
    && c'.s.readers[r] == S.Reader(target, true, algo, S.Latest(c.s.d, target),
                                   if agree then S.Got(v, data, seen) else S.Mismatch(v, data, seen))
    && S.Latest(c.s.d, target) <= v && Shows(c'.s.d, target, v, data)
    && seen == SidecarBytesRead(c, call, r, target) && SidecarText.ParseBytes(seen).Some?
    && (SidecarText.ParseBytes(seen).value.digest == c'.s.d.hash(algo, data) <==> agree)
  }

  /** What FileNotFoundError says of the call. */
  ghost predicate Missing(c: State, call: seq<Step>, r: S.Id, target: S.Name, seen: Bytes, why: RC.Absence)
  {
    match why
    case SidecarMissing => EverAbsent(c, call, Paths.ChecksumPath(target))
    case SidecarUnparsable => seen == SidecarBytesRead(c, call, r, target) && SidecarText.ParseBytes(seen).None?
    case TargetMissing => EverAbsent(c, call, target)
    case SidecarUnreadable => true
  }

  class AtomicReader {
    const p: Process
    const target: S.Name
    const check: bool
    const algo: string

    /** `_fobj`, by its reader record. */
    var fobj: Option<S.Id>

    /** History: the version that is open, and all that was handed out of it. */
    ghost var version: nat
    ghost var delivered: Bytes

    constructor (p: Process, target: S.Name, check: bool, algo: string)
      requires p.Valid() && target in p.c.s.d.targets
      ensures Valid() && this.p == p && this.target == target && this.check == check && this.algo == algo && fobj.None?
    {
      hide Inv, Reaches, GoodNames, Owned, OwnOf;
      this.p, this.target, this.check, this.algo := p, target, check, algo;
      fobj, version, delivered := None, 0, [];
    }

    ghost predicate Valid()
      reads this, p
    {
      && p.Valid() && target in p.c.s.d.targets
      && (fobj.Some? ==>
            var r := fobj.value;
            && r in p.me.ids && r in p.c.s.readers && p.c.s.readers[r].target == target
            && p.c.s.readers[r].pc.Reading? && p.c.s.readers[r].pc.version == version
            && p.c.s.readers[r].pc.got == delivered)
    }

    /** However many replaces happen in between, everything handed out is a prefix of one complete version. */
    lemma DeliveredIsAPrefix() returns (content: Bytes)
      requires Valid() && fobj.Some?
      ensures Shows(p.c.s.d, target, version, content) && delivered <= content
    {
      hide Inv, Reaches;
      content := RC.OpenContent(p.c, fobj.value);
    }

    /**
      `first` and `second` are the records of the two opens.  The checksum is
      verified on the first, of version `verified`; the bytes will come from
      the second, of a version at least as new.
     */
    method Enter(first: S.Id, second: S.Id)
      returns (entry: Entry, ghost verified: nat, ghost data: Bytes, ghost seen: Bytes)
      requires Valid() && first != second && first in p.me.ids && second in p.me.ids
      requires first !in p.c.s.readers && second !in p.c.s.readers
      modifies this, p
      ensures RC.Reads(p, {first, second})
      ensures Valid()
      ensures entry.Entered? ==> fobj == Some(second) && delivered == [] && old(S.Latest(p.c.s.d, target)) <= version
      ensures entry.Entered? && check ==>
        && Verdict(old(p.c), Gained(old(p.run), p.run), p.c, first, target, algo, verified, data, seen, true)
        && verified <= version
      ensures entry.ChecksumMismatch? ==>
        check && Verdict(old(p.c), Gained(old(p.run), p.run), p.c, first, target, algo, verified, data, seen, false)
      ensures entry.NotFound? ==>
        && (entry.why.TargetMissing? || check)
        && Missing(old(p.c), Gained(old(p.run), p.run), first, target, seen, entry.why)
      ensures if entry.IoError? || entry == NotFound(RC.SidecarUnreadable)
              then OneFailure(old(p.failures), p.failures, {SideRead, TargetRead})
              else p.failures == old(p.failures)
      ensures !entry.Entered? ==> fobj == old(fobj) && version == old(version) && delivered == old(delivered)
    {
      hide Inv, SI.Grows, OwnOf, Replacements, SidecarText.ParseBytes, Paths.ChecksumPath, Shows, S.Latest;
      hide RC.Follows, Exec, EverAbsent, HeardIn, GoodNames, Owned, Gained;
      verified, data, seen := 0, [], [];
      IsAlive(p);
      RC.FollowsItself(p.me, p.c, p.run, {first, second});
      RC.FollowsItself(p.me, p.c, p.run, {first});
      if check {
        entry, verified, data, seen := Verify(first);
        RC.FollowsOn(p.me, old(p.c), old(p.run), old(p.c), old(p.run), p.c, p.run, {first, second}, {first, second},
            {first});
        if !entry.Entered? {
          return;
        }
      }
      label opening:
      RC.OthersStay(p.me, old(p.c), old(p.run), p.c, p.run, {first}, second);
      entry := Open(second);
      RC.FollowsOn(p.me, old(p.c), old(p.run), old@opening(p.c), old@opening(p.run), p.c, p.run,
                   {first, second}, {first, second}, {second});
      Onwards(p.me, old(p.c), old(p.run), old@opening(p.c), old@opening(p.run), p.c, p.run, {first, second},
          {second}, target);
      if check {
        VerdictLasts(p, old(p.run), old(p.c), old@opening(p.run), old@opening(p.c), first, second, target,
                     algo, verified, data, seen);
      }
      if entry.NotFound? { RC.RecordIsTrue(p.start, old(p.run), old(p.c), p.run, p.c, second); }
    }

    /** The checked read that comes first. */
    method Verify(r: S.Id) returns (entry: Entry, ghost verified: nat, ghost data: Bytes, ghost seen: Bytes)
      requires Valid() && check && r in p.me.ids && r !in p.c.s.readers
      modifies p
      ensures RC.Reads(p, {r}) && Valid()
      ensures entry.Entered? || entry.ChecksumMismatch? ==>
        Verdict(old(p.c), Gained(old(p.run), p.run), p.c, r, target, algo, verified, data, seen, entry.Entered?)
      ensures entry.NotFound? ==> Missing(old(p.c), Gained(old(p.run), p.run), r, target, seen, entry.why)
      ensures if entry.IoError? || entry == NotFound(RC.SidecarUnreadable)
              then OneFailure(old(p.failures), p.failures, {SideRead, TargetRead})
              else p.failures == old(p.failures)
    {
      hide Inv, SI.Grows, OwnOf, Replacements, SidecarText.ParseBytes, Paths.ChecksumPath, Shows, S.Latest;
      hide RC.Follows, Exec, EverAbsent, HeardIn, GoodNames, Owned, Gained;
      var answer;
      answer, seen := RC.Read(p, r, target, true, algo);
      StillOpen(old(p.c), old(p.run), p.c, p.run, {r});
      verified, data := 0, [];
      match answer {
        case NotFound(why) => entry := NotFound(why);
        case IoError => entry := IoError;
        case ChecksumMismatch(v, content) => entry, verified, data := ChecksumMismatch, v, content;
        case Content(v, content) => entry, verified, data := Entered, v, content;
      }
    }

    /** The second open, which is the one that is read. */
    method Open(r: S.Id) returns (entry: Entry)
      requires Valid() && r in p.me.ids && r !in p.c.s.readers
      modifies this, p
      ensures RC.Reads(p, {r})
      ensures Valid() && !entry.ChecksumMismatch?
      ensures entry.Entered? ==> fobj == Some(r) && delivered == [] && old(S.Latest(p.c.s.d, target)) <= version
      ensures p.failures == old(p.failures) + if entry.IoError? then [TargetRead] else []
      ensures entry.NotFound? ==>
        && entry == NotFound(RC.TargetMissing) && r in p.c.s.readers
        && p.c.s.readers[r].pc.NoTarget? && p.c.s.readers[r].target == target
      ensures !entry.Entered? ==> fobj == old(fobj) && version == old(version) && delivered == old(delivered)
    {
      hide Inv, Reaches, SI.Grows, OwnOf, Replacements, Shows, S.Latest, RC.Follows, GoodNames, Owned;
      RC.Begin(p, r, S.Reader(target, false, algo, S.Latest(p.c.s.d, target), S.Started));
      label began:
      RC.Wait(p, r);
      Onwards(p.me, old(p.c), old(p.run), old@began(p.c), old@began(p.run), p.c, p.run, {r}, {r}, target);
      RC.FollowsTwice(p.me, old(p.c), old(p.run), old@began(p.c), old@began(p.run), p.c, p.run, r);
      label waited:
      var failed: bool := *;
      if failed {
        StillOpen(old(p.c), old(p.run), p.c, p.run, {r});
        p.Fail(TargetRead);
        return IoError;
      }
      RC.Take(p, r, S.OpenTarget);
      RC.FollowsTwice(p.me, old(p.c), old(p.run), old@waited(p.c), old@waited(p.run), p.c, p.run, r);
      StillOpen(old(p.c), old(p.run), p.c, p.run, {r});
      if p.c.s.readers[r].pc.NoTarget? {
        return NotFound(RC.TargetMissing);
      }
      fobj, version, delivered := Some(r), p.c.s.readers[r].pc.version, [];
      entry := Entered;
    }

    /** The file this object has open is not touched by reads through other records. */
    lemma StillOpen(c: State, run: seq<Step>, c': State, run': seq<Step>, rs: set<S.Id>)
      requires RC.Follows(p.me, c, run, c', run', rs)
      ensures c'.s.d.targets == c.s.d.targets
      ensures fobj.Some? && fobj.value in p.me.ids && fobj.value !in rs ==>
        var r := fobj.value;
        (r in c'.s.readers <==> r in c.s.readers) && (r in c.s.readers ==> c'.s.readers[r] == c.s.readers[r])
    {
      hide RC.Follows;
      RC.Prefix(p.me, c, run, c', run', rs);
      SameTargets(c.s.d, c'.s.d);
      if fobj.Some? && fobj.value in p.me.ids && fobj.value !in rs {
        RC.OthersStay(p.me, c, run, c', run', rs, fobj.value);
      }
    }

    /**
      `read(n)`, or all of it without `n`: the next bytes of the version that
      is open, fewer than asked for only at its end.
     */
    method Read(n: Option<nat>) returns (chunk: Bytes, raised: bool)
      requires Valid()
      modifies this, p
      ensures RC.Reads(p, if fobj.Some? then {fobj.value} else {})
      ensures Valid()
      ensures fobj == old(fobj) && version == old(version) && (old(fobj).None? ==> raised)
      ensures p.failures == old(p.failures) + if raised && old(fobj).Some? then [TargetRead] else []
      ensures delivered == old(delivered) + chunk
      ensures raised ==> chunk == []
      ensures !raised && n.Some? ==> |chunk| <= n.value
      ensures !raised && (n.None? || |chunk| < n.value) ==> Shows(p.c.s.d, target, version, delivered)
    {
      hide Inv, Reaches, SI.Grows, OwnOf, Replacements, Shows, RC.Follows, GoodNames, Owned;
      IsAlive(p);
      RC.FollowsItself(p.me, p.c, p.run, if fobj.Some? then {fobj.value} else {});
      var failed: bool := *;
      if fobj.None? {
        return [], true;
      }
      if failed {
        p.Fail(TargetRead);
        return [], true;
      }
      var r := fobj.value;
      RC.Wait(p, r);
      StillOpen(old(p.c), old(p.run), p.c, p.run, {r});
      label reading:
      ghost var content := RC.OpenContent(p.c, r);
      var data := p.c.s.d.inodes[p.c.s.readers[r].pc.ino].data;
      var at := |p.c.s.readers[r].pc.got|;
      var size := if n.Some? then n.value else |data| - at;
      chunk := Slice(data, at, size);
      NextBytes(data, at, size);
      assert delivered == data[..at];
      RC.Take(p, r, S.Read(size));
      RC.FollowsTwice(p.me, old(p.c), old(p.run), old@reading(p.c), old@reading(p.run), p.c, p.run, r);
      delivered, raised := delivered + chunk, false;
    }

    method Exit()
      requires Valid()
      modifies this
      ensures Valid() && fobj.None?
    {
      hide Inv, Reaches;
      fobj := None;
    }
  }

  /** Reading on by another record changes no verdict. */
  lemma VerdictLasts(p: Process, run: seq<Step>, c: State, run1: seq<Step>, c1: State, first: S.Id, second: S.Id,
                     target: S.Name, algo: string, v: nat, data: Bytes, seen: Bytes)
    requires p.Valid() && Reaches(p.start, run, c) && run <= run1 && first in p.me.ids && first != second
    requires first !in c.s.readers && Verdict(c, Gained(run, run1), c1, first, target, algo, v, data, seen, true)
    requires RC.Follows(p.me, c1, run1, p.c, p.run, {second})
    ensures Verdict(c, Gained(run, p.run), p.c, first, target, algo, v, data, seen, true)
    ensures v <= S.Latest(c1.s.d, target)
  {
    hide Inv, Exec, OwnOf, GoodNames, Owned, RC.Follows, SidecarText.ParseBytes, Shows, SI.Vouches, SI.Grows,
        HeardIn, EverAbsent;
    RC.Prefix(p.me, c1, run1, p.c, p.run, {second});
    RC.OthersStay(p.me, c1, run1, p.c, p.run, {second}, first);
    RC.RecordIsTrue(p.start, run, c, p.run, p.c, first);
    SameTargets(c1.s.d, p.c.s.d);
    ShownIsNotNewer(c1.s.d, target, v, data);
    ShowsStays(c1.s.d, p.c.s.d, target, v, data);
  }

  lemma NextBytes(data: Bytes, at: nat, size: nat)
    requires at <= |data|
    ensures |Slice(data, at, size)| <= size
    ensures size == |data| - at || |Slice(data, at, size)| < size ==> data[..at] + Slice(data, at, size) == data
  {
  }

  lemma SameTargets(d: S.Disk, d': S.Disk)
    requires SI.Grows(d, d')
    ensures d'.targets == d.targets && d'.hash == d.hash
  {
  }

  lemma LatestGrows(d: S.Disk, d': S.Disk, t: S.Name)
    requires SI.Grows(d, d')
    ensures d'.targets == d.targets && S.Latest(d, t) <= S.Latest(d', t)
  {
  }

  lemma Onwards(me: Self, c: State, run: seq<Step>, c1: State, run1: seq<Step>, c2: State, run2: seq<Step>,
                rs1: set<S.Id>, rs2: set<S.Id>, t: S.Name)
    requires RC.Follows(me, c, run, c1, run1, rs1) && RC.Follows(me, c1, run1, c2, run2, rs2)
    ensures run <= run1 && run <= run2 && S.Latest(c.s.d, t) <= S.Latest(c1.s.d, t) <= S.Latest(c2.s.d, t)
    ensures SI.Grows(c1.s.d, c2.s.d) && c2.s.d.hash == c1.s.d.hash
  {
    hide RC.Follows, SI.Grows;
    RC.Prefix(me, c, run, c1, run1, rs1);
    RC.Prefix(me, c1, run1, c2, run2, rs2);
    SameTargets(c1.s.d, c2.s.d);
    LatestGrows(c.s.d, c1.s.d, t);
    LatestGrows(c1.s.d, c2.s.d, t);
  }

  lemma ShownIsNotNewer(d: S.Disk, t: S.Name, v: nat, content: Bytes)
    requires Shows(d, t, v, content)
    ensures v <= S.Latest(d, t)
  {
  }
}
