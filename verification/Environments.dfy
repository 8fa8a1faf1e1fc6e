/**
  Environment detection with its device-keyed cache, and the guarantee report
  on top of it (src/safeatomic/_capabilities.py:382-468 and
  src/safeatomic/_guarantees.py:258-260).  Probe results, the table of file
  system names and the guarantee matrix are arbitrary inputs.
 */
module Environments {
  import opened Basics

  type Path = seq<string>
  type Device = nat

  datatype Platform = Linux | Windows | OtherPlatform
  datatype Capability = Yes | No | Unsure

  datatype Class =
    | LocalPosixPersistent
    | LocalPosixMemory
    | Network
    | WindowsNative
    | ObjectStore
    | UnknownClass

  datatype Probes = Probes(fsyncFile: Capability, fsyncDir: Capability, atomicReplace: Capability)

  datatype Environment = Environment(platform: Platform, filesystem: Option<string>, fsClass: Class, probes: Probes)

  /** The machine as the code can observe it. `fstype` is what the mount lookup says of a path. */
  datatype World = World(
    platform: Platform,
    present: Path -> bool,
    device: Path -> Option<Device>,
    fstype: Path -> Option<string>)

  const UNKNOWN_PROBES := Probes(Unsure, Unsure, Unsure)

  /** `_classify_filesystem`. */
  function Classify(table: map<string, Class>, fstype: Option<string>, platform: Platform, probes: Probes): Class
  {
    if fstype.Some? && fstype.value in table then table[fstype.value]
    else if platform == Windows then WindowsNative
    else if probes.fsyncDir == Yes && probes.atomicReplace == Yes then LocalPosixPersistent
    else UnknownClass
  }

  /** The nearest existing ancestor of a path, itself included; the root when nothing exists. */
  function Ancestor(w: World, p: Path): (a: Path)
    ensures a <= p && (w.present(a) || a == [])
    decreases |p|
  {
    if p == [] || w.present(p) then p else Ancestor(w, p[..|p| - 1])
  }

  /** It is the nearest. */
  lemma {:induction false} AncestorIsNearest(w: World, p: Path, k: nat)
    requires |Ancestor(w, p)| < k <= |p|
    ensures !w.present(p[..k])
    decreases |p|
  {
    if p != [] && !w.present(p) {
      if k == |p| {
        assert p[..k] == p;
      } else {
        assert p[..|p| - 1][..k] == p[..k];
        AncestorIsNearest(w, p[..|p| - 1], k);
      }
    }
  }

  /** The probes have no say in the class of this type. */
  predicate Settled(table: map<string, Class>, fstype: Option<string>, platform: Platform)
  {
    (fstype.Some? && fstype.value in table) || platform == Windows
  }

  /** Every path on a device has the device's one type, which the table knows unless the platform decides. */
  ghost predicate OneTypePerDevice(table: map<string, Class>, w: World, typeOf: Device -> Option<string>)
  {
    forall p: Path | w.device(Ancestor(w, p)).Some? ::
      && w.fstype(p) == typeOf(w.device(Ancestor(w, p)).value)
      && Settled(table, typeOf(w.device(Ancestor(w, p)).value), w.platform)
  }

  class Detector<Level> {
    const table: map<string, Class>
    const matrix: Class -> map<string, Level>
    const w: World
    var cache: map<Device, Environment>

    constructor (table: map<string, Class>, matrix: Class -> map<string, Level>, w: World)
      ensures this.table == table && this.matrix == matrix && this.w == w && cache == map[]
    {
      this.table, this.matrix, this.w, cache := table, matrix, w, map[];
    }

    /** Every cached class is the one its device's type stands for. */
    ghost predicate Valid(typeOf: Device -> Option<string>)
      reads this
    {
      && OneTypePerDevice(table, w, typeOf)
      && forall d | d in cache ::
           && Settled(table, typeOf(d), w.platform) && cache[d].platform == w.platform
           && cache[d].fsClass == Classify(table, typeOf(d), w.platform, UNKNOWN_PROBES)
    }

    /** Lines 384-387: the walk up to an existing ancestor. */
    method FindAncestor(p: Path) returns (a: Path)
      ensures a == Ancestor(w, p)
    {
      a := p;
      while a != [] && !w.present(a)
        invariant a <= p && Ancestor(w, a) == Ancestor(w, p)
      {
        a := a[..|a| - 1];
      }
    }

    /** What one detection may say and leave in the cache; `probes` is what the probes would say now. */
    ghost predicate Detected(before: map<Device, Environment>, after: map<Device, Environment>, p: Path,
                             probes: Probes, env: Environment)
    {
      match w.device(Ancestor(w, p))
      case None => after == before && env == Environment(w.platform, None, UnknownClass, Probes(Unsure, Unsure, Unsure))
      case Some(d) =>
        if d in before then after == before && env == before[d]
        else
          && after == before[d := env]
          && env.platform == w.platform && env.filesystem == w.fstype(p) && env.probes == probes
          && (forall name | w.fstype(p) == Some(name) && name in table :: env.fsClass == table[name])
          && ((forall name | w.fstype(p) == Some(name) :: name !in table) ==>
                && (w.platform == Windows ==> env.fsClass == WindowsNative)
                && (w.platform != Windows ==>
                      && env.fsClass in {LocalPosixPersistent, UnknownClass}
                      && (env.fsClass == LocalPosixPersistent <==> probes.fsyncDir == probes.atomicReplace == Yes)))
    }

    /** `detect_environment`: a first detection decides for its device, later ones find it in the cache. */
    method DetectEnvironment(p: Path, probes: Probes) returns (env: Environment)
      modifies this`cache
      ensures Detected(old(cache), cache, p, probes, env)
    {
      var a := FindAncestor(p);
      var device := w.device(a);
      if device.None? {
        return Environment(w.platform, None, UnknownClass, UNKNOWN_PROBES);
      }
      if device.value in cache {
        return cache[device.value];
      }
      var fstype := w.fstype(p);
      env := Environment(w.platform, fstype, Classify(table, fstype, w.platform, probes), probes);
      cache := cache[device.value := env];
    }

    method ClearCache()
      modifies this`cache
      ensures cache == map[]
    {
      cache := map[];
    }

    /**
      `inspect_guarantees`.  Where every device has one settled type, the
      report is the same whatever was detected before and whatever the probes
      say: the table's class, or outside the table that of Windows.
     */
    method InspectGuarantees(p: Path, probes: Probes, ghost typeOf: Device -> Option<string>)
      returns (env: Environment, levels: map<string, Level>)
      modifies this`cache
      ensures Detected(old(cache), cache, p, probes, env) && levels == matrix(env.fsClass)
      ensures old(Valid(typeOf)) ==> Valid(typeOf) && env.platform == w.platform && Expected(p, env.fsClass)
    {
      env := DetectEnvironment(p, probes);
      levels := matrix(env.fsClass);
    }

    /** The class a settled type stands for; unknown if nothing can be said of the path at all. */
    ghost predicate Expected(p: Path, fsClass: Class)
    {
      match w.device(Ancestor(w, p))
      case None => fsClass == UnknownClass
      case Some(_) =>
        match w.fstype(p)
        case Some(name) => fsClass == if name in table then table[name] else WindowsNative
        case None => fsClass == WindowsNative
    }

    /** Any sequence of reports and cache clears. */
    method Reports(requests: seq<Option<(Path, Probes)>>, ghost typeOf: Device -> Option<string>)
      returns (answers: seq<Option<(Class, map<string, Level>)>>)
      requires Valid(typeOf)
      modifies this`cache
      ensures Valid(typeOf) && |answers| == |requests|
      ensures forall i | 0 <= i < |requests| && requests[i].Some? ::
        && answers[i].Some? && Expected(requests[i].value.0, answers[i].value.0)
        && answers[i].value.1 == matrix(answers[i].value.0)
    {
      answers := [];
      for i := 0 to |requests|
        invariant Valid(typeOf) && |answers| == i
        invariant forall j | 0 <= j < i && requests[j].Some? ::
          && answers[j].Some? && Expected(requests[j].value.0, answers[j].value.0)
          && answers[j].value.1 == matrix(answers[j].value.0)
      {
        match requests[i] {
          case None =>
            ClearCache();
            answers := answers + [None];
          case Some(request) =>
            var env, levels := InspectGuarantees(request.0, request.1, typeOf);
            answers := answers + [Some((env.fsClass, levels))];
        }
      }
    }
  }

  // ----- the condition is the right one -------------------------------------------------------

  /** A class is independent of what the probes say exactly for a type in the table, or on Windows. */
  lemma ProbesDoNotMatterExactly(table: map<string, Class>, fstype: Option<string>, platform: Platform)
    ensures (forall a: Probes, b: Probes :: Classify(table, fstype, platform, a) == Classify(table, fstype, platform,
        b))
      <==> Settled(table, fstype, platform)
  {
    var yes, no := Probes(Yes, Yes, Yes), Probes(No, No, No);
    assert Classify(table, fstype, platform, yes) == Classify(table, fstype, platform, no)
      ==> Settled(table, fstype, platform);
  }

  /**
    So a type outside the table makes the cache visible: a probe that failed
    once fixes the class of the whole device.
   */
  method UnknownTypeStaysUnknown<Level>(matrix: Class -> map<string, Level>, p: Path)
    returns (first: Class, second: Class, renewed: Class)
    ensures first == second == UnknownClass && renewed == LocalPosixPersistent
  {
    var w := World(Linux, q => true, q => Some(0), q => Some("newfs"));
    var d := new Detector(map[], matrix, w);
    var env1 := d.DetectEnvironment(p, Probes(Yes, No, Yes));
    var env2 := d.DetectEnvironment(p, Probes(Yes, Yes, Yes));
    d.ClearCache();
    var env3 := d.DetectEnvironment(p, Probes(Yes, Yes, Yes));
    first, second, renewed := env1.fsClass, env2.fsClass, env3.fsClass;
  }
}
