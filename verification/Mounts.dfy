/**
  Finding the mount a path lies on (`_detect_filesystem`,
  src/safeatomic/_capabilities.py:240-250).  The code compares strings; what
  it should compare is path components.
 */
module Mounts {
  import opened Basics

  /** Mount point and file system type, as listed. */
  datatype Mount = Mount(point: string, fstype: string)

  // ----- paths as components -----------------------------------------------------------------

  predicate NoSlash(s: string)
  {
    forall i | 0 <= i < |s| :: s[i] != '/'
  }

  /** Index of the first slash, or the length. */
  function WordEnd(s: string): (k: nat)
    ensures k <= |s| && NoSlash(s[..k]) && (k < |s| ==> s[k] == '/')
    ensures s != [] && s[0] != '/' ==> k > 0
  {
    if s == [] || s[0] == '/' then 0
    else
      var k := 1 + WordEnd(s[1..]);
      assert s[..k] == [s[0]] + s[1..][..k - 1];
      k
  }

  predicate Good(components: seq<string>)
  {
    forall i | 0 <= i < |components| :: components[i] != [] && NoSlash(components[i])
  }

  function Components(s: string): (components: seq<string>)
    ensures Good(components)
    decreases |s|
  {
    if s == [] then []
    else if s[0] == '/' then Components(s[1..])
    else [s[..WordEnd(s)]] + Components(s[WordEnd(s)..])
  }

  /** Each component with a slash before it. */
  function Body(components: seq<string>): string
  {
    if components == [] then [] else "/" + components[0] + Body(components[1..])
  }

  function Text(components: seq<string>): string
  {
    if components == [] then "/" else Body(components)
  }

  /** An absolute path as `resolve()` and the kernel write it. */
  predicate Normal(path: string)
  {
    path == Text(Components(path))
  }

  lemma FirstComponent(c: string, v: string)
    requires c != [] && NoSlash(c) && (v == [] || v[0] == '/')
    ensures Components("/" + c + v) == [c] + Components(v)
  {
    var s := c + v;
    WordEndAt(c, v);
    hide NoSlash, WordEnd;
    assert s[|c|..] == v && s[..|c|] == c && s[0] == c[0];
    assert ("/" + c + v)[1..] == s;
  }

  lemma {:induction false} ComponentsOfBody(components: seq<string>)
    requires Good(components)
    ensures Components(Body(components)) == components
    decreases |components|
  {
    if components != [] {
      var rest := components[1..];
      ComponentsOfBody(rest);
      StartsWithSlash(rest);
      FirstComponent(components[0], Body(rest));
      hide Components, NoSlash;
      assert components == [components[0]] + rest;
    }
  }

  /** Normal paths are exactly the texts of component lists. */
  lemma TextIsNormal(components: seq<string>)
    requires Good(components)
    ensures Normal(Text(components)) && Components(Text(components)) == components
  {
    ComponentsOfBody(components);
  }

  lemma {:induction false} WordEndAt(c: string, v: string)
    requires NoSlash(c) && (v == [] || v[0] == '/')
    ensures WordEnd(c + v) == |c|
  {
    if c == [] {
      assert c + v == v;
    } else {
      assert (c + v)[1..] == c[1..] + v;
      WordEndAt(c[1..], v);
    }
  }

  // ----- the string test is the component test ----------------------------------------------------

  lemma {:induction false} StartsWithSlash(components: seq<string>)
    ensures Body(components) == [] || Body(components)[0] == '/'
  {
  }

  /** Two slash-free words, each followed by a slash or by nothing, agree as soon as one text starts with the other. */
  lemma FirstWord(c: string, u: string, d: string, v: string)
    requires NoSlash(c) && NoSlash(d) && u != [] && u[0] == '/' && (v == [] || v[0] == '/')
    ensures c + u <= d + v <==> c == d && u <= v
  {
    if c + u <= d + v {
      var w := (d + v)[|c|..];
      assert (d + v)[..|c + u|] == c + u;
      assert c == (c + u)[..|c|] == (d + v)[..|c|];
      assert d + v == c + w && w[0] == (c + u)[|c|] == '/';
      WordEndAt(c, w);
      WordEndAt(d, v);
      assert d == (d + v)[..|d|];
      assert u == (c + u)[|c|..] && v == (d + v)[|d|..];
      assert v[..|u|] == u;
    }
    if c == d && u <= v {
      assert v == u + v[|u|..];
      assert d + v == (c + u) + v[|u|..];
    }
  }

  lemma {:induction false} BodyPrefix(m: seq<string>, t: seq<string>)
    requires Good(m) && Good(t)
    ensures Body(m) + "/" <= Body(t) <==> m < t
    decreases |m|
  {
    StartsWithSlash(t);
    if m == [] {
      assert Body(m) + "/" == "/";
      if t != [] { assert Body(t) == "/" + (t[0] + Body(t[1..])); }
    } else if t == [] {
      assert |Body(m)| > 0;
    } else {
      BodyPrefix(m[1..], t[1..]);
      StartsWithSlash(m[1..]);
      StartsWithSlash(t[1..]);
      var u, v := Body(m[1..]) + "/", Body(t[1..]);
      FirstWord(m[0], u, t[0], v);
      assert Body(m) + "/" == "/" + (m[0] + u) && Body(t) == "/" + (t[0] + v);
      SlashPrefix(m[0] + u, t[0] + v);
      ConsPrefix(m, t);
    }
  }

  lemma SlashPrefix(a: string, b: string)
    ensures "/" + a <= "/" + b <==> a <= b
  {
    assert ("/" + a)[1..] == a && ("/" + b)[1..] == b;
    if a <= b { assert "/" + b == ("/" + a) + b[|a|..]; }
    if "/" + a <= "/" + b { assert ("/" + b)[..|a| + 1] == "/" + a; assert b[..|a|] == a; }
  }

  lemma ConsPrefix<T>(m: seq<T>, t: seq<T>)
    requires m != [] && t != []
    ensures m < t <==> m[0] == t[0] && m[1..] < t[1..]
  {
    if m[0] == t[0] && m[1..] < t[1..] {
      assert t == [t[0]] + t[1..] && m == [m[0]] + m[1..];
    }
  }

  function RStripSlash(s: string): string
  {
    if s != [] && s[|s| - 1] == '/' then RStripSlash(s[..|s| - 1]) else s
  }

  lemma {:induction false} BodyEnd(components: seq<string>)
    requires Good(components) && components != []
    ensures Body(components) != [] && Body(components)[|Body(components)| - 1] != '/'
    decreases |components|
  {
    if |components| > 1 {
      BodyEnd(components[1..]);
    } else {
      assert Body(components[1..]) == [];
    }
  }

  lemma Stripped(components: seq<string>)
    requires Good(components)
    ensures RStripSlash(Text(components)) == Body(components)
  {
    if components != [] {
      BodyEnd(components);
    } else {
      assert "/"[..0] == [];
    }
  }

  /** The condition in the loop. */
  predicate OnMount(target: string, point: string)
  {
    target == point || RStripSlash(point) + "/" <= target
  }

  lemma OnMountText(t: seq<string>, m: seq<string>)
    requires Good(t) && Good(m)
    ensures OnMount(Text(t), Text(m)) <==> Text(t) == Text(m) || m < t
  {
    Stripped(m);
    BodyPrefix(m, t);
    if t == [] && m != [] {
      BodyEnd(m);
      assert |RStripSlash(Text(m)) + "/"| > |Text(t)|;
    }
  }

  lemma {:induction false} SlashesGo(s: string, n: nat)
    requires s != [] ==> s[|s| - 1] != '/'
    ensures RStripSlash(s + Slashes(n)) == s
  {
    var padded := s + Slashes(n);
    if n == 0 {
      assert padded == s;
    } else {
      assert padded[..|padded| - 1] == s + Slashes(n - 1);
      SlashesGo(s, n - 1);
    }
  }

  function Slashes(n: nat): string
  {
    seq(n, i => '/')
  }

  /** A mount point listed with slashes at its end passes the test for what lies below it, not for itself. */
  lemma TrailingSlashes(t: seq<string>, m: seq<string>, n: nat)
    requires Good(t) && Good(m) && m != [] && n > 0
    ensures OnMount(Text(t), Body(m) + Slashes(n)) <==> m < t
  {
    BodyEnd(m);
    SlashesGo(Body(m), n);
    BodyPrefix(m, t);
    var point := Body(m) + Slashes(n);
    assert point[|point| - 1] == '/' && |point| > 1;
    if t != [] { BodyEnd(t); }
  }

  lemma OnMountExactly(target: string, point: string)
    requires Normal(target) && Normal(point)
    ensures OnMount(target, point) <==> Components(point) <= Components(target)
  {
    hide OnMount, Text, Components, Good;
    var t, m := Components(target), Components(point);
    OnMountText(t, m);
    if m <= t && |m| == |t| { assert m == t[..|m|] == t; }
    if target == point { assert m == t; }
  }

  lemma {:induction false} BodyLength(m: seq<string>, t: seq<string>)
    requires Good(t) && m <= t
    ensures |Body(m)| <= |Body(t)| && (m != t ==> |Body(m)| < |Body(t)|)
    decreases |m|
  {
    if m != [] {
      assert m[0] == t[0] && m[1..] <= t[1..];
      BodyLength(m[1..], t[1..]);
      if m[1..] == t[1..] { assert m == [m[0]] + m[1..] && t == [t[0]] + t[1..]; }
    } else if t != [] {
      assert |Body(t)| > 0;
    }
  }

  /** Of two mounts a path lies on, the one with the longer name has more components. */
  lemma LongerIsDeeper(target: string, a: string, b: string)
    requires Normal(a) && Normal(b) && Components(a) <= Components(target) && Components(b) <= Components(target)
    ensures |a| > |b| <==> |Components(a)| > |Components(b)|
  {
    hide Text, Components;
    PrefixLengths(Components(target), Components(a), Components(b));
  }

  lemma PrefixLengths(t: seq<string>, m: seq<string>, n: seq<string>)
    requires Good(t) && Good(m) && Good(n) && m <= t && n <= t
    ensures |Text(m)| > |Text(n)| <==> |m| > |n|
  {
    hide Text, Good;
    if |m| <= |n| {
      assert m == t[..|m|] == n[..|m|];
      TextLength(m, n);
    } else {
      assert n == t[..|n|] == m[..|n|];
      TextLength(n, m);
    }
  }

  lemma TextLength(m: seq<string>, n: seq<string>)
    requires Good(n) && m <= n
    ensures |Text(m)| <= |Text(n)| && (m != n ==> |Text(m)| < |Text(n)|)
  {
    BodyLength(m, n);
    if n != [] && m == [] {
      assert Body(n) == "/" + n[0] + Body(n[1..]);
    }
  }

  // ----- the loop -----------------------------------------------------------------------------------------

  predicate AllNormal(mounts: seq<Mount>)
  {
    forall i | 0 <= i < |mounts| :: Normal(mounts[i].point)
  }

  predicate Covers(mount: Mount, target: string)
  {
    Components(mount.point) <= Components(target)
  }

  /** Mount `k` has the deepest mount point above the target, and is the first listed there. */
  predicate IsBest(mounts: seq<Mount>, target: string, k: nat)
  {
    && k < |mounts| && Covers(mounts[k], target)
    && (forall j | 0 <= j < |mounts| && Covers(mounts[j], target) ::
          |Components(mounts[j].point)| <= |Components(mounts[k].point)|)
    && (forall j | 0 <= j < k && Covers(mounts[j], target) ::
          |Components(mounts[j].point)| < |Components(mounts[k].point)|)
  }

  /** What the loop looks for: the first of the longest mount points that pass the string test. */
  predicate IsLongest(mounts: seq<Mount>, target: string, k: nat)
  {
    && k < |mounts| && OnMount(target, mounts[k].point) && mounts[k].point != ""
    && (forall j | 0 <= j < |mounts| && OnMount(target, mounts[j].point) :: |mounts[j].point| <= |mounts[k].point|)
    && (forall j | 0 <= j < k && OnMount(target, mounts[j].point) :: |mounts[j].point| < |mounts[k].point|)
  }

  predicate NoneOn(mounts: seq<Mount>, target: string)
  {
    forall i | 0 <= i < |mounts| && OnMount(target, mounts[i].point) :: mounts[i].point == ""
  }

  predicate Longest(mounts: seq<Mount>, target: string, best: Option<nat>)
  {
    match best
    case Some(k) => IsLongest(mounts, target, k)
    case None => NoneOn(mounts, target)
  }

  /** One more listed mount: it takes over if it passes the test and is longer than the best so far. */
  lemma OneMoreMount(mounts: seq<Mount>, target: string, i: nat, best: Option<nat>)
    requires i < |mounts| && Longest(mounts[..i], target, best)
    ensures var longest := if best.Some? then |mounts[best.value].point| else 0;
      var takes := OnMount(target, mounts[i].point) && |mounts[i].point| > longest;
      Longest(mounts[..i + 1], target, if takes then Some(i) else best)
  {
    hide OnMount;
    assert forall j | 0 <= j < i :: mounts[..i + 1][j] == mounts[..i][j] == mounts[j];
    assert mounts[..i + 1][i] == mounts[i];
  }

  /**
    The loop returns the type of the first of the longest matching mounts,
    whatever the mount points and the path look like.  Where they are normal
    paths, that is the deepest mount above the path.
   */
  method DetectFilesystem(linux: bool, mounts: Option<seq<Mount>>, target: string) returns (fstype: Option<string>)
    ensures fstype.None? <==> !linux || mounts.None? || NoneOn(mounts.value, target)
    ensures fstype.Some? ==>
      mounts.Some? && exists k: nat :: IsLongest(mounts.value, target, k) && fstype.value == mounts.value[k].fstype
    ensures mounts.Some? && Normal(target) && AllNormal(mounts.value) ==>
      && (fstype.None? <==> !linux || forall i | 0 <= i < |mounts.value| :: !Covers(mounts.value[i], target))
      && (fstype.Some? ==> exists k: nat :: IsBest(mounts.value, target, k) && fstype.value == mounts.value[k].fstype)
  {
    hide Covers, Components, Normal, OnMount, IsBest;
    if mounts.Some? && Normal(target) && AllNormal(mounts.value) { LongestIsDeepest(mounts.value, target); }
    if !linux || mounts.None? || mounts.value == [] {
      return None;
    }
    var all := mounts.value;
    var bestMount := "";
    fstype := None;
    ghost var best: Option<nat> := None;
    for i := 0 to |all|
      invariant Longest(all[..i], target, best)
      invariant match best
                case Some(k) => k < i && fstype == Some(all[k].fstype) && bestMount == all[k].point
                case None => fstype == None && bestMount == ""
    {
      OneMoreMount(all, target, i, best);
      if OnMount(target, all[i].point) && |all[i].point| > |bestMount| {
        bestMount := all[i].point;
        fstype := Some(all[i].fstype);
        best := Some(i);
      }
    }
    assert all[..|all|] == all;
  }

  /** Among normal paths the longest matching mount is the deepest one above the target. */
  lemma LongestIsDeepest(mounts: seq<Mount>, target: string)
    requires Normal(target) && AllNormal(mounts)
    ensures NoneOn(mounts, target) <==> forall i | 0 <= i < |mounts| :: !Covers(mounts[i], target)
    ensures forall k: nat :: IsLongest(mounts, target, k) <==> IsBest(mounts, target, k)
  {
    hide Components, OnMount, Normal;
    forall i | 0 <= i < |mounts|
      ensures OnMount(target, mounts[i].point) <==> Covers(mounts[i], target)
      ensures mounts[i].point != ""
    {
      OnMountExactly(target, mounts[i].point);
      NormalIsNotEmpty(mounts[i].point);
    }
    forall i, j | 0 <= i < |mounts| && 0 <= j < |mounts| && Covers(mounts[i], target) && Covers(mounts[j], target)
      ensures |mounts[i].point| > |mounts[j].point|
        <==> |Components(mounts[i].point)| > |Components(mounts[j].point)|
    {
      LongerIsDeeper(target, mounts[i].point, mounts[j].point);
    }
  }

  lemma NormalIsNotEmpty(path: string)
    requires Normal(path)
    ensures path != ""
  {
    if Components(path) != [] { BodyEnd(Components(path)); }
  }

  // ----- mount points that are not normal --------------------------------------------------------------

  /** The points in the list are normal, or this one. */
  predicate NormalBut(mounts: seq<Mount>, point: string)
  {
    forall i | 0 <= i < |mounts| :: Normal(mounts[i].point) || mounts[i].point == point
  }

  /** For this list and target the loop finds the deepest mount. */
  ghost predicate FindsDeepest(mounts: seq<Mount>, target: string)
  {
    forall k: nat :: IsLongest(mounts, target, k) <==> IsBest(mounts, target, k)
  }

  lemma {:induction false} ComponentsEndInSlash(s: string)
    ensures Components(s + "/") == Components(s)
    decreases |s|
  {
    if s == [] {
      assert s + "/" == "/";
      assert "/"[1..] == "";
    } else if s[0] == '/' {
      assert (s + "/")[1..] == s[1..] + "/";
      ComponentsEndInSlash(s[1..]);
    } else {
      var k := WordEnd(s);
      assert s[..k] + (s[k..] + "/") == s + "/";
      WordEndAt(s[..k], s[k..] + "/");
      assert (s + "/")[..k] == s[..k] && (s + "/")[k..] == s[k..] + "/";
      ComponentsEndInSlash(s[k..]);
    }
  }

  lemma {:induction false} StrippedComponents(s: string)
    ensures Components(RStripSlash(s)) == Components(s)
    decreases |s|
  {
    if s != [] && s[|s| - 1] == '/' {
      assert s == s[..|s| - 1] + "/";
      ComponentsEndInSlash(s[..|s| - 1]);
      StrippedComponents(s[..|s| - 1]);
    }
  }

  lemma SlashAfterWord(c: string, rest: string, k: nat)
    requires NoSlash(c) && k < |c + rest| && (c + rest)[k] == '/'
    ensures |c| <= k
  {
  }

  /** What stands before a slash in a normal path is a shorter path. */
  lemma {:induction false} BeforeSlash(u: string, t: seq<string>)
    requires Good(t) && u + "/" <= Body(t)
    ensures Components(u) < t
    decreases |t|
  {
    if t != [] && u != [] {
      var rest := Body(t[1..]);
      var body := t[0] + rest;
      assert Body(t) == "/" + body;
      assert u[0] == (u + "/")[0] == '/';
      var v := u[1..];
      assert u == "/" + v && u + "/" == "/" + (v + "/");
      SlashPrefix(v + "/", body);
      assert body[|v|] == (v + "/")[|v|] == '/';
      SlashAfterWord(t[0], rest, |v|);
      var v' := v[|t[0]|..];
      assert v[..|t[0]|] == (v + "/")[..|t[0]|] == body[..|t[0]|] == t[0];
      assert v == t[0] + v';
      assert v' + "/" == (v + "/")[|t[0]|..] && rest == body[|t[0]|..];
      assert (v + "/") == body[..|v| + 1];
      assert v' + "/" == rest[..|v'| + 1];
      BeforeSlash(v', t[1..]);
      StartsWithSlash(t[1..]);
      assert v' == [] || v'[0] == '/' by { if v' != [] { assert v'[0] == rest[0]; } }
      FirstComponent(t[0], v');
      assert u == "/" + t[0] + v';
      ConsPrefix([t[0]] + Components(v'), t);
      assert ([t[0]] + Components(v'))[1..] == Components(v');
    }
  }

  /** A point that is no normal path does not match the path it stands for. */
  lemma MissesItself(point: string)
    requires !Normal(point) && Components(point) != []
    ensures !OnMount(Text(Components(point)), point)
  {
    var t := Components(point);
    StrippedComponents(point);
    if RStripSlash(point) + "/" <= Body(t) { BeforeSlash(RStripSlash(point), t); }
  }

  lemma {:induction false} OnlySlashes(point: string)
    requires Components(point) == []
    ensures RStripSlash(point) == []
    decreases |point|
  {
    if point != [] {
      assert point[0] == '/';
      OnlySlashesBack(point);
      StrippedComponents(point);
      StrippedComponents(point[..|point| - 1]);
      assert point == point[..|point| - 1] + "/";
      ComponentsEndInSlash(point[..|point| - 1]);
      OnlySlashes(point[..|point| - 1]);
    }
  }

  lemma {:induction false} OnlySlashesBack(point: string)
    requires Components(point) == [] && point != []
    ensures point[|point| - 1] == '/'
    decreases |point|
  {
    if |point| > 1 { OnlySlashesBack(point[1..]); }
  }

  /** Somewhere the loop errs because of a point that is not normal. */
  lemma UnnormalisedMountMisleads(point: string) returns (mounts: seq<Mount>, target: string)
    requires !Normal(point)
    ensures Normal(target) && NormalBut(mounts, point) && !FindsDeepest(mounts, target)
  {
    var bad := Mount(point, "");
    if Components(point) != [] {
      mounts, target := [bad], Text(Components(point));
      MissesItself(point);
      TextIsNormal(Components(point));
      assert IsBest(mounts, target, 0) && !IsLongest(mounts, target, 0);
    } else {
      OnlySlashes(point);
      mounts, target := [Mount("/", ""), bad], "/";
      TextIsNormal([]);
      assert Components("/") == [];
      assert RStripSlash("/") == [] by { assert "/"[..0] == []; }
      if point == "" {
        mounts := [bad];
        assert IsBest(mounts, target, 0) && !IsLongest(mounts, target, 0);
      } else {
        OnlySlashesBack(point);
        assert |point| == 1 ==> point == "/";
        assert IsBest(mounts, target, 0);
        assert mounts[1].point == point && OnMount(target, mounts[1].point);
        assert |mounts[0].point| < |mounts[1].point|;
        assert !IsLongest(mounts, target, 0);
      }
    }
  }

  /**
    The exact condition: a mount point does no harm, in whatever list of
    otherwise normal ones, if and only if it is itself normal.
   */
  lemma NormalPointsExactly(point: string)
    ensures Normal(point) <==>
      forall mounts: seq<Mount>, target: string | Normal(target) && NormalBut(mounts, point) ::
        FindsDeepest(mounts, target)
  {
    hide Components, OnMount, IsLongest, IsBest;
    if Normal(point) {
      forall mounts: seq<Mount>, target: string | Normal(target) && NormalBut(mounts, point)
        ensures FindsDeepest(mounts, target)
      {
        assert AllNormal(mounts);
        LongestIsDeepest(mounts, target);
      }
    } else {
      var mounts, target := UnnormalisedMountMisleads(point);
    }
  }
}
