/**
  The names that belong to a target (src/safeatomic/_paths.py).  Every derived
  name lives in the target's own directory, so a name here is a basename.
 */
module Paths {

  const LOCK_SUFFIX := ".lock"
  const CHECKSUM_SUFFIX := ".sha256"
  const TMP_PREFIX := ".safeatomic-tmp-"
  const TMP_SUFFIX := ".tmp"

  function LockPath(target: string): string
  {
    target + LOCK_SUFFIX
  }

  function ChecksumPath(target: string): string
  {
    target + CHECKSUM_SUFFIX
  }

  /** `token` is the random part; the code draws it afresh for every call. */
  function TmpName(token: string): string
  {
    TMP_PREFIX + token + TMP_SUFFIX
  }

  predicate EndsWith(s: string, suffix: string)
  {
    |suffix| <= |s| && s[|s| - |suffix|..] == suffix
  }

  predicate IsTmpName(name: string)
  {
    TMP_PREFIX <= name && EndsWith(name, TMP_SUFFIX)
  }

  predicate Apart(t: string, u: string)
  {
    !IsTmpName(t) && t != LockPath(u) && t != ChecksumPath(u)
  }

  /**
    What the caller owes the library when several targets share a directory:
    no target looks like a temporary file or is another target's sidecar.
   */
  ghost predicate GoodTargets(targets: set<string>)
  {
    forall t, u {:trigger Apart(t, u)} | t in targets && u in targets :: Apart(t, u)
  }

  lemma EndsWithAppend(s: string, suffix: string)
    ensures EndsWith(s + suffix, suffix)
  {
    assert (s + suffix)[|s|..] == suffix;
  }

  /** The last character decides between the three suffixes. */
  lemma LastChar(s: string, suffix: string)
    requires suffix != [] && EndsWith(s, suffix)
    ensures s != [] && s[|s| - 1] == suffix[|suffix| - 1]
  {
    assert s[|s| - |suffix|..][|suffix| - 1] == s[|s| - 1];
  }

  /**
    The three families of derived names never meet, and within a family
    different targets (or different tokens) have different names.
   */
  lemma {:induction false} DerivedNames(t: string, u: string)
    ensures LockPath(t) != ChecksumPath(u)
    ensures !IsTmpName(LockPath(t)) && !IsTmpName(ChecksumPath(t))
    ensures LockPath(t) == LockPath(u) ==> t == u
    ensures ChecksumPath(t) == ChecksumPath(u) ==> t == u
    ensures TmpName(t) == TmpName(u) ==> t == u
    ensures LockPath(t) != t && ChecksumPath(t) != t
    ensures LockPath(t) == t + ".lock" && ChecksumPath(t) == t + ".sha256"
  {
    EndsWithAppend(t, LOCK_SUFFIX);
    EndsWithAppend(t, CHECKSUM_SUFFIX);
    EndsWithAppend(u, CHECKSUM_SUFFIX);
    LastChar(LockPath(t), LOCK_SUFFIX);
    LastChar(ChecksumPath(t), CHECKSUM_SUFFIX);
    LastChar(ChecksumPath(u), CHECKSUM_SUFFIX);
    if IsTmpName(LockPath(t)) { LastChar(LockPath(t), TMP_SUFFIX); }
    if IsTmpName(ChecksumPath(t)) { LastChar(ChecksumPath(t), TMP_SUFFIX); }
    assert LockPath(t)[..|t|] == t && LockPath(u)[..|u|] == u;
    assert ChecksumPath(t)[..|t|] == t && ChecksumPath(u)[..|u|] == u;
    assert TmpName(t)[|TMP_PREFIX|..|TMP_PREFIX| + |t|] == t;
    assert TmpName(u)[|TMP_PREFIX|..|TMP_PREFIX| + |u|] == u;
  }

  /** The lexical test accepts exactly the names `TmpName` can produce: prefix and suffix cannot overlap. */
  lemma TmpNamesExactly(name: string)
    ensures IsTmpName(name) <==> exists token :: name == TmpName(token)
    ensures TmpName(name) == ".safeatomic-tmp-" + name + ".tmp"
  {
    if IsTmpName(name) {
      var p, q := |TMP_PREFIX|, |TMP_SUFFIX|;
      assert name[..p] == TMP_PREFIX;
      assert TMP_PREFIX == name[..p];
      assert forall i | 0 < i < p :: TMP_PREFIX[i] != '.';
      assert name[|name| - q..][0] == name[|name| - q] == '.';
      assert name == TmpName(name[p..|name| - q]);
    }
    forall token ensures IsTmpName(TmpName(token)) {
      EndsWithAppend(TMP_PREFIX + token, TMP_SUFFIX);
      assert TMP_PREFIX <= TmpName(token);
    }
  }
}
