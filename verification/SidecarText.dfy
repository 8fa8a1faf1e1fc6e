/**
  The checksum sidecar as text (src/safeatomic/_checksum.py): how
  `write_checksum_file` prints it and how `get_checksum_info` reads it back.
  Characters outside ASCII never reach the parser, because the file is
  decoded as ASCII with replacement, so white space means ASCII white space.
 */
module SidecarText {
  import opened Basics

  const DEFAULT_ALGO := "sha256"
  const REPLACEMENT: char := '\U{FFFD}'

  datatype Info = Info(digest: string, algo: string, timestamp: Option<string>)

  // ----- the ASCII codec ----------------------------------------------------

  predicate IsAscii(s: string)
  {
    forall i | 0 <= i < |s| :: s[i] as int < 128
  }

  /** None is the encoder's UnicodeEncodeError. */
  function EncodeAscii(s: string): (r: Option<Bytes>)
    ensures r.Some? <==> IsAscii(s)
    ensures r.Some? ==> |r.value| == |s|
  {
    if IsAscii(s) then Some(seq(|s|, i requires 0 <= i < |s| => s[i] as int as byte)) else None
  }

  function DecodeAscii(b: Bytes): (s: string)
    ensures |s| == |b|
  {
    seq(|b|, i requires 0 <= i < |b| => if b[i] < 128 then b[i] as int as char else REPLACEMENT)
  }

  lemma DecodeEncode(s: string)
    requires IsAscii(s)
    ensures DecodeAscii(EncodeAscii(s).value) == s
  {
    var b := EncodeAscii(s).value;
    forall i | 0 <= i < |s| ensures DecodeAscii(b)[i] == s[i] {
      assert b[i] == s[i] as int as byte;
    }
  }

  // ----- Python string methods ----------------------------------------------

  predicate IsBreak(c: char)
  {
    c in "\n\r\U{0B}\U{0C}\U{1C}\U{1D}\U{1E}"
  }

  predicate IsSpace(c: char)
  {
    IsBreak(c) || c in " \t\U{1F}"
  }

  predicate NoBreak(s: string)
  {
    forall i | 0 <= i < |s| :: !IsBreak(s[i])
  }

  predicate NoSpace(s: string)
  {
    forall i | 0 <= i < |s| :: !IsSpace(s[i])
  }

  /** Reading in text mode: "\r\n" and a lone "\r" become "\n". */
  function Newlines(s: string): string
  {
    if s == [] then []
    else if s[0] == '\r' then
      "\n" + Newlines(if |s| > 1 && s[1] == '\n' then s[2..] else s[1..])
    else [s[0]] + Newlines(s[1..])
  }

  function LineEnd(s: string): (k: nat)
    ensures k <= |s| && NoBreak(s[..k])
    ensures k < |s| ==> IsBreak(s[k])
  {
    if s == [] || IsBreak(s[0]) then 0
    else
      var k := 1 + LineEnd(s[1..]);
      assert s[..k] == [s[0]] + s[1..][..k - 1];
      k
  }

  /** `str.splitlines` on text that text mode has already translated. */
  function SplitLines(s: string): (lines: seq<string>)
    ensures forall i | 0 <= i < |lines| :: NoBreak(lines[i])
  {
    if s == [] then []
    else
      var k := LineEnd(s);
      [s[..k]] + (if k == |s| then [] else SplitLines(s[k + 1..]))
  }

  function Lines(raw: string): seq<string>
  {
    SplitLines(Newlines(raw))
  }

  function LStrip(s: string): string
  {
    if s != [] && IsSpace(s[0]) then LStrip(s[1..]) else s
  }

  function RStrip(s: string): string
  {
    if s != [] && IsSpace(s[|s| - 1]) then RStrip(s[..|s| - 1]) else s
  }

  function Strip(s: string): string
  {
    RStrip(LStrip(s))
  }

  function Word(s: string): string
  {
    if s == [] || IsSpace(s[0]) then [] else [s[0]] + Word(s[1..])
  }

  /** `s.split()[0]`, empty when there is no token. */
  function FirstToken(s: string): string
  {
    Word(LStrip(s))
  }

  function LowerChar(c: char): char
  {
    if 'A' <= c <= 'Z' then (c as int + 32) as char else c
  }

  function Lower(s: string): (r: string)
    ensures |r| == |s|
  {
    seq(|s|, i requires 0 <= i < |s| => LowerChar(s[i]))
  }

  /** Index of the first '=' sign, or the length when there is none. */
  function EqualsAt(s: string): (k: nat)
    ensures k <= |s| && (k < |s| ==> s[k] == '=')
    ensures forall i | 0 <= i < k :: s[i] != '='
  {
    if s == [] || s[0] == '=' then 0 else 1 + EqualsAt(s[1..])
  }

  // ----- printer and parser -------------------------------------------------

  function Print(digest: string, name: string, algo: string, timestamp: string): string
  {
    digest + ("  " + name + "\n") + ("algo=" + algo) + "\n" + ("timestamp=" + timestamp) + "\n"
  }

  function Put(kvs: map<string, string>, line: string): map<string, string>
  {
    var k := EqualsAt(line);
    if k < |line| then kvs[Strip(line[..k]) := Strip(line[k + 1..])] else kvs
  }

  function Pairs(lines: seq<string>): map<string, string>
  {
    if lines == [] then map[] else Put(Pairs(lines[..|lines| - 1]), lines[|lines| - 1])
  }

  function InfoOf(digest: string, kvs: map<string, string>): Info
  {
    Info(digest,
         if "algo" in kvs then kvs["algo"] else DEFAULT_ALGO,
         if "timestamp" in kvs then Some(kvs["timestamp"]) else None)
  }

  function Parse(raw: string): Option<Info>
  {
    var lines := Lines(raw);
    if lines == [] || FirstToken(lines[0]) == [] then None
    else Some(InfoOf(Lower(FirstToken(lines[0])), Pairs(lines[1..])))
  }

  function ParseBytes(b: Bytes): Option<Info>
  {
    Parse(DecodeAscii(b))
  }

  /** The parser as the code runs it: one pass over the lines that overwrites earlier keys. */
  method GetChecksumInfo(sidecar: Option<Bytes>) returns (info: Option<Info>)
    ensures info == if sidecar.None? then None else ParseBytes(sidecar.value)
  {
    hide Pairs, Strip, SplitLines, Newlines, FirstToken, Lower, DecodeAscii;
    NoPairs();
    if sidecar.None? {
      return None;
    }
    var lines := Lines(DecodeAscii(sidecar.value));
    if lines == [] || FirstToken(lines[0]) == [] {
      return None;
    }
    var kvs: map<string, string> := map[];
    var rest := lines[1..];
    for i := 0 to |rest|
      invariant kvs == Pairs(rest[..i])
    {
      OneMorePair(rest, i);
      var k := EqualsAt(rest[i]);
      if k < |rest[i]| {
        kvs := kvs[Strip(rest[i][..k]) := Strip(rest[i][k + 1..])];
      }
    }
    assert rest[..|rest|] == rest;
    info := Some(InfoOf(Lower(FirstToken(lines[0])), kvs));
  }

  lemma NoPairs()
    ensures Pairs([]) == map[]
  {
  }

  lemma OneMorePair(lines: seq<string>, i: nat)
    requires i < |lines|
    ensures Pairs(lines[..i + 1]) == Put(Pairs(lines[..i]), lines[i])
  {
    assert lines[..i + 1][..i] == lines[..i];
  }

  // ----- line structure of printed text ---------------------------------------

  predicate Ends(s: string, c: char)
  {
    s != [] && s[|s| - 1] == c
  }

  lemma {:induction false} NewlinesAppend(u: string, v: string)
    requires !Ends(u, '\r')
    ensures Newlines(u + v) == Newlines(u) + Newlines(v)
    decreases |u|
  {
    if u == [] {
      assert u + v == v;
    } else {
      var n := if u[0] == '\r' && u[1] == '\n' then 2 else 1;
      assert (u + v)[n..] == u[n..] + v;
      NewlinesAppend(u[n..], v);
    }
  }

  lemma {:induction false} NewlinesNothingToDo(s: string)
    requires NoBreak(s)
    ensures Newlines(s) == s
  {
    if s != [] { NewlinesNothingToDo(s[1..]); }
  }

  lemma {:induction false} NewlinesEnd(s: string)
    requires Ends(s, '\n')
    ensures Ends(Newlines(s), '\n')
    decreases |s|
  {
    if |s| > 1 {
      var n := if s[0] == '\r' && s[1] == '\n' then 2 else 1;
      if n < |s| { NewlinesEnd(s[n..]); }
    }
  }

  lemma {:induction false} LineEndAt(s: string, k: nat)
    requires k <= |s| && NoBreak(s[..k]) && (k < |s| ==> IsBreak(s[k]))
    ensures LineEnd(s) == k
  {
    var e := LineEnd(s);
    assert forall i | 0 <= i < k :: s[..k][i] == s[i];
    assert forall i | 0 <= i < e :: s[..e][i] == s[i];
  }

  lemma LineEndAppend(u: string, v: string)
    requires Ends(u, '\n')
    ensures LineEnd(u) < |u| && LineEnd(u + v) == LineEnd(u)
  {
    var k := LineEnd(u);
    assert forall i | 0 <= i < k :: u[..k][i] == u[i];
    assert (u + v)[..k] == u[..k];
    LineEndAt(u + v, k);
  }

  lemma {:induction false} SplitAppend(u: string, v: string)
    requires Ends(u, '\n')
    ensures SplitLines(u + v) == SplitLines(u) + SplitLines(v)
    decreases |u|
  {
    hide LineEnd, IsBreak, NoBreak;
    var k := LineEnd(u);
    LineEndAppend(u, v);
    assert (u + v)[..k] == u[..k];
    assert (u + v)[k + 1..] == u[k + 1..] + v;
    if k + 1 < |u| {
      SplitAppend(u[k + 1..], v);
    } else {
      assert u[k + 1..] == [];
      assert u[k + 1..] + v == v;
    }
  }

  lemma SplitOneLine(s: string)
    requires NoBreak(s)
    ensures SplitLines(s + "\n") == [s]
  {
    assert (s + "\n")[..|s|] == s;
    LineEndAt(s + "\n", |s|);
    assert (s + "\n")[|s| + 1..] == [];
  }

  /** A clean last line comes back as one line, whatever stood before it. */
  lemma LastLine(x: string, y: string)
    requires Ends(x, '\n') && NoBreak(y)
    ensures Lines(x + y + "\n") == Lines(x) + [y]
  {
    assert x + y + "\n" == x + (y + "\n");
    NewlinesAppend(x, y + "\n");
    if y != [] { assert !IsBreak(y[|y| - 1]); }
    NewlinesAppend(y, "\n");
    NewlinesNothingToDo(y);
    assert Newlines("\n") == "\n";
    NewlinesEnd(x);
    SplitAppend(Newlines(x), y + "\n");
    SplitOneLine(y);
  }

  /** Text that starts with an unbroken prefix has a first line that starts with it too. */
  lemma FirstLine(p: string, r: string)
    requires p != [] && NoBreak(p)
    ensures Lines(p + r) != [] && p <= Lines(p + r)[0]
  {
    assert !IsBreak(p[|p| - 1]);
    NewlinesAppend(p, r);
    NewlinesNothingToDo(p);
    var s := Newlines(p + r);
    assert s == p + Newlines(r);
    var k := LineEnd(s);
    assert forall i | 0 <= i < |p| :: s[i] == p[i];
    assert p == s[..|p|] == s[..k][..|p|];
  }

  lemma {:induction false} WordAt(d: string, r: string)
    requires NoSpace(d) && r != [] && IsSpace(r[0])
    ensures Word(d + r) == d
  {
    if d == [] {
      assert d + r == r;
    } else {
      assert (d + r)[1..] == d[1..] + r;
      WordAt(d[1..], r);
    }
  }

  // ----- stripping ------------------------------------------------------------

  lemma {:induction false} LStripShape(s: string)
    ensures |LStrip(s)| <= |s| && LStrip(s) == s[|s| - |LStrip(s)|..]
    ensures LStrip(s) != [] ==> !IsSpace(LStrip(s)[0])
  {
    if s != [] && IsSpace(s[0]) {
      LStripShape(s[1..]);
    }
  }

  lemma {:induction false} RStripShape(s: string)
    ensures |RStrip(s)| <= |s| && RStrip(s) == s[..|RStrip(s)|]
    ensures RStrip(s) != [] ==> !IsSpace(RStrip(s)[|RStrip(s)| - 1])
  {
    if s != [] && IsSpace(s[|s| - 1]) {
      RStripShape(s[..|s| - 1]);
    }
  }

  /** No line breaks and no outer white space: what a value must be to survive the sidecar. */
  predicate Clean(s: string)
  {
    NoBreak(s) && (s != [] ==> !IsSpace(s[0]) && !IsSpace(s[|s| - 1]))
  }

  lemma StripIsClean(s: string)
    requires NoBreak(s)
    ensures Clean(Strip(s))
  {
    LStripShape(s);
    RStripShape(LStrip(s));
    hide LStrip, RStrip, IsSpace, IsBreak;
    var l := LStrip(s);
    assert forall k | 0 <= k < |l| :: l[k] == s[|s| - |l| + k];
    assert forall k | 0 <= k < |RStrip(l)| :: RStrip(l)[k] == l[k];
  }

  lemma StripKeepsClean(s: string)
    requires Clean(s)
    ensures Strip(s) == s
  {
    hide IsSpace, IsBreak;
  }

  lemma {:induction false} PairsAreClean(lines: seq<string>)
    requires forall i | 0 <= i < |lines| :: NoBreak(lines[i])
    ensures forall k | k in Pairs(lines) :: Clean(Pairs(lines)[k])
  {
    if lines != [] {
      var line := lines[|lines| - 1];
      PairsAreClean(lines[..|lines| - 1]);
      var k := EqualsAt(line);
      if k < |line| {
        assert NoBreak(line[k + 1..]);
        StripIsClean(line[k + 1..]);
      }
    }
  }

  lemma PutKey(kvs: map<string, string>, key: string, value: string)
    requires Clean(key) && Clean(value) && '=' !in key
    ensures Put(kvs, key + "=" + value) == kvs[key := value]
  {
    var line := key + "=" + value;
    var k := EqualsAt(line);
    assert forall i | 0 <= i < |key| :: line[i] == key[i];
    assert line[|key|] == '=';
    assert line[..k] == key && line[k + 1..] == value;
    StripKeepsClean(key);
    StripKeepsClean(value);
  }

  lemma LastPairs(lines: seq<string>, a: string, t: string)
    requires lines != []
    ensures Pairs((lines + [a] + [t])[1..]) == Put(Put(Pairs(lines[1..]), a), t)
  {
    var front := lines[1..];
    assert (lines + [a] + [t])[1..] == front + [a] + [t];
    assert (front + [a] + [t])[..|front| + 1] == front + [a];
    assert (front + [a])[..|front|] == front;
  }

  // ----- the round trip ---------------------------------------------------------

  /** A lowercase hex digest has this shape. */
  predicate IsDigest(d: string)
  {
    d != [] && NoSpace(d) && Lower(d) == d
  }

  lemma ParsedAlgoIsClean(raw: string)
    requires Parse(raw).Some?
    ensures Clean(Parse(raw).value.algo)
    ensures Parse(raw).value.timestamp.Some? ==> Clean(Parse(raw).value.timestamp.value)
  {
    hide SplitLines, Newlines, FirstToken, Lower, Pairs, IsBreak, IsSpace;
    DefaultIsClean();
    PairsAreClean(Lines(raw)[1..]);
    hide Clean;
  }

  lemma DefaultIsClean()
    ensures Clean(DEFAULT_ALGO)
  {
  }

  /** Text that starts with a digest and a space says that digest. */
  lemma DigestFirst(digest: string, r: string)
    requires IsDigest(digest)
    ensures var p := Parse(digest + " " + r); p.Some? && p.value.digest == digest
  {
    var p := digest + " ";
    assert forall i | 0 <= i < |p| :: !IsBreak(p[i]);
    FirstLine(p, r);
    var first := Lines(p + r)[0];
    assert first == digest + first[|digest|..] && first[|digest|] == p[|digest|];
    assert first[0] == digest[0] && LStrip(first) == first;
    WordAt(digest, first[|digest|..]);
  }

  /** Whatever the name and the other fields are, the digest is the first token. */
  lemma DigestComesBack(digest: string, name: string, algo: string, timestamp: string)
    requires IsDigest(digest)
    ensures var p := Parse(Print(digest, name, algo, timestamp)); p.Some? && p.value.digest == digest
  {
    var text := Print(digest, name, algo, timestamp);
    assert text == digest + " " + text[|digest| + 1..];
    hide Print, Parse;
    DigestFirst(digest, text[|digest| + 1..]);
  }

  lemma {:induction false} WholeWord(s: string)
    requires NoSpace(s)
    ensures Word(s) == s
  {
    if s != [] { WholeWord(s[1..]); }
  }

  /** A sidecar that holds one word holds that as its digest, in lower case; an empty one holds nothing. */
  lemma OneWord(word: string)
    requires NoSpace(word)
    ensures var p := Parse(word); if word == [] then p.None? else p.Some? && p.value.digest == Lower(word)
  {
    assert NoBreak(word);
    NewlinesNothingToDo(word);
    if word != [] {
      assert word[..|word|] == word;
      LineEndAt(word, |word|);
      WholeWord(word);
      assert LStrip(word) == word;
    }
  }

  /** The first `n` characters of a sidecar say its digest, or as much of it as they hold. */
  lemma PartOfTheText(digest: string, name: string, algo: string, timestamp: string, n: nat)
    requires IsDigest(digest) && n <= |Print(digest, name, algo, timestamp)|
    ensures var p := Parse(Print(digest, name, algo, timestamp)[..n]);
      if n == 0 then p.None? else p.Some? && p.value.digest == digest[..if n < |digest| then n else |digest|]
  {
    var text := Print(digest, name, algo, timestamp);
    if n <= |digest| {
      var word := digest[..n];
      assert text[..n] == word;
      LowerOfPart(digest, n);
      OneWord(word);
    } else {
      assert text[..n] == digest + " " + text[|digest| + 1..n];
      assert digest[..|digest|] == digest;
      hide Print, Parse;
      DigestFirst(digest, text[|digest| + 1..n]);
    }
  }

  lemma LowerOfPart(digest: string, n: nat)
    requires Lower(digest) == digest && n <= |digest|
    ensures Lower(digest[..n]) == digest[..n]
  {
    forall i | 0 <= i < n ensures Lower(digest[..n])[i] == digest[..n][i] {
      assert Lower(digest)[i] == digest[i];
    }
  }

  lemma NoBreakAppend(p: string, s: string)
    requires NoBreak(p) && NoBreak(s)
    ensures NoBreak(p + s)
  {
  }

  /** The two key=value lines close the text, so they are the last two lines whatever precedes them. */
  lemma ClosingLines(digest: string, name: string, algo: string, timestamp: string)
    requires Clean(algo) && Clean(timestamp)
    ensures Lines(Print(digest, name, algo, timestamp))
      == Lines(digest + ("  " + name + "\n")) + ["algo=" + algo] + ["timestamp=" + timestamp]
  {
    var head := digest + ("  " + name + "\n");
    NoBreakAppend("algo=", algo);
    NoBreakAppend("timestamp=", timestamp);
    LastLine(head, "algo=" + algo);
    LastLine(head + ("algo=" + algo) + "\n", "timestamp=" + timestamp);
  }

  lemma PutBoth(kvs: map<string, string>, algo: string, timestamp: string)
    requires Clean(algo) && Clean(timestamp)
    ensures Put(Put(kvs, "algo=" + algo), "timestamp=" + timestamp)
      == kvs["algo" := algo]["timestamp" := timestamp]
  {
    assert "algo" + "=" == "algo=" && "timestamp" + "=" == "timestamp=";
    PutKey(kvs, "algo", algo);
    PutKey(kvs["algo" := algo], "timestamp", timestamp);
  }

  lemma FieldsComeBack(digest: string, name: string, algo: string, timestamp: string)
    requires IsDigest(digest) && Clean(algo) && Clean(timestamp)
    ensures Parse(Print(digest, name, algo, timestamp)) == Some(Info(digest, algo, Some(timestamp)))
  {
    var head := Lines(digest + ("  " + name + "\n"));
    FirstLine(digest, "  " + name + "\n");
    DigestComesBack(digest, name, algo, timestamp);
    ClosingLines(digest, name, algo, timestamp);
    LastPairs(head, "algo=" + algo, "timestamp=" + timestamp);
    PutBoth(Pairs(head[1..]), algo, timestamp);
  }

  /**
    The printer and the parser undo each other for every file name, also one
    with line breaks or with text such as "algo=md5" in it.  The condition on
    the two other fields is exact.
   */
  lemma RoundTrip(digest: string, name: string, algo: string, timestamp: string)
    requires IsDigest(digest)
    ensures Parse(Print(digest, name, algo, timestamp)) == Some(Info(digest, algo, Some(timestamp)))
      <==> Clean(algo) && Clean(timestamp)
  {
    if Clean(algo) && Clean(timestamp) {
      FieldsComeBack(digest, name, algo, timestamp);
    } else if Parse(Print(digest, name, algo, timestamp)).Some? {
      ParsedAlgoIsClean(Print(digest, name, algo, timestamp));
    }
  }

  /** The same through the file: the ASCII codec loses nothing it accepts. */
  lemma RoundTripBytes(digest: string, name: string, algo: string, timestamp: string)
    requires IsDigest(digest) && Clean(algo) && Clean(timestamp)
    ensures var b := EncodeAscii(Print(digest, name, algo, timestamp));
      b.Some? ==> ParseBytes(b.value) == Some(Info(digest, algo, Some(timestamp)))
  {
    var text := Print(digest, name, algo, timestamp);
    if IsAscii(text) {
      DecodeEncode(text);
      FieldsComeBack(digest, name, algo, timestamp);
    }
  }

  /**
    What a sidecar is for, in terms of its bytes: the first line is the digest,
    two spaces and the name, and the parser finds the digest, and algorithm and
    timestamp as well unless they have line breaks or outer spaces.
   */
  predicate Describes(bytes: Bytes, digest: string, name: string, algo: string, timestamp: string)
  {
    var info := ParseBytes(bytes);
    && digest + "  " + name + "\n" <= DecodeAscii(bytes)
    && info.Some? && info.value.digest == digest
    && (Clean(algo) && Clean(timestamp) ==> info.value.algo == algo && info.value.timestamp == Some(timestamp))
  }

  /** The printed text is such a sidecar. */
  lemma PrintDescribes(digest: string, name: string, algo: string, timestamp: string)
    requires IsDigest(digest) && IsAscii(Print(digest, name, algo, timestamp))
    ensures Describes(EncodeAscii(Print(digest, name, algo, timestamp)).value, digest, name, algo, timestamp)
  {
    var text := Print(digest, name, algo, timestamp);
    assert digest + "  " + name + "\n" <= text;
    hide Print, Parse, Clean, EncodeAscii, IsAscii;
    DecodeEncode(text);
    DigestComesBack(digest, name, algo, timestamp);
    if Clean(algo) && Clean(timestamp) { FieldsComeBack(digest, name, algo, timestamp); }
  }

  /** The encoder rejects the sidecar of a name exactly when some part of it is outside ASCII. */
  lemma PrintableExactly(digest: string, name: string, algo: string, timestamp: string)
    ensures EncodeAscii(Print(digest, name, algo, timestamp)).Some?
      <==> IsAscii(digest) && IsAscii(name) && IsAscii(algo) && IsAscii(timestamp)
  {
    var text := Print(digest, name, algo, timestamp);
    var a, b := |digest| + 2, |digest| + 2 + |name| + 6;
    assert text[..|digest|] == digest;
    assert text[a..a + |name|] == name;
    assert text[b..b + |algo|] == algo;
    assert text[b + |algo| + 11..b + |algo| + 11 + |timestamp|] == timestamp;
  }

  // ----- what any sidecar says, line by line --------------------------------------

  /** White space by code: what `str.split` and `str.strip` take, and what `str.splitlines` does. */
  lemma WhiteSpaceExactly(c: char)
    ensures IsBreak(c) <==> c as int in {10, 11, 12, 13, 28, 29, 30}
    ensures IsSpace(c) <==> 9 <= c as int <= 13 || 28 <= c as int <= 32
  {
  }

  /** What the encoder takes. */
  lemma EncodesExactly(s: string)
    ensures EncodeAscii(s).Some? <==> forall c | c in s :: c as int <= 127
    ensures EncodeAscii(s).Some? ==> forall i | 0 <= i < |s| :: EncodeAscii(s).value[i] as int == s[i] as int
  {
    assert forall i | 0 <= i < |s| :: s[i] in s;
  }

  /** A byte outside ASCII reads as U+FFFD, which is neither white space nor any sign the parser looks for. */
  lemma NotAsciiIsReplaced(b: Bytes, i: nat)
    requires i < |b|
    ensures DecodeAscii(b)[i] as int == if b[i] as int < 128 then b[i] as int else 0xFFFD
    ensures b[i] as int >= 128 ==> !IsSpace(DecodeAscii(b)[i]) && DecodeAscii(b)[i] != '='
  {
  }

  /** Two strings that differ in the case of ASCII letters at most. */
  predicate SameButCase(a: string, b: string)
  {
    |a| == |b| && forall i | 0 <= i < |a| ::
      || a[i] == b[i]
      || ('A' <= a[i] <= 'Z' && b[i] as int - a[i] as int == 32)
      || ('A' <= b[i] <= 'Z' && a[i] as int - b[i] as int == 32)
  }

  /** Comparing in lower case is comparing up to case. */
  lemma LowerExactly(a: string, b: string)
    ensures Lower(a) == Lower(b) <==> SameButCase(a, b)
  {
    assert |a| == |b| ==> forall i | 0 <= i < |a| :: Lower(a)[i] == LowerChar(a[i]) && Lower(b)[i] == LowerChar(b[i]);
    if SameButCase(a, b) {
      assert forall i | 0 <= i < |a| :: Lower(a)[i] == Lower(b)[i];
    } else if |a| == |b| {
      var i :| 0 <= i < |a| && a[i] != b[i]
        && !('A' <= a[i] <= 'Z' && b[i] as int - a[i] as int == 32)
        && !('A' <= b[i] <= 'Z' && a[i] as int - b[i] as int == 32);
      assert Lower(a)[i] != Lower(b)[i];
    }
  }

  predicate AllSpace(s: string)
  {
    forall i | 0 <= i < |s| :: IsSpace(s[i])
  }

  lemma {:induction false} LStripSplits(s: string)
    ensures var k := |s| - |LStrip(s)|;
      0 <= k && AllSpace(s[..k]) && LStrip(s) == s[k..] && (k < |s| ==> !IsSpace(s[k]))
  {
    hide IsSpace;
    if s != [] && IsSpace(s[0]) {
      LStripSplits(s[1..]);
      var k := |s| - |LStrip(s)|;
      assert s[..k] == [s[0]] + s[1..][..k - 1];
    }
  }

  lemma {:induction false} RStripSplits(s: string)
    ensures var k := |RStrip(s)|;
      k <= |s| && AllSpace(s[k..]) && RStrip(s) == s[..k] && (k > 0 ==> !IsSpace(s[k - 1]))
  {
    hide IsSpace;
    if s != [] && IsSpace(s[|s| - 1]) {
      RStripSplits(s[..|s| - 1]);
      var k := |RStrip(s)|;
      assert s[k..] == s[..|s| - 1][k..] + [s[|s| - 1]];
    }
  }

  /** Stripping takes away all white space at both ends, and nothing else. */
  lemma StripSplits(s: string)
    ensures exists i, j | 0 <= i <= j <= |s| ::
      && Strip(s) == s[i..j] && AllSpace(s[..i]) && AllSpace(s[j..])
      && (i < j ==> !IsSpace(s[i]) && !IsSpace(s[j - 1]))
  {
    LStripSplits(s);
    RStripSplits(LStrip(s));
    hide IsSpace, LStrip, RStrip;
    var i := |s| - |LStrip(s)|;
    var j := i + |Strip(s)|;
    assert Strip(s) == s[i..j] && s[j..] == LStrip(s)[|Strip(s)|..];
  }

  /** A line that sets `key` to `value`: split at its first '=' sign, both parts stripped. */
  predicate Sets(line: string, key: string, value: string)
  {
    exists k | 0 <= k < |line| ::
      line[k] == '=' && '=' !in line[..k] && Strip(line[..k]) == key && Strip(line[k + 1..]) == value
  }

  predicate SetsKey(line: string, key: string)
  {
    exists k | 0 <= k < |line| :: line[k] == '=' && '=' !in line[..k] && Strip(line[..k]) == key
  }

  /** `value` is what the last line that sets `key` sets it to. */
  predicate LastSet(lines: seq<string>, key: string, value: string)
  {
    exists i | 0 <= i < |lines| ::
      Sets(lines[i], key, value) && forall j | i < j < |lines| :: !SetsKey(lines[j], key)
  }

  predicate NeverSet(lines: seq<string>, key: string)
  {
    forall i | 0 <= i < |lines| :: !SetsKey(lines[i], key)
  }

  lemma {:induction false} FirstEquals(line: string, i: nat)
    requires i < |line| && line[i] == '=' && '=' !in line[..i]
    ensures EqualsAt(line) == i
  {
    if i > 0 {
      assert line[..i] == [line[0]] + line[1..][..i - 1];
      FirstEquals(line[1..], i - 1);
    }
  }

  lemma SetsExactly(line: string, key: string, value: string)
    ensures var k := EqualsAt(line);
      && (SetsKey(line, key) <==> k < |line| && Strip(line[..k]) == key)
      && (Sets(line, key, value) <==> k < |line| && Strip(line[..k]) == key && Strip(line[k + 1..]) == value)
  {
    hide Strip;
    var k := EqualsAt(line);
    forall i | 0 <= i < |line| && line[i] == '=' && '=' !in line[..i] ensures i == k {
      FirstEquals(line, i);
    }
  }

  lemma {:induction false} PairsExactly(lines: seq<string>, key: string, value: string)
    ensures key in Pairs(lines) && Pairs(lines)[key] == value <==> LastSet(lines, key, value)
    ensures key !in Pairs(lines) <==> NeverSet(lines, key)
  {
    hide Strip, Sets, SetsKey;
    if lines != [] {
      var n := |lines| - 1;
      var front, line := lines[..n], lines[n];
      PairsExactly(front, key, value);
      SetsExactly(line, key, value);
      assert forall i | 0 <= i < n :: front[i] == lines[i];
      if SetsKey(line, key) {
        assert LastSet(lines, key, value) <==> Sets(line, key, value);
      } else {
        assert LastSet(front, key, value) ==> LastSet(lines, key, value);
        assert NeverSet(front, key) ==> NeverSet(lines, key);
      }
    }
  }

  /**
    What any text parses to: nothing if its first line is blank; else the last
    line that sets a key decides, and without one the algorithm is SHA-256 and
    there is no timestamp.
   */
  lemma ParseExactly(raw: string, value: string)
    ensures Parse(raw).None? <==> Lines(raw) == [] || AllSpace(Lines(raw)[0])
    ensures Parse(raw).Some? ==>
      var info, fields := Parse(raw).value, Lines(raw)[1..];
      && (info.algo == value <==> LastSet(fields, "algo", value) || (NeverSet(fields, "algo") && value == "sha256"))
      && (info.timestamp == Some(value) <==> LastSet(fields, "timestamp", value))
      && (info.timestamp == None <==> NeverSet(fields, "timestamp"))
  {
    if Lines(raw) != [] { BlankExactly(Lines(raw)[0]); }
    hide Lines, FirstToken, Lower, AllSpace, LastSet, NeverSet;
    if Parse(raw).Some? {
      PairsExactly(Lines(raw)[1..], "algo", value);
      PairsExactly(Lines(raw)[1..], "timestamp", value);
    }
  }

  lemma BlankExactly(line: string)
    ensures FirstToken(line) == [] <==> AllSpace(line)
  {
    LStripSplits(line);
    hide IsSpace;
    var k := |line| - |LStrip(line)|;
    if k < |line| {
      assert LStrip(line)[0] == line[k];
    } else {
      assert line[..k] == line;
    }
  }

  /** The digest is the first word of the first line, in lower case. */
  lemma DigestExactly(raw: string)
    requires Parse(raw).Some?
    ensures exists i, j | 0 <= i < j <= |Lines(raw)[0]| ::
      var line := Lines(raw)[0];
      && AllSpace(line[..i]) && NoSpace(line[i..j]) && (j < |line| ==> IsSpace(line[j]))
      && Parse(raw).value.digest == Lower(line[i..j])
  {
    var line := Lines(raw)[0];
    hide Lines, Lower;
    LStripSplits(line);
    WordSplits(LStrip(line));
    hide IsSpace, LStrip, Word;
    var i := |line| - |LStrip(line)|;
    var j := i + |FirstToken(line)|;
    assert line[i..j] == FirstToken(line);
  }

  lemma {:induction false} WordSplits(s: string)
    ensures var k := |Word(s)|; k <= |s| && Word(s) == s[..k] && NoSpace(s[..k]) && (k < |s| ==> IsSpace(s[k]))
  {
    hide IsSpace;
    if s != [] && !IsSpace(s[0]) {
      WordSplits(s[1..]);
      assert s[..|Word(s)|] == [s[0]] + s[1..][..|Word(s)| - 1];
    }
  }
}
