/**
  Hashing a file in chunks, writing its checksum sidecar and verifying it
  (src/safeatomic/_checksum.py).  The hash function is abstract: a hasher has
  a state, and updating it with two pieces is updating it with both at once.
 */
module Hashing {
  import opened Basics
  import Paths
  import SidecarText

  const CHECKSUM_CHUNK_SIZE: nat := 1024 * 1024

  /** `hashlib`, for hasher states of type `H`. */
  datatype Lib<!H> = Lib(known: set<string>, start: string -> H, update: (H, Bytes) -> H, hex: H -> string)

  datatype Outcome<+T> = Ok(value: T) | FileNotFound | UnknownAlgorithm | NotEncodable | IoError

  ghost predicate Streams<H(!new)>(lib: Lib<H>)
  {
    && (forall h: H :: lib.update(h, []) == h)
    && (forall h: H, x: Bytes, y: Bytes :: lib.update(lib.update(h, x), y) == lib.update(h, x + y))
  }

  function Digest<H>(lib: Lib<H>, algo: string, data: Bytes): string
  {
    lib.hex(lib.update(lib.start(algo), data))
  }

  /** Digests are lowercase hexadecimal, and different contents have different ones. */
  ghost predicate GoodHash<H>(lib: Lib<H>, algo: string)
  {
    && (forall data :: SidecarText.IsDigest(Digest(lib, algo, data)) && SidecarText.IsAscii(Digest(lib, algo, data)))
    && (forall a, b :: Digest(lib, algo, a) == Digest(lib, algo, b) ==> a == b)
  }

  class Hasher<H> {
    const lib: Lib<H>
    var state: H

    constructor (lib: Lib<H>, algo: string)
      ensures this.lib == lib && state == lib.start(algo)
    {
      this.lib, state := lib, lib.start(algo);
    }

    method Update(chunk: Bytes)
      modifies this
      ensures state == lib.update(old(state), chunk)
    {
      state := lib.update(state, chunk);
    }
  }

  /** An open file; its inode is published, so nobody writes it any more. */
  class Handle {
    const data: Bytes
    var at: nat

    constructor (data: Bytes)
      ensures this.data == data && at == 0
    {
      this.data, at := data, 0;
    }

    method Read(n: nat) returns (chunk: Bytes)
      requires at <= |data|
      modifies this
      ensures chunk == Slice(data, old(at), n) && at == old(at) + |chunk| <= |data|
    {
      chunk := Slice(data, at, n);
      at := at + |chunk|;
    }
  }

  lemma SliceExtends(data: Bytes, at: nat, n: nat)
    requires at <= |data|
    ensures at + |Slice(data, at, n)| <= |data| && data[..at] + Slice(data, at, n) == data[..at + |Slice(data, at, n)|]
  {
  }

  lemma StreamsOn<H(!new)>(lib: Lib<H>, h: H, x: Bytes, y: Bytes)
    requires Streams(lib)
    ensures lib.update(h, []) == h && lib.update(lib.update(h, x), y) == lib.update(h, x + y)
  {
  }

  /** The chunk loop hashes the whole file, whatever its size; opening and every read may fail. */
  method ComputeHashFile<H(!new)>(lib: Lib<H>, files: map<string, Bytes>, name: string, algo: string)
    returns (r: Outcome<string>)
    requires Streams(lib)
    ensures r == UnknownAlgorithm <==> algo !in lib.known
    ensures r == FileNotFound <==> algo in lib.known && name !in files
    ensures r.Ok? || r.IoError? <==> algo in lib.known && name in files
    ensures r.Ok? ==> r.value == lib.hex(lib.update(lib.start(algo), files[name]))
  {
    hide Streams, Slice;
    if algo !in lib.known {
      return UnknownAlgorithm;
    }
    if name !in files {
      return FileNotFound;
    }
    StreamsOn(lib, lib.start(algo), [], []);
    var h := new Hasher<H>(lib, algo);
    var fh := new Handle(files[name]);
    var more := true;
    while more
      invariant h.lib == lib && fh.data == files[name] && fh.at <= |fh.data|
      invariant h.state == lib.update(lib.start(algo), fh.data[..fh.at])
      invariant !more ==> fh.at == |fh.data|
      decreases |fh.data| - fh.at, more
    {
      ghost var done := fh.data[..fh.at];
      var failed: bool := *;
      if failed {
        return IoError;
      }
      SliceExtends(fh.data, fh.at, CHECKSUM_CHUNK_SIZE);
      var chunk := fh.Read(CHECKSUM_CHUNK_SIZE);
      if chunk == [] {
        more := false;
      } else {
        StreamsOn(lib, lib.start(algo), done, chunk);
        h.Update(chunk);
      }
    }
    assert fh.data[..fh.at] == fh.data;
    r := Ok(lib.hex(h.state));
  }

  function HashOf<H>(lib: Lib<H>, files: map<string, Bytes>, name: string, algo: string): Outcome<string>
  {
    if algo !in lib.known then UnknownAlgorithm
    else if name !in files then FileNotFound
    else Ok(Digest(lib, algo, files[name]))
  }

  // ----- sidecar files ------------------------------------------------------------------

  /** One directory, seen by one process while nobody else writes. */
  class Files {
    var content: map<string, Bytes>

    constructor (content: map<string, Bytes>)
      ensures this.content == content
    {
      this.content := content;
    }

    /**
      `write_text` opens, and so empties, the sidecar before it encodes; how
      much of the text a failing write leaves behind is anybody's guess.
     */
    method WriteChecksumFile<H(!new)>(lib: Lib<H>, name: string, algo: string, timestamp: string)
      returns (r: Outcome<string>)
      requires Streams(lib)
      modifies this
      ensures if r == IoError then Torn(lib, old(content), content, name, algo, timestamp)
              else (r, content) == Sidecared(lib, old(content), name, algo, timestamp)
      ensures r.Ok? && GoodHash(lib, algo) ==>
        && name in old(content) && content == old(content)[r.value := content[r.value]]
        && SidecarText.Describes(content[r.value], lib.hex(lib.update(lib.start(algo), old(content)[name])), name, algo,
                                 timestamp)
    {
      hide Streams, SidecarText.Print, SidecarText.EncodeAscii, SidecarText.IsAscii, Paths.ChecksumPath;
      hide SidecarText.Describes, GoodHash;
      if name !in content {
        return FileNotFound;
      }
      var digest := ComputeHashFile(lib, content, name, algo);
      if !digest.Ok? {
        return digest;
      }
      var sidecar := Paths.ChecksumPath(name);
      var openFails: bool := *;
      if openFails {
        return IoError;
      }
      content := content[sidecar := []];
      var bytes := SidecarText.EncodeAscii(SidecarText.Print(digest.value, name, algo, timestamp));
      if bytes.None? {
        return NotEncodable;
      }
      var written: nat := *;
      if 0 <= written < |bytes.value| {
        content := content[sidecar := bytes.value[..written]];
        assert content == old(content)[sidecar := bytes.value[..written]];
        return IoError;
      }
      content := content[sidecar := bytes.value];
      assert content == old(content)[sidecar := bytes.value];
      var closeFails: bool := *;
      if closeFails {
        assert bytes.value[..|bytes.value|] == bytes.value;
        return IoError;
      }
      r := Ok(sidecar);
      if GoodHash(lib, algo) { SidecarDescribes(lib, old(content), name, algo, timestamp); }
    }

    /**
      Compares up to case; a mismatch is an answer, not an error.  An
      unreadable sidecar counts as missing, an unreadable file is an error.
      A missing digest wins over an unknown algorithm, which wins over a
      missing file.
     */
    method VerifyChecksum<H(!new)>(lib: Lib<H>, name: string, expected: Option<string>, algo: string)
      returns (r: Outcome<bool>, ghost unreadable: bool)
      requires Streams(lib)
      ensures unreadable ==> expected.None? && Paths.ChecksumPath(name) in content
      ensures r == FileNotFound <==>
        || unreadable || Wanted(content, name, expected).None?
        || (algo in lib.known && name !in content)
      ensures r == UnknownAlgorithm <==>
        !unreadable && Wanted(content, name, expected).Some? && algo !in lib.known
      ensures r.Ok? || r.IoError? <==>
        !unreadable && Wanted(content, name, expected).Some? && algo in lib.known && name in content
      ensures r.Ok? ==>
        r.value == SidecarText.SameButCase(lib.hex(lib.update(lib.start(algo), content[name])),
                                           Wanted(content, name, expected).value)
      ensures unreadable || r.IoError? || r == Verified(lib, content, name, expected, algo)
    {
      var want := expected;
      unreadable := false;
      if want.None? {
        var sidecar := Paths.ChecksumPath(name);
        var failed: bool := *;
        if failed && sidecar in content {
          return FileNotFound, true;
        }
        var info := SidecarText.GetChecksumInfo(if sidecar in content then Some(content[sidecar]) else None);
        if info.None? {
          return FileNotFound, false;
        }
        want := Some(info.value.digest);
      }
      var actual := ComputeHashFile(lib, content, name, algo);
      match actual {
        case Ok(digest) =>
          SidecarText.LowerExactly(digest, want.value);
          r := Ok(SidecarText.Lower(digest) == SidecarText.Lower(want.value));
        case FileNotFound => r := FileNotFound;
        case UnknownAlgorithm => r := UnknownAlgorithm;
        case NotEncodable => r := NotEncodable;
        case IoError => r := IoError;
      }
    }
  }

  function Sidecared<H>(lib: Lib<H>, files: map<string, Bytes>, name: string, algo: string, timestamp: string)
    : (Outcome<string>, map<string, Bytes>)
  {
    var sidecar := Paths.ChecksumPath(name);
    if name !in files then (FileNotFound, files)
    else if algo !in lib.known then (UnknownAlgorithm, files)
    else
      var text := SidecarText.Print(Digest(lib, algo, files[name]), name, algo, timestamp);
      match SidecarText.EncodeAscii(text)
      case Some(bytes) => (Ok(sidecar), files[sidecar := bytes])
      case None => (NotEncodable, files[sidecar := []])
  }

  /** The digest a verification compares with: the one it is given, or the one in the sidecar. */
  function Wanted(files: map<string, Bytes>, name: string, expected: Option<string>): (want: Option<string>)
    ensures expected.Some? ==> want == expected
    ensures expected.None? ==> (want.Some? <==>
      Paths.ChecksumPath(name) in files && SidecarText.ParseBytes(files[Paths.ChecksumPath(name)]).Some?)
    ensures expected.None? && want.Some? ==>
      want.value == SidecarText.ParseBytes(files[Paths.ChecksumPath(name)]).value.digest
  {
    var sidecar := Paths.ChecksumPath(name);
    if expected.Some? then expected
    else if sidecar !in files then None
    else
      match SidecarText.ParseBytes(files[sidecar])
      case Some(info) => Some(info.digest)
      case None => None
  }

  function Verified<H>(lib: Lib<H>, files: map<string, Bytes>, name: string, expected: Option<string>, algo: string)
    : Outcome<bool>
  {
    var want := Wanted(files, name, expected);
    if want.None? then FileNotFound
    else
      match HashOf(lib, files, name, algo)
      case Ok(digest) => Ok(SidecarText.Lower(digest) == SidecarText.Lower(want.value))
      case FileNotFound => FileNotFound
      case UnknownAlgorithm => UnknownAlgorithm
      case NotEncodable => NotEncodable
      case IoError => IoError
  }

  /** A sidecar written without an error says all it should: digest, name, algorithm and timestamp. */
  lemma SidecarDescribes<H>(lib: Lib<H>, files: map<string, Bytes>, name: string, algo: string, timestamp: string)
    requires GoodHash(lib, algo) && Sidecared(lib, files, name, algo, timestamp).0.Ok?
    ensures var (r, files') := Sidecared(lib, files, name, algo, timestamp);
      && name in files && r.value in files' && files' == files[r.value := files'[r.value]]
      && SidecarText.Describes(files'[r.value], lib.hex(lib.update(lib.start(algo), files[name])), name, algo,
                               timestamp)
  {
    var digest := Digest(lib, algo, files[name]);
    assert SidecarText.IsDigest(digest);
    hide SidecarText.Print, SidecarText.EncodeAscii, SidecarText.IsAscii, Paths.ChecksumPath, SidecarText.Describes,
         GoodHash;
    SidecarText.PrintDescribes(digest, name, algo, timestamp);
  }

  /** Where a failing `write_checksum_file` leaves the directory: as it was, or with part of the text in the sidecar. */
  ghost predicate Torn<H>(lib: Lib<H>, files: map<string, Bytes>, files': map<string, Bytes>, name: string,
      algo: string,
                          timestamp: string)
  {
    files' == files ||
    (name in files && algo in lib.known &&
     var text := SidecarText.EncodeAscii(SidecarText.Print(Digest(lib, algo, files[name]), name, algo, timestamp));
     text.Some? && exists n: nat :: n <= |text.value| && files' == files[Paths.ChecksumPath(name) := text.value[..n]])
  }

  /** What a verification that asks the sidecar finds after a successful write: true for the same content only. */
  lemma WriteThenVerify<H>(lib: Lib<H>, files: map<string, Bytes>, name: string, algo: string, timestamp: string,
                           later: Bytes)
    requires GoodHash(lib, algo) && Sidecared(lib, files, name, algo, timestamp).0.Ok?
    ensures Verified(lib, Sidecared(lib, files, name, algo, timestamp).1[name := later], name, None, algo)
      == Ok(later == files[name])
  {
    var digest := Digest(lib, algo, files[name]);
    hide SidecarText.Print, SidecarText.EncodeAscii, SidecarText.DecodeAscii, SidecarText.Parse, SidecarText.IsAscii,
         Paths.ChecksumPath;
    Paths.DerivedNames(name, name);
    SidecarText.DigestComesBack(digest, name, algo, timestamp);
    SidecarText.DecodeEncode(SidecarText.Print(digest, name, algo, timestamp));
    LowerTells(lib, algo, files[name], later);
  }

  lemma LowerTells<H>(lib: Lib<H>, algo: string, a: Bytes, b: Bytes)
    requires GoodHash(lib, algo)
    ensures SidecarText.IsDigest(Digest(lib, algo, a))
    ensures SidecarText.Lower(Digest(lib, algo, b)) == SidecarText.Lower(Digest(lib, algo, a)) <==> a == b
  {
    assert SidecarText.IsDigest(Digest(lib, algo, a)) && SidecarText.IsDigest(Digest(lib, algo, b));
  }

  /** A digest given by the caller may be in either case, and is found right for its own content only. */
  lemma VerifyIgnoresCase<H>(lib: Lib<H>, files: map<string, Bytes>, name: string, given: string, algo: string,
                             data: Bytes)
    requires name in files && algo in lib.known && GoodHash(lib, algo)
    requires SidecarText.SameButCase(given, Digest(lib, algo, data))
    ensures Verified(lib, files, name, Some(given), algo) == Ok(data == files[name])
  {
    hide SidecarText.Lower;
    SidecarText.LowerExactly(given, Digest(lib, algo, data));
    LowerTells(lib, algo, files[name], data);
  }

  /**
    Writing succeeds exactly for an existing file, a known algorithm and ASCII
    throughout.  When only the encoding fails, an existing sidecar is lost and
    the file no longer verifies.
   */
  lemma SidecarWrittenExactly<H>(lib: Lib<H>, files: map<string, Bytes>, name: string, algo: string, timestamp: string)
    requires GoodHash(lib, algo)
    ensures var (r, files') := Sidecared(lib, files, name, algo, timestamp);
      var encodable := SidecarText.IsAscii(name) && SidecarText.IsAscii(algo) && SidecarText.IsAscii(timestamp);
      && (r.Ok? <==> name in files && algo in lib.known && encodable)
      && (r == FileNotFound <==> name !in files)
      && (r == UnknownAlgorithm <==> name in files && algo !in lib.known)
      && (r == NotEncodable <==> name in files && algo in lib.known && !encodable)
      && (name in files && algo in lib.known && !encodable ==>
            files' == files[Paths.ChecksumPath(name) := []] && Verified(lib, files', name, None, algo) == FileNotFound)
      && (name !in files || algo !in lib.known ==> files' == files)
  {
    if name in files {
      var digest := Digest(lib, algo, files[name]);
      assert SidecarText.IsAscii(digest);
      hide SidecarText.Print, SidecarText.EncodeAscii, SidecarText.IsAscii, Paths.ChecksumPath, GoodHash;
      SidecarText.PrintableExactly(digest, name, algo, timestamp);
      EmptySaysNothing();
    }
  }

  /**
    A torn sidecar never vouches for other content: once it holds its whole
    digest it verifies like a complete one, before that it matches nothing.
   */
  lemma TornSidecarIsHarmless<H>(lib: Lib<H>, files: map<string, Bytes>, name: string, algo: string, timestamp: string,
                                 n: nat, later: Bytes)
    requires GoodHash(lib, algo) && (forall a, b :: |Digest(lib, algo, a)| == |Digest(lib, algo, b)|)
    requires Sidecared(lib, files, name, algo, timestamp).0.Ok?
    requires n <= |Sidecared(lib, files, name, algo, timestamp).1[Paths.ChecksumPath(name)]|
    ensures var sidecar := Paths.ChecksumPath(name);
      var part := Sidecared(lib, files, name, algo, timestamp).1[sidecar][..n];
      Verified(lib, files[sidecar := part][name := later], name, None, algo)
        == if n == 0 then FileNotFound
           else Ok(n >= |Digest(lib, algo, files[name])| && later == files[name])
  {
    var digest := Digest(lib, algo, files[name]);
    var text := SidecarText.Print(digest, name, algo, timestamp);
    var bytes := SidecarText.EncodeAscii(text).value;
    assert |Digest(lib, algo, later)| == |digest|;
    assert SidecarText.IsDigest(digest);
    PartDecodes(text, n);
    Paths.DerivedNames(name, name);
    SidecarText.PartOfTheText(digest, name, algo, timestamp, n);
    LowerTells(lib, algo, files[name], later);
    hide SidecarText.Print, SidecarText.EncodeAscii, SidecarText.DecodeAscii, SidecarText.Parse, SidecarText.IsAscii;
    hide Paths.ChecksumPath, GoodHash, SidecarText.Lower, SidecarText.IsDigest;
    if n >= |digest| {
      assert digest[..|digest|] == digest;
    } else if n > 0 {
      assert |SidecarText.Lower(digest[..n])| == n;
    }
  }

  lemma PartDecodes(text: string, n: nat)
    requires SidecarText.IsAscii(text) && n <= |text|
    ensures SidecarText.DecodeAscii(SidecarText.EncodeAscii(text).value[..n]) == text[..n]
  {
    SidecarText.DecodeEncode(text);
    var bytes := SidecarText.EncodeAscii(text).value;
    assert SidecarText.DecodeAscii(bytes[..n]) == SidecarText.DecodeAscii(bytes)[..n];
  }

  lemma EmptySaysNothing()
    ensures SidecarText.ParseBytes([]).None?
  {
    assert SidecarText.DecodeAscii([]) == [];
  }
}
