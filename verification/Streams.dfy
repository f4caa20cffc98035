/** The wire functions that work on readers and writers: loops over short reads, buffered
    copying with a running hash, and the two ends of a file transfer. */
module Streams {
  import opened Bytes
  import opened Wire

  /** The reading end of a stream. The peer will deliver `data` and then the stream ends: with
      Eof when it was closed, with Broken when it was reset or a deadline passed. expected: such a
      break is an idle deadline or the receiver's own close, and not the peer's doing. */
  class Source {
    const data: seq<byte>
    const ending: Error
    const expected: bool
    var pos: nat

    ghost predicate Valid()
      reads this
    {
      pos <= |data| && (ending == Eof || ending == Broken)
    }

    ghost function Rest(): (s: seq<byte>)
      reads this
      requires Valid()
    {
      data[pos..]
    }

    constructor (data: seq<byte>, ending: Error, expected: bool)
      requires ending == Eof || ending == Broken
      ensures Valid() && pos == 0 && this.data == data && this.ending == ending && this.expected == expected
    {
      this.data, this.ending, this.expected, this.pos := data, ending, expected, 0;
    }

    /** One Read call: any non-empty chunk that is no longer than asked for. */
    method Read(max: nat) returns (chunk: seq<byte>, err: Option<Error>)
      requires Valid() && max > 0
      modifies `pos
      ensures Valid() && pos == old(pos) + |chunk|
      ensures |chunk| <= max && chunk == data[old(pos)..pos]
      ensures err == if old(pos) == |data| then Some(ending) else None
      ensures chunk == [] <==> err.Some?
    {
      if pos == |data| {
        return [], Some(ending);
      }
      var n: nat :| 1 <= n <= max && pos + n <= |data|;
      chunk, err := data[pos..pos + n], None;
      pos := pos + n;
    }
  }

  /** The writing end of a stream that accepts `capacity` bytes and then breaks for good. */
  class Sink {
    const capacity: nat
    var written: seq<byte>
    var broken: bool

    ghost predicate Valid()
      reads this
    {
      |written| <= capacity
    }

    /** Whether n more bytes can be written. */
    ghost predicate Takes(n: nat)
      reads this
    {
      !broken && |written| + n <= capacity
    }

    constructor (capacity: nat)
      ensures Valid() && this.capacity == capacity && written == [] && !broken
    {
      this.capacity, this.written, this.broken := capacity, [], false;
    }

    /** One Write call: all of the chunk, or a prefix and an error from then on. */
    method Write(chunk: seq<byte>) returns (err: Option<Error>)
      requires Valid()
      modifies this
      ensures Valid()
      ensures err == if old(Takes(|chunk|)) then None else Some(WriteFailed)
      ensures written == Taken(capacity, old(broken), old(written), chunk)
      ensures err.None? ==> !broken && written == old(written) + chunk
      ensures err.Some? ==> broken && Advanced(old(written), written, chunk)
      ensures err.Some? ==> |written| < |old(written)| + |chunk| || chunk == []
    {
      if broken {
        return Some(WriteFailed);
      }
      if |written| + |chunk| <= capacity {
        written, err := written + chunk, None;
      } else {
        var p := chunk[..capacity - |written|];
        written, broken, err := written + p, true, Some(WriteFailed);
      }
    }
  }

  /** What is out after writing chunk behind before: all of it where capacity allows, else as much as
      there is room for, and nothing once the stream is broken. */
  ghost function Taken(capacity: nat, broken: bool, before: seq<byte>, chunk: seq<byte>): (s: seq<byte>)
    ensures before <= s <= before + chunk
    ensures !broken && |before| + |chunk| <= capacity ==> s == before + chunk
  {
    if broken || |before| > capacity then before
    else if |before| + |chunk| <= capacity then before + chunk
    else before + chunk[..capacity - |before|]
  }

  /** after is before followed by some prefix of chunk. */
  ghost predicate Advanced(before: seq<byte>, after: seq<byte>, chunk: seq<byte>) {
    before <= after <= before + chunk
  }

  lemma AdvancedByPart(before: seq<byte>, after: seq<byte>, part: seq<byte>, whole: seq<byte>)
    requires Advanced(before, after, part) && part <= whole
    ensures Advanced(before, after, whole)
  {
    assert before + part <= before + whole;
  }

  lemma AdvancedAfter(before: seq<byte>, first: seq<byte>, after: seq<byte>, second: seq<byte>)
    ensures (before + first) + second == before + (first + second)
    ensures Advanced(before + first, after, second) ==> Advanced(before, after, first + second)
  {
    assert (before + first) + second == before + (first + second);
    assert before <= before + first;
  }

  // ---------- io.ReadFull and the header ----------

  /** How a read of n bytes ends on the remaining bytes `rest`. */
  ghost function FullReadError(rest: seq<byte>, n: nat, ending: Error): (err: Option<Error>) {
    if |rest| >= n then None
    else if ending == Broken then Some(Broken)
    else if rest == [] then Some(Eof)
    else Some(UnexpectedEof)
  }

  lemma Slice(data: seq<byte>, p: nat, a: nat, b: nat)
    requires a <= b && p + b <= |data|
    ensures data[p..][a..b] == data[p + a..p + b]
  {
  }

  method ReadFull(src: Source, n: nat) returns (buf: seq<byte>, err: Option<Error>)
    requires src.Valid()
    modifies src`pos
    ensures src.Valid()
    ensures err == FullReadError(old(src.Rest()), n, src.ending)
    ensures src.pos == old(src.pos) + |buf| && buf == src.data[old(src.pos)..src.pos]
    ensures err.None? ==> |buf| == n
    ensures err.Some? ==> src.pos == |src.data|
  {
    buf, err := [], None;
    while |buf| < n
      invariant src.Valid() && |buf| <= n
      invariant src.pos == old(src.pos) + |buf| && buf == src.data[old(src.pos)..src.pos]
      decreases n - |buf|
    {
      var chunk, e := src.Read(n - |buf|);
      if e.Some? {
        return buf, if e.value == Eof && |buf| > 0 then Some(UnexpectedEof) else e;
      }
      buf := buf + chunk;
    }
  }

  /** The byte counts at which one field of a header ends, so that a closed stream reads as Eof. */
  ghost predicate AtFieldBoundary(buf: seq<byte>) {
    || |buf| == 0 || |buf| == 4 || |buf| == 6
    || (|buf| > 6 && |buf| == 6 + Value(buf[4..6]))
  }

  /** The result of ReadRequestHeader as a function of the bytes still to come. */
  ghost function HeaderError(rest: seq<byte>, ending: Error, maxSize: uint64): (err: Option<Error>) {
    match ParseHeader(rest, maxSize)
    case Header(_, _) => None
    case Bad(e) => Some(e)
    case More(_) =>
      if ending == Broken then Some(Broken)
      else if AtFieldBoundary(rest) then Some(Eof) else Some(UnexpectedEof)
  }

  /** The header without a limit announces more than maxSize allows. */
  ghost predicate OverLimit(rest: seq<byte>, maxSize: uint64) {
    var p := ParseHeader(rest, 0);
    p.Header? && maxSize > 0 && p.size > maxSize
  }

  lemma LimitVerdict(rest: seq<byte>, ending: Error, maxSize: uint64)
    requires ending == Eof || ending == Broken
    ensures HeaderError(rest, ending, maxSize) ==
              if OverLimit(rest, maxSize) then Some(PayloadTooLarge) else HeaderError(rest, ending, 0)
    ensures HeaderError(rest, ending, 0) != Some(PayloadTooLarge)
    ensures ParseHeader(rest, 0).Header? && !OverLimit(rest, maxSize) ==>
        ParseHeader(rest, maxSize) == ParseHeader(rest, 0)
  {
    LimitOnly(rest, maxSize);
    hide ParseHeader;
  }

  /** The fields of a header, one after the other, for every splitting into short reads. */
  method ReadFields(src: Source) returns (name: Name, size: uint64, err: Option<Error>)
    requires src.Valid()
    modifies src`pos
    ensures src.Valid() && src.pos >= old(src.pos)
    ensures err == HeaderError(old(src.Rest()), src.ending, 0)
    ensures err.None? ==>
              && ParseHeader(old(src.Rest()), 0) == Header(name, size)
              && src.pos == old(src.pos) + 14 + |name|
  {
    hide ValidateFilename, Value;
    ghost var p := src.pos;
    name, size := [], 0;
    var magic;
    magic, err := ReadFull(src, 4);
    if err.Some? { return; }
    Slice(src.data, p, 0, 4);
    if magic != MAGIC { return name, size, Some(InvalidMagic); }

    var lenBytes;
    lenBytes, err := ReadFull(src, 2);
    if err.Some? { return; }
    Slice(src.data, p, 4, 6);
    var nameLen := Value(lenBytes);
    if nameLen == 0 || nameLen > MAX_FILENAME_LEN { return name, size, Some(BadNameLength); }

    var nameBytes;
    nameBytes, err := ReadFull(src, nameLen);
    if err.Some? { return; }
    Slice(src.data, p, 6, 6 + nameLen);
    err := ValidateFilename(nameBytes);
    if err.Some? { return; }

    var sizeBytes;
    sizeBytes, err := ReadFull(src, 8);
    if err.Some? { return; }
    Slice(src.data, p, 6 + nameLen, 14 + nameLen);
    name, size := nameBytes, ParseSize(sizeBytes);
  }

  /** The result is the pure decoder's, an accepted header has consumed exactly its own bytes, and its
      size is within the limit; a size over the limit is the one thing that the limit rejects. */
  method ReadRequestHeader(src: Source, maxSize: uint64)
    returns (name: Name, size: uint64, err: Option<Error>)
    requires src.Valid()
    modifies src`pos
    ensures src.Valid() && src.pos >= old(src.pos)
    ensures err == HeaderError(old(src.Rest()), src.ending, maxSize)
    ensures err.None? ==>
              && ParseHeader(old(src.Rest()), maxSize) == Header(name, size)
              && src.pos == old(src.pos) + 14 + |name|
    ensures err.None? ==> maxSize == 0 || size <= maxSize
    ensures err == Some(PayloadTooLarge) <==>
              && ParseHeader(old(src.Rest()), 0).Header?
              && maxSize > 0 && ParseHeader(old(src.Rest()), 0).size > maxSize
    ensures err == Some(PayloadTooLarge) ==> ParseHeader(old(src.Rest()), 0) == Header(name, size)
  {
    LimitVerdict(src.Rest(), src.ending, maxSize);
    hide ParseHeader;
    name, size, err := ReadFields(src);
    if err.None? && maxSize > 0 && size > maxSize { err := Some(PayloadTooLarge); }
  }

  /** A header goes out whole or not at all: an invalid name writes nothing. */
  method WriteRequestHeader(w: Sink, name: Name, size: uint64) returns (err: Option<Error>)
    requires w.Valid()
    modifies w
    ensures w.Valid()
    ensures !ValidName(name) ==>
              err == ValidateFilename(name) && w.written == old(w.written) && w.broken == old(w.broken)
    ensures err.None? <==> ValidName(name) && old(w.Takes(14 + |name|))
    ensures err.None? ==> !w.broken && w.written == old(w.written) + EncodeHeader(name, size)
    ensures err.Some? ==> Advanced(old(w.written), w.written, EncodeHeader(name, size))
  {
    err := ValidateFilename(name);
    if err.Some? { return; }
    err := w.Write(EncodeHeader(name, size));
  }

  // ---------- responses ----------

  /** The sender takes a response for success exactly when the next byte is ACK. */
  method ReadResponse(src: Source) returns (err: Option<Error>)
    requires src.Valid()
    modifies src`pos
    ensures src.Valid() && src.pos >= old(src.pos)
    ensures err.None? <==> old(src.Rest()) != [] && old(src.Rest())[0] == ACK_BYTE
    ensures ParseResponse(old(src.Rest())).Some? ==>
              ParseResponse(old(src.Rest())) == Some((err, src.pos - old(src.pos)))
    ensures ParseResponse(old(src.Rest())).None? ==>
              err in {Some(Eof), Some(UnexpectedEof), Some(Broken)} && src.pos == |src.data|
  {
    ghost var rest := src.Rest();
    var code;
    code, err := ReadFull(src, 1);
    if err.Some? { return; }
    assert code[0] == rest[0];
    if code[0] == ACK_BYTE { return None; }
    if code[0] != NACK_BYTE { return Some(UnexpectedResponse(code[0])); }
    var lenBytes;
    lenBytes, err := ReadFull(src, 2);
    if err.Some? { return; }
    assert lenBytes == rest[1..3];
    var msg;
    msg, err := ReadFull(src, Value(lenBytes));
    if err.Some? { return; }
    assert msg == rest[3..3 + Value(lenBytes)];
    err := Some(Nack(msg));
  }

  // ---------- streaming ----------

  /** What a copy with an optional limit takes from the remaining bytes. */
  ghost function Wanted(rest: seq<byte>, limit: Option<nat>): (s: seq<byte>)
    ensures s <= rest
  {
    if limit.Some? && limit.value <= |rest| then rest[..limit.value] else rest
  }

  lemma NextChunk(data: seq<byte>, p: nat, a: nat, b: nat)
    requires a <= b && p + b <= |data|
    ensures data[p..][..a] + data[p + a..p + b] == data[p..][..b]
  {
  }

  /** io.CopyBuffer from a reader, possibly limited, through a tee into a hasher: the hasher is the
      sequence of bytes absorbed so far. */
  method CopyHashed(dst: Sink, src: Source, limit: Option<nat>)
    returns (hashed: seq<byte>, err: Option<Error>)
    requires src.Valid() && dst.Valid()
    modifies dst, src`pos
    ensures src.Valid() && dst.Valid() && src.pos >= old(src.pos)
    ensures err in {None, Some(Broken), Some(WriteFailed)}
    ensures var goal := Wanted(old(src.Rest()), limit);
            && (err.None? <==> && (goal == [] || old(dst.Takes(|goal|)))
                               && (src.ending == Eof || limit == Some(|goal|)))
            && (err == Some(WriteFailed) <==> !(goal == [] || old(dst.Takes(|goal|))))
            && (err == Some(Broken) ==> src.ending == Broken && limit != Some(|goal|))
            && Advanced(old(dst.written), dst.written, goal)
            && (err.None? ==>
                  && hashed == goal
                  && dst.written == old(dst.written) + goal
                  && dst.broken == old(dst.broken)
                  && src.pos == old(src.pos) + |goal|)
  {
    hide Taken;
    ghost var rest, start := src.Rest(), dst.written;
    ghost var goal := Wanted(rest, limit);
    hashed, err := [], None;
    while limit.None? || |hashed| < limit.value
      invariant src.Valid() && dst.Valid()
      invariant err.None? && hashed <= goal && src.pos == old(src.pos) + |hashed|
      invariant dst.written == start + hashed && dst.broken == old(dst.broken)
      invariant hashed == [] || old(dst.Takes(|hashed|))
      decreases |src.data| - src.pos
    {
      var chunk, e := src.Read(if limit.Some? then Min(limit.value - |hashed|, BUFFER_SIZE) else BUFFER_SIZE);
      if e.Some? {
        assert hashed == rest;
        return hashed, if e.value == Eof then None else e;
      }
      NextChunk(src.data, old(src.pos), |hashed|, |hashed| + |chunk|);
      Regroup(start, hashed, chunk);
      err := dst.Write(chunk);
      hashed := hashed + chunk;
      if err.Some? {
        assert start + hashed <= start + goal;
        assert !old(dst.Takes(|hashed|)) && |hashed| <= |goal|;
        return;
      }
    }
    assert hashed == goal;
  }

  /** What SendStream puts on the wire when every write succeeds. */
  ghost function SentBytes(sha: Hash, content: seq<byte>, size: uint64): (s: seq<byte>) {
    if |content| == size then content + Digest(sha, content) else content
  }

  /** Copies the whole file, however long it turns out to be; the trailer follows only when the
      copied length is the announced one. */
  method SendStream(sha: Hash, w: Sink, file: Source, size: uint64) returns (err: Option<Error>)
    requires w.Valid() && file.Valid()
    modifies w, file`pos
    ensures w.Valid() && file.Valid()
    ensures err.None? <==>
              && file.ending == Eof
              && |old(file.Rest())| == size
              && old(w.Takes(size + HASH_SIZE))
    ensures err.None? ==> w.written == old(w.written) + old(file.Rest()) + sha(old(file.Rest()))
    ensures Advanced(old(w.written), w.written, SentBytes(sha, old(file.Rest()), size))
    ensures |old(file.Rest())| != size && file.ending == Eof && old(w.Takes(|file.Rest()|)) ==>
              err == Some(ShortRead) && w.written == old(w.written) + old(file.Rest())
  {
    hide Digest;
    ghost var content, start := file.Rest(), w.written;
    var hashed;
    hashed, err := CopyHashed(w, file, None);
    AdvancedByPart(start, w.written, content, SentBytes(sha, content, size));
    if err.Some? { return; }
    if |hashed| != size { return Some(ShortRead); }
    err := w.Write(Digest(sha, hashed));
    AdvancedAfter(start, content, w.written, Digest(sha, content));
  }

  /** Whether the remaining bytes hold a payload of the announced size and its own hash. Sizes
      of 2^63 and more never do: converted to a signed limit they are negative. */
  ghost predicate Verifies(sha: Hash, rest: seq<byte>, size: uint64) {
    && size < INT64_LIMIT
    && |rest| >= size + HASH_SIZE
    && rest[size..size + HASH_SIZE] == Digest(sha, rest[..size])
  }

  method CheckTrailer(sha: Hash, src: Source, hashed: seq<byte>) returns (err: Option<Error>)
    requires src.Valid()
    modifies src`pos
    ensures src.Valid() && src.pos >= old(src.pos)
    ensures var rest, short := old(src.Rest()), FullReadError(old(src.Rest()), HASH_SIZE, src.ending);
            && err == (if short.Some? then short
                       else if rest[..32] == sha(hashed) then None else Some(ChecksumMismatch))
            && src.pos == if short.Some? then |src.data| else old(src.pos) + HASH_SIZE
  {
    hide Digest;
    var trailer;
    trailer, err := ReadFull(src, HASH_SIZE);
    if err.Some? { return; }
    if Digest(sha, hashed) != trailer { return Some(ChecksumMismatch); }
  }

  /** int64(size): a two's complement conversion. */
  function ToInt64(size: uint64): (n: int) {
    if size < INT64_LIMIT then size else size - 2 * INT64_LIMIT
  }

  /** For every size and every pattern of short reads: success exactly on a verified payload that
      the destination has room for, writing it and consuming it with its trailer and no byte more. */
  method ReceiveStream(sha: Hash, dst: Sink, src: Source, size: uint64) returns (err: Option<Error>)
    requires src.Valid() && dst.Valid()
    modifies dst, src`pos
    ensures src.Valid() && dst.Valid() && src.pos >= old(src.pos)
    ensures err.None? <==>
              && size < 0x8000_0000_0000_0000
              && |old(src.Rest())| >= size + 32
              && old(src.Rest())[size..size + 32] == sha(old(src.Rest())[..size])
              && (size == 0 || old(dst.Takes(size)))
    ensures err.None? <==> Verifies(sha, old(src.Rest()), size) && (size == 0 || old(dst.Takes(size)))
    ensures err == Some(WriteFailed) <==>
              var goal := Wanted(old(src.Rest()), Some(if size < INT64_LIMIT then size else 0));
              !(goal == [] || old(dst.Takes(|goal|)))
    ensures err.None? ==>
              && dst.written == old(dst.written) + old(src.Rest())[..size]
              && src.pos == old(src.pos) + size + HASH_SIZE
    ensures Verifies(sha, old(src.Rest()), size) ==> err in {None, Some(WriteFailed)}
    ensures size >= INT64_LIMIT ==> err == Some(ShortRead) && src.pos == old(src.pos)
    ensures var limit := Some(if size < INT64_LIMIT then size else 0);
            Advanced(old(dst.written), dst.written, Wanted(old(src.Rest()), limit))
    ensures err == Some(ChecksumMismatch) <==>
              && size < INT64_LIMIT
              && |old(src.Rest())| >= size + HASH_SIZE
              && (size == 0 || old(dst.Takes(size)))
              && !Verifies(sha, old(src.Rest()), size)
  {
    ghost var rest := src.Rest();
    VerifiesFacts(sha, rest, size);
    hide Digest, Advanced, Verifies;
    var limit := ToInt64(size);
    var hashed;
    // io.LimitReader ends at once when its limit is not positive
    var positive := if limit <= 0 then 0 else limit;
    assert positive == if size < INT64_LIMIT then size else 0;
    hashed, err := CopyHashed(dst, src, Some(positive));
    if err.Some? {
      assert err != Some(WriteFailed) ==> |rest| < size;
      return;
    }
    if |hashed| != size { return Some(ShortRead); }
    assert size < INT64_LIMIT && hashed == rest[..size];
    TrailerAt(src.data, old(src.pos), size);
    err := CheckTrailer(sha, src, hashed);
  }

  lemma TrailerAt(data: seq<byte>, p: nat, size: nat)
    requires p + size <= |data|
    ensures |data[p + size..]| == |data[p..]| - size
    ensures p + size + HASH_SIZE <= |data| ==> data[p + size..][..HASH_SIZE] == data[p..][size..size + HASH_SIZE]
  {
  }

  lemma VerifiesFacts(sha: Hash, rest: seq<byte>, size: uint64)
    ensures Verifies(sha, rest, size) ==> size < INT64_LIMIT && |rest| >= size + HASH_SIZE
    ensures size < INT64_LIMIT && |rest| >= size + HASH_SIZE ==>
              (Verifies(sha, rest, size) <==> rest[size..size + HASH_SIZE] == Digest(sha, rest[..size]))
  {
  }

  lemma FrameParts(sha: Hash, name: Name, content: seq<byte>, size: uint64)
    ensures |content| == size ==>
              EncodeHeader(name, size) + SentBytes(sha, content, size) == Frame(sha, Request(name, content))
  {
    FrameSplit(sha, Request(name, content));
  }

  // ---------- one transfer, and a source that changes under it ----------

  /** transferFile: the announced size comes from Stat, the bytes from the file as read later. It
      succeeds only after the complete frame is out and the next reply byte is ACK; if the file cannot
      be opened or stat'ed, the connection is not touched. */
  method TransferFile(
    sha: Hash, up: Sink, down: Source, name: Name, readable: bool, file: Source, statSize: uint64)
    returns (err: Option<Error>)
    requires up.Valid() && down.Valid() && file.Valid() && file != down && file.pos == 0
    modifies up, down`pos, file`pos
    ensures up.Valid() && down.Valid() && file.Valid()
    ensures err.None? <==>
              && readable && ValidName(name)
              && file.ending == Eof && |file.data| == statSize
              && old(up.Takes(46 + |name| + statSize))
              && old(down.Rest()) != [] && old(down.Rest())[0] == ACK_BYTE
    ensures err.None? ==>
              && up.written == old(up.written) + EncodeHeader(name, statSize) + file.data + sha(file.data)
              && up.written == old(up.written) + Frame(sha, Request(name, file.data))
              && down.pos == old(down.pos) + 1
    ensures !readable ==>
              err == Some(SourceFailed) && up.written == old(up.written) && up.broken == old(up.broken)
                && down.pos == old(down.pos)
    ensures |file.data| != statSize ==> err.Some? && down.pos == old(down.pos)
    ensures Advanced(old(up.written), up.written, EncodeHeader(name, statSize) + SentBytes(sha, file.data, statSize))
  {
    ghost var start, h, body := up.written, EncodeHeader(name, statSize), SentBytes(sha, file.data, statSize);
    FrameParts(sha, name, file.data, statSize);
    NotAdvanced(start, h + body);
    hide Digest, Frame, Advanced, EncodeHeader, SentBytes, ValidName, ParseResponse;
    assert file.Rest() == file.data;
    if !readable { return Some(SourceFailed); }
    err := WriteRequestHeader(up, name, statSize);
    if err.Some? {
      AdvancedByPart(start, up.written, h, h + body);
      return;
    }
    err := SendStream(sha, up, file, statSize);
    AdvancedAfter(start, h, up.written, body);
    if err.Some? { return; }
    err := ReadResponse(down);
  }

  lemma NotAdvanced(before: seq<byte>, chunk: seq<byte>)
    ensures Advanced(before, before, chunk)
  {
  }

  /** If the file's length changed between Stat and the copy, the receiver can take the request for
      verified only when the file grew past n + 32 bytes and its bytes n..n+32 are, by accident, the
      hash of its first n bytes. */
  lemma ChangedSource(sha: Hash, file: seq<byte>, n: uint64, arrived: seq<byte>)
    requires |file| != n && n < INT64_LIMIT
    requires arrived <= SentBytes(sha, file, n)
    ensures Verifies(sha, arrived, n) <==>
              && |arrived| >= n + HASH_SIZE
              && file[n..n + HASH_SIZE] == Digest(sha, file[..n])
    ensures Verifies(sha, arrived, n) ==> |file| >= n + HASH_SIZE
  {
    if |arrived| >= n + HASH_SIZE {
      assert arrived[n..n + HASH_SIZE] == file[n..n + HASH_SIZE];
      assert arrived[..n] == file[..n];
    }
  }
}
