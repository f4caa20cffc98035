/** The XP1 wire format as pure functions on byte sequences: file names, request
    headers, responses and whole request frames, with their decoders. */
module Wire {
  import opened Bytes

  /** Go strings are byte sequences; a file name is carried on the wire as it is. */
  type Name = seq<byte>

  /** SHA-256 is kept abstract: any function with a 32-byte result. */
  type Hash = h: seq<byte> -> seq<byte> | forall s :: |h(s)| == HASH_SIZE
    witness (s: seq<byte>) => BigEndian(0, HASH_SIZE)

  function Digest(sha: Hash, s: seq<byte>): (d: seq<byte>)
    ensures d == sha(s) && |d| == HASH_SIZE
  {
    sha(s)
  }

  const MAGIC: seq<byte> := [0x58, 0x50, 0x31, 0x0A]
  const ACK_BYTE: byte := 0x00
  const NACK_BYTE: byte := 0x01
  const MAX_FILENAME_LEN := 200
  const MAX_MESSAGE_LEN := 65535
  const HASH_SIZE: nat := 32
  const BUFFER_SIZE: nat := 1024 * 1024

  datatype Error =
    | PathSeparator
    | ReservedSuffix
    | BadPattern
    | InvalidMagic
    | BadNameLength
    | PayloadTooLarge
    | ChecksumMismatch
    | ShortRead
    | UnexpectedResponse(code: byte)
    | Nack(message: seq<byte>)
    | Eof
    | UnexpectedEof
    | Broken
    | WriteFailed
    | SourceFailed

  // ---------- file names ----------

  const TMP_SUFFIX: seq<byte> := [46, 116, 109, 112]        // ".tmp"
  const PART_SUFFIX: seq<byte> := [46, 112, 97, 114, 116]   // ".part"

  predicate IsAlphanumeric(b: byte) {
    48 <= b <= 57 || 65 <= b <= 90 || 97 <= b <= 122
  }

  predicate IsNameByte(b: byte) {
    IsAlphanumeric(b) || b == 46 || b == 95 || b == 45
  }

  predicate HasSuffix(s: seq<byte>, suffix: seq<byte>) {
    |suffix| <= |s| && s[|s| - |suffix|..] == suffix
  }

  predicate MatchesPattern(name: Name) {
    && 1 <= |name| <= MAX_FILENAME_LEN
    && IsAlphanumeric(name[0])
    && forall i :: 0 <= i < |name| ==> IsNameByte(name[i])
  }

  function ValidateFilename(name: Name): (err: Option<Error>)
    ensures err in {None, Some(PathSeparator), Some(ReservedSuffix), Some(BadPattern)}
  {
    if 47 in name || 92 in name then Some(PathSeparator)
    else if HasSuffix(name, TMP_SUFFIX) || HasSuffix(name, PART_SUFFIX) then Some(ReservedSuffix)
    else if !MatchesPattern(name) then Some(BadPattern)
    else None
  }

  predicate ValidName(name: Name) {
    ValidateFilename(name).None?
  }

  ghost predicate EndsWith(name: Name, suffix: seq<byte>) {
    exists front :: name == front + suffix
  }

  lemma Suffixes(name: Name, suffix: seq<byte>)
    ensures HasSuffix(name, suffix) <==> EndsWith(name, suffix)
  {
    if HasSuffix(name, suffix) {
      assert name == name[..|name| - |suffix|] + suffix;
    }
  }

  /** What an accepted name is, byte by byte: 1 to 200 letters, digits, dots, underscores and hyphens, the
      first a letter or digit, not ending in ".tmp" or ".part". So an accepted name is visible, is not
      a path, and can never be the name of a staging file. */
  lemma ValidNames(name: Name)
    ensures ValidName(name) <==>
              && 1 <= |name| <= 200
              && (48 <= name[0] <= 57 || 65 <= name[0] <= 90 || 97 <= name[0] <= 122)
              && (forall i :: 0 <= i < |name| ==>
                    || 48 <= name[i] <= 57 || 65 <= name[i] <= 90 || 97 <= name[i] <= 122
                    || name[i] == 46 || name[i] == 95 || name[i] == 45)
              && !EndsWith(name, [46, 116, 109, 112]) && !EndsWith(name, [46, 112, 97, 114, 116])
    ensures ValidName(name) ==> name[0] != 46 && 47 !in name && 92 !in name && !HasSuffix(name, TMP_SUFFIX)
  {
    Suffixes(name, TMP_SUFFIX);
    Suffixes(name, PART_SUFFIX);
    hide EndsWith, HasSuffix;
    if MatchesPattern(name) {
      assert !IsNameByte(47) && !IsNameByte(92);
    }
  }

  /** Which of the three checks an invalid name fails first. */
  lemma NameErrors(name: Name)
    ensures ValidateFilename(name) == Some(PathSeparator) <==> 47 in name || 92 in name
    ensures ValidateFilename(name) == Some(ReservedSuffix) <==>
              && 47 !in name && 92 !in name
              && (EndsWith(name, [46, 116, 109, 112]) || EndsWith(name, [46, 112, 97, 114, 116]))
  {
    Suffixes(name, TMP_SUFFIX);
    Suffixes(name, PART_SUFFIX);
    hide EndsWith, HasSuffix, MatchesPattern;
  }

  // ---------- request header ----------

  /** A size of 2^64 or more would lose its high bytes; the lemmas ask for a uint64. */
  function EncodeHeader(name: Name, size: nat): (s: seq<byte>)
    ensures |s| == 14 + |name|
  {
    MAGIC + BigEndian(|name|, 2) + name + BigEndian(size, 8)
  }

  /** The decoder's state on the bytes seen so far. More(n): the read now in progress
      ends when n bytes of the frame have arrived. */
  datatype Parse =
    | More(total: nat)
    | Bad(error: Error)
    | Header(name: Name, size: uint64)

  predicate WithinLimit(size: uint64, maxSize: uint64) {
    maxSize == 0 || size <= maxSize
  }

  function ParseHeader(buf: seq<byte>, maxSize: uint64): (p: Parse)
    ensures p.Bad? ==> p.error in {InvalidMagic, BadNameLength, PathSeparator, ReservedSuffix, BadPattern,
        PayloadTooLarge}
  {
    if |buf| < 4 then More(4)
    else if buf[..4] != MAGIC then Bad(InvalidMagic)
    else if |buf| < 6 then More(6)
    else
      var n := Value(buf[4..6]);
      if n == 0 || n > MAX_FILENAME_LEN then Bad(BadNameLength)
      else if |buf| < 6 + n then More(6 + n)
      else
        var name := buf[6..6 + n];
        if !ValidName(name) then Bad(ValidateFilename(name).value)
        else if |buf| < 14 + n then More(14 + n)
        else
          var size := ParseSize(buf[6 + n..14 + n]);
          if !WithinLimit(size, maxSize) then Bad(PayloadTooLarge)
          else Header(name, size)
  }

  /** The length field: 256 times its first byte plus the second. */
  ghost function LengthField(buf: seq<byte>): (n: nat)
    requires |buf| >= 6
  {
    256 * (buf[4] as int) + buf[5]
  }

  lemma LengthIs(buf: seq<byte>)
    requires |buf| >= 6
    ensures Value(buf[4..6]) == LengthField(buf)
  {
    TwoValue(buf[4..6]);
  }

  /** The verdicts of the decoder, byte by byte. */
  lemma HeaderVerdicts(buf: seq<byte>, maxSize: uint64)
    ensures var p := ParseHeader(buf, maxSize);
            && (p == Bad(InvalidMagic) <==> |buf| >= 4 && buf[..4] != [0x58, 0x50, 0x31, 0x0A])
            && (p == Bad(BadNameLength) <==>
                  |buf| >= 6 && buf[..4] == [0x58, 0x50, 0x31, 0x0A]
                    && (LengthField(buf) == 0 || LengthField(buf) > 200))
  {
    if |buf| >= 6 { LengthIs(buf); }
    hide ValidateFilename, Value, LengthField;
  }

  /** The name is judged as soon as it is there, before the size. */
  lemma NameVerdicts(buf: seq<byte>, maxSize: uint64)
    requires |buf| >= 6 && buf[..4] == [0x58, 0x50, 0x31, 0x0A] && 1 <= LengthField(buf) <= 200
    ensures var p, n := ParseHeader(buf, maxSize), LengthField(buf);
            && (|buf| < 6 + n ==> p == More(6 + n))
            && (|buf| >= 6 + n && ValidateFilename(buf[6..6 + n]).Some? ==>
                  p == Bad(ValidateFilename(buf[6..6 + n]).value))
            && (|buf| >= 6 + n && ValidateFilename(buf[6..6 + n]).None? ==>
                  p.More? || p == Bad(PayloadTooLarge) || (p.Header? && p.name == buf[6..6 + n]))
  {
    LengthIs(buf);
    hide ValidateFilename, Value, LengthField;
  }

  /** The size limit: it does nothing but reject, and it rejects exactly the larger sizes. */
  lemma LimitOnly(buf: seq<byte>, maxSize: uint64)
    ensures var p := ParseHeader(buf, 0);
            && p != Bad(PayloadTooLarge)
            && ParseHeader(buf, maxSize) ==
                 if p.Header? && maxSize > 0 && p.size > maxSize then Bad(PayloadTooLarge) else p
  {
    hide ValidateFilename;
  }

  function ParseSize(s: seq<byte>): (n: uint64)
    requires |s| == 8
  {
    ValueBound(s);
    Widths();
    Value(s)
  }

  /** Decoding undoes encoding, whatever follows the header, unless the size is over the limit. */
  lemma HeaderRoundTrip(name: Name, size: uint64, maxSize: uint64, rest: seq<byte>)
    requires ValidName(name)
    ensures ParseHeader(EncodeHeader(name, size) + rest, maxSize) ==
            if WithinLimit(size, maxSize) then Header(name, size) else Bad(PayloadTooLarge)
  {
    var h := EncodeHeader(name, size);
    var buf := h + rest;
    ValidNames(name);
    Widths();
    ValueOfBigEndian(|name|, 2);
    ValueOfBigEndian(size, 8);
    assert h[..4] == MAGIC && h[4..6] == BigEndian(|name|, 2);
    assert h[6..6 + |name|] == name && h[6 + |name|..14 + |name|] == BigEndian(size, 8);
    assert buf[..4] == h[..4] && buf[4..6] == h[4..6];
    assert buf[6..6 + |name|] == h[6..6 + |name|];
    assert buf[6 + |name|..14 + |name|] == h[6 + |name|..14 + |name|];
  }

  /** Canonical framing: the only bytes that decode to a header are its own encoding. */
  lemma HeaderCanonical(buf: seq<byte>, maxSize: uint64)
    requires ParseHeader(buf, maxSize).Header?
    ensures var p := ParseHeader(buf, maxSize);
            && ValidName(p.name)
            && WithinLimit(p.size, maxSize)
            && EncodeHeader(p.name, p.size) <= buf
  {
    var n := Value(buf[4..6]);
    var p := ParseHeader(buf, maxSize);
    BigEndianOfValue(buf[4..6]);
    BigEndianOfValue(buf[6 + n..14 + n]);
    assert buf[..14 + n] == buf[..4] + buf[4..6] + buf[6..6 + n] + buf[6 + n..14 + n];
    assert EncodeHeader(p.name, p.size) == buf[..14 + n];
  }

  /** No accepted header is a strict prefix of another: two headers that start the same
      bytes are the same header. */
  lemma HeaderPrefixFree(name: Name, size: uint64, name': Name, size': uint64, buf: seq<byte>)
    requires ValidName(name) && ValidName(name')
    requires EncodeHeader(name, size) <= buf && EncodeHeader(name', size') <= buf
    ensures name == name' && size == size'
  {
    hide ParseHeader, EncodeHeader, ValidName;
    ReadsBack(name, size, buf);
    ReadsBack(name', size', buf);
  }

  lemma ReadsBack(name: Name, size: uint64, buf: seq<byte>)
    requires ValidName(name) && EncodeHeader(name, size) <= buf
    ensures ParseHeader(buf, 0) == Header(name, size)
  {
    hide ParseHeader, EncodeHeader, ValidName;
    HeaderRoundTrip(name, size, 0, buf[14 + |name|..]);
    assert EncodeHeader(name, size) + buf[14 + |name|..] == buf;
  }

  /** A proper prefix of a header always asks for more bytes, and never beyond the header's end. */
  lemma HeaderPrefixAsksForMore(name: Name, size: uint64, maxSize: uint64, buf: seq<byte>)
    requires ValidName(name)
    requires buf < EncodeHeader(name, size)
    ensures ParseHeader(buf, maxSize).More?
    ensures |buf| < ParseHeader(buf, maxSize).total <= 14 + |name|
  {
    var h := EncodeHeader(name, size);
    ValidNames(name);
    Widths();
    ValueOfBigEndian(|name|, 2);
    assert h[..4] == MAGIC && h[4..6] == BigEndian(|name|, 2) && h[6..6 + |name|] == name;
    assert buf == h[..|buf|];
    if |buf| >= 4 { assert buf[..4] == h[..4]; }
    if |buf| >= 6 { assert buf[4..6] == h[4..6]; }
    if |buf| >= 6 + |name| { assert buf[6..6 + |name|] == h[6..6 + |name|]; }
  }

  /** The layout of a request header, byte by byte. */
  lemma HeaderLayout(name: Name, size: uint64)
    requires |name| < 65536
    ensures var h, n := EncodeHeader(name, size), |name|;
            && h[0] == 0x58 && h[1] == 0x50 && h[2] == 0x31 && h[3] == 0x0A
            && n == 256 * (h[4] as int) + h[5]
            && h[6..6 + n] == name
            && size ==
                 0x100_0000_0000_0000 * (h[6 + n] as int) + 0x1_0000_0000_0000 * (h[7 + n] as int)
                 + 0x100_0000_0000 * (h[8 + n] as int) + 0x1_0000_0000 * (h[9 + n] as int)
                 + 0x100_0000 * (h[10 + n] as int) + 0x1_0000 * (h[11 + n] as int) + 0x100 * (h[12 + n] as int)
                       + h[13 + n]
  {
    Widths();
    ValueOfBigEndian(|name|, 2);
    ValueOfBigEndian(size, 8);
    TwoValue(BigEndian(|name|, 2));
    EightValue(BigEndian(size, 8));
    hide BigEndian, Value;
    var h := EncodeHeader(name, size);
    assert h[4..6] == BigEndian(|name|, 2) && h[6 + |name|..14 + |name|] == BigEndian(size, 8);
    assert h[4] == h[4..6][0] && h[5] == h[4..6][1];
    var z := h[6 + |name|..14 + |name|];
    assert forall i :: 0 <= i < 8 ==> z[i] == h[6 + |name| + i];
  }

  // ---------- responses ----------

  function EncodeAck(): (s: seq<byte>) {
    [ACK_BYTE]
  }

  function Truncated(msg: seq<byte>): (m: seq<byte>) {
    if |msg| > MAX_MESSAGE_LEN then msg[..MAX_MESSAGE_LEN] else msg
  }

  function EncodeNack(msg: seq<byte>): (s: seq<byte>) {
    [NACK_BYTE] + BigEndian(|Truncated(msg)|, 2) + Truncated(msg)
  }

  /** The response at the front of buf and the number of bytes it takes; None while incomplete. */
  function ParseResponse(buf: seq<byte>): (r: Option<(Option<Error>, nat)>) {
    if |buf| < 1 then None
    else if buf[0] == ACK_BYTE then Some((None, 1))
    else if buf[0] != NACK_BYTE then Some((Some(UnexpectedResponse(buf[0])), 1))
    else if |buf| < 3 then None
    else
      var n := Value(buf[1..3]);
      if |buf| < 3 + n then None else Some((Some(Nack(buf[3..3 + n])), 3 + n))
  }

  /** Responses decode to themselves, a NACK's message cut to 65535 bytes, using exactly the frame. */
  lemma ResponseRoundTrip(msg: seq<byte>, rest: seq<byte>)
    ensures ParseResponse(EncodeAck() + rest) == Some((None, |EncodeAck()|))
    ensures ParseResponse(EncodeNack(msg) + rest) == Some((Some(Nack(Truncated(msg))), |EncodeNack(msg)|))
  {
    var m, s := Truncated(msg), EncodeNack(msg);
    Widths();
    ValueOfBigEndian(|m|, 2);
    NackParts(BigEndian(|m|, 2), m, rest);
    hide BigEndian, Value;
  }

  /** The layout of the responses, byte by byte. */
  lemma ResponseLayout(msg: seq<byte>)
    ensures EncodeAck() == [0x00]
    ensures var s, n := EncodeNack(msg), if |msg| > 65535 then 65535 else |msg|;
            |s| == 3 + n && s[0] == 0x01 && n == 256 * (s[1] as int) + s[2] && s[3..] == msg[..n]
  {
    var m := Truncated(msg);
    var len := BigEndian(|m|, 2);
    Widths();
    ValueOfBigEndian(|m|, 2);
    TwoValue(len);
    hide BigEndian, Value;
    var s := [NACK_BYTE] + len + m;
    assert s[1] == len[0] && s[2] == len[1];
    assert s[3..] == m;
  }

  lemma NackParts(len: seq<byte>, m: seq<byte>, rest: seq<byte>)
    requires |len| == 2
    ensures var buf := ([NACK_BYTE] + len + m) + rest;
            && |buf| >= 3 + |m| && buf[0] == NACK_BYTE && buf[1..3] == len && buf[3..3 + |m|] == m
  {
    var s := [NACK_BYTE] + len + m;
    assert s[1..3] == len && s[3..3 + |m|] == m;
    assert (s + rest)[1..3] == s[1..3] && (s + rest)[3..3 + |m|] == s[3..3 + |m|];
  }

  // ---------- request frames and sessions ----------

  datatype Request = Request(name: Name, payload: seq<byte>)

  predicate Sendable(r: Request, maxSize: uint64) {
    ValidName(r.name) && |r.payload| < INT64_LIMIT && WithinLimit(|r.payload|, maxSize)
  }

  function Frame(sha: Hash, r: Request): (s: seq<byte>)
    ensures |s| == 46 + |r.name| + |r.payload|
  {
    EncodeHeader(r.name, |r.payload|) + r.payload + Digest(sha, r.payload)
  }

  lemma FrameSplit(sha: Hash, r: Request)
    ensures Frame(sha, r) == EncodeHeader(r.name, |r.payload|) + (r.payload + Digest(sha, r.payload))
  {
  }

  predicate AllSendable(rs: seq<Request>, maxSize: uint64) {
    forall i :: 0 <= i < |rs| ==> Sendable(rs[i], maxSize)
  }

  /** The bytes a sender puts on one connection for a list of requests. */
  function Session(sha: Hash, rs: seq<Request>): (s: seq<byte>) {
    if rs == [] then [] else Frame(sha, rs[0]) + Session(sha, rs[1..])
  }

  lemma {:induction false} SessionAppend(sha: Hash, rs: seq<Request>, r: Request)
    ensures Session(sha, rs + [r]) == Session(sha, rs) + Frame(sha, r)
  {
    hide Frame;
    if rs == [] {
      assert [r][1..] == [] && [] + [r] == [r];
    } else {
      assert (rs + [r])[1..] == rs[1..] + [r];
      SessionAppend(sha, rs[1..], r);
    }
  }

  /** Frames are prefix-free: a frame found at the front of a stream is the frame that was put there. */
  lemma FramePrefixFree(sha: Hash, a: Request, b: Request, s: seq<byte>, t: seq<byte>)
    requires Sendable(a, 0) && Sendable(b, 0)
    requires Frame(sha, a) + s == Frame(sha, b) + t
    ensures a == b && s == t
  {
    var all := Frame(sha, a) + s;
    assert EncodeHeader(a.name, |a.payload|) == all[..14 + |a.name|];
    assert EncodeHeader(b.name, |b.payload|) == all[..14 + |b.name|];
    HeaderPrefixFree(a.name, |a.payload|, b.name, |b.payload|, all);
    var h, n := 14 + |a.name|, |a.payload|;
    assert Frame(sha, a)[h..h + n] == a.payload && Frame(sha, b)[h..h + n] == b.payload;
    assert all[h..h + n] == a.payload && all[h..h + n] == b.payload;
    assert all[h + n + 32..] == s && all[h + n + 32..] == t;
  }

  lemma Regroup(a: seq<byte>, b: seq<byte>, c: seq<byte>)
    ensures (a + b) + c == a + (b + c)
  {
  }

  lemma {:induction false} SessionHead(sha: Hash, x: Request, xs: seq<Request>, ys: seq<Request>, tail: seq<byte>)
    requires Sendable(x, 0) && AllSendable(ys, 0)
    requires Frame(sha, x) + Session(sha, xs) + tail == Session(sha, ys)
    ensures ys != [] && x == ys[0]
    ensures Session(sha, xs) + tail == Session(sha, ys[1..])
  {
    hide Frame, Sendable;
    Regroup(Frame(sha, x), Session(sha, xs), tail);
    assert |Session(sha, ys)| > 0;
    FramePrefixFree(sha, x, ys[0], Session(sha, xs) + tail, Session(sha, ys[1..]));
  }

  /** Sessions are uniquely decodable, for every hash function: a list of requests whose bytes
      start a session is a prefix of the list that was sent. */
  lemma {:induction false} SessionUnique(sha: Hash, xs: seq<Request>, ys: seq<Request>, tail: seq<byte>)
    requires AllSendable(xs, 0) && AllSendable(ys, 0)
    requires Session(sha, xs) + tail == Session(sha, ys)
    ensures xs <= ys
    ensures AllSendable(ys[|xs|..], 0) && tail == Session(sha, ys[|xs|..])
  {
    hide Sendable, Frame;
    if xs == [] {
      assert ys[0..] == ys;
      assert [] + tail == tail;
    } else {
      SessionHead(sha, xs[0], xs[1..], ys, tail);
      SessionUnique(sha, xs[1..], ys[1..], tail);
      assert ys[1..][|xs[1..]|..] == ys[|xs|..];
    }
  }

  /** Two lists of requests at the front of the same bytes: one is a prefix of the other. */
  lemma {:induction false} SessionsMeet(sha: Hash, xs: seq<Request>, ys: seq<Request>, t: seq<byte>, p: seq<byte>)
    requires AllSendable(xs, 0) && AllSendable(ys, 0)
    requires Session(sha, xs) + t == Session(sha, ys) + p
    ensures xs <= ys || (ys <= xs && Session(sha, xs[|ys|..]) + t == p)
  {
    hide Sendable, Frame;
    if ys == [] {
      assert [] + p == p && xs[0..] == xs;
    } else if xs != [] {
      Regroup(Frame(sha, xs[0]), Session(sha, xs[1..]), t);
      Regroup(Frame(sha, ys[0]), Session(sha, ys[1..]), p);
      FramePrefixFree(sha, xs[0], ys[0], Session(sha, xs[1..]) + t, Session(sha, ys[1..]) + p);
      SessionsMeet(sha, xs[1..], ys[1..], t, p);
      if ys[1..] <= xs[1..] {
        assert xs[1..][|ys[1..]|..] == xs[|ys|..];
        assert ys <= xs;
      }
    }
  }

  /** A frame found in a header that announces n bytes and the bytes of a file after it. */
  lemma FrameInFile(
    sha: Hash, name: Name, n: uint64, file: seq<byte>, r: Request, rest: seq<byte>)
    requires Sendable(r, 0) && ValidName(name)
    requires Frame(sha, r) + rest <= EncodeHeader(name, n) + file
    ensures |file| >= n + HASH_SIZE && r == Request(name, file[..n])
    ensures file[n..n + HASH_SIZE] == Digest(sha, file[..n]) && rest <= file[n + HASH_SIZE..]
  {
    FrameSplit(sha, r);
    var h, b := EncodeHeader(r.name, |r.payload|), r.payload + Digest(sha, r.payload);
    var all := EncodeHeader(name, n) + file;
    hide EncodeHeader, Frame, Digest, ValidName;
    Regroup(h, b, rest);
    assert h <= all;
    HeaderPrefixFree(r.name, |r.payload|, name, n, all);
    assert b + rest == (h + (b + rest))[|h|..] && file == all[|h|..];
    assert b + rest <= file;
    assert r.payload == (b + rest)[..n] == file[..n];
    assert (b + rest)[n..n + HASH_SIZE] == Digest(sha, r.payload) && (b + rest)[n + HASH_SIZE..] == rest;
  }
}
