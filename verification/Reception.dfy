/** One request's frame against the handler that reads it, whatever the other handlers do: what the
    handler has read so far, what is left, and the steps that bring the request to its commit. */
module Reception {
  import opened Bytes
  import opened Wire
  import opened Disks
  import R = ReceiverMachine

  type ConnId = R.ConnId

  // ---------- a handler in step with a request ----------

  /** The handler has consumed exactly a prefix of the request's frame, and read it correctly. */
  ghost predicate Matches(cfg: R.Config, d: Disk, p: R.Phase, r: Request) {
    match p
    case Reading(buf) => buf <= Frame(cfg.sha, r) && |buf| <= 14 + |r.name|
    case Body(name, size, _, ino, trailer) =>
      && name == r.name && size == |r.payload|
      && |d.Data(ino)| <= size && (trailer != [] ==> |d.Data(ino)| == size)
      && d.Data(ino) + trailer <= r.payload + Digest(cfg.sha, r.payload)
    case Renamed(name) => name == r.name
    case Committed(name) => name == r.name
    case _ => p.name == r.name && d.Data(p.ino) == r.payload
  }

  /** The bytes of the frame that the handler has still to read. */
  ghost function Left(cfg: R.Config, d: Disk, p: R.Phase, r: Request): (s: seq<byte>)
    requires Matches(cfg, d, p, r)
  {
    match p
    case Reading(buf) => Frame(cfg.sha, r)[|buf|..]
    case Body(_, _, _, ino, trailer) => (r.payload + Digest(cfg.sha, r.payload))[|d.Data(ino)| + |trailer|..]
    case _ => []
  }

  lemma Consume(all: seq<byte>, got: seq<byte>, chunk: seq<byte>)
    requires got <= all && chunk <= all[|got|..]
    ensures got + chunk <= all
    ensures all[|got + chunk|..] == all[|got|..][|chunk|..]
  {
  }

  lemma FeedBody(cfg: R.Config, s: R.State, c: ConnId, r: Request, chunk: seq<byte>)
    requires c in s.handlers && s.handlers[c].Body? && Matches(cfg, s.disk, s.handlers[c], r)
    requires 0 < |chunk| <= R.Need(cfg, s.disk, s.handlers[c]) && chunk <= Left(cfg, s.disk, s.handlers[c], r)
    ensures var t := R.Fed(s, c, s.handlers[c], chunk);
            && c in t.handlers
            && Matches(cfg, t.disk, t.handlers[c], r)
            && Left(cfg, t.disk, t.handlers[c], r) == Left(cfg, s.disk, s.handlers[c], r)[|chunk|..]
  {
    hide Digest;
    var p := s.handlers[c];
    var data := s.disk.Data(p.ino);
    Consume(r.payload + Digest(cfg.sha, r.payload), data + p.trailer, chunk);
    if |data| < p.size {
      assert data + p.trailer == data && R.Fed(s, c, p, chunk).disk.Data(p.ino) == data + chunk;
      assert (data + chunk) + [] == data + chunk;
    } else {
      assert data + (p.trailer + chunk) == (data + p.trailer) + chunk;
    }
  }

  lemma FeedMatches(cfg: R.Config, s: R.State, c: ConnId, r: Request, chunk: seq<byte>)
    requires c in s.handlers && Matches(cfg, s.disk, s.handlers[c], r) && ValidName(r.name) && |r.payload| < INT64_LIMIT
    requires 0 < |chunk| <= R.Need(cfg, s.disk, s.handlers[c]) && chunk <= Left(cfg, s.disk, s.handlers[c], r)
    ensures var t := R.Fed(s, c, s.handlers[c], chunk);
            && c in t.handlers
            && Matches(cfg, t.disk, t.handlers[c], r)
            && Left(cfg, t.disk, t.handlers[c], r) == Left(cfg, s.disk, s.handlers[c], r)[|chunk|..]
  {
    hide ParseHeader, Frame, ValidName, Digest;
    match s.handlers[c]
    case Reading(buf) => FeedHeader(cfg, buf, r, chunk);
    case Body(_, _, _, _, _) => FeedBody(cfg, s, c, r, chunk);
  }

  lemma FeedHeader(cfg: R.Config, buf: seq<byte>, r: Request, chunk: seq<byte>)
    requires buf <= Frame(cfg.sha, r) && |buf| <= 14 + |r.name| && ValidName(r.name) && |r.payload| < INT64_LIMIT
    requires ParseHeader(buf, cfg.maxSize).More? && |buf| + |chunk| <= ParseHeader(buf, cfg.maxSize).total
    requires chunk <= Frame(cfg.sha, r)[|buf|..]
    ensures buf + chunk <= Frame(cfg.sha, r) && |buf| + |chunk| <= 14 + |r.name|
    ensures Frame(cfg.sha, r)[|buf + chunk|..] == Frame(cfg.sha, r)[|buf|..][|chunk|..]
  {
    FrameSplit(cfg.sha, r);
    var h, f := EncodeHeader(r.name, |r.payload|), Frame(cfg.sha, r);
    hide ParseHeader, Frame, ValidName, Digest, EncodeHeader;
    Consume(f, buf, chunk);
    assert h + [] == h;
    HeaderRoundTrip(r.name, |r.payload|, cfg.maxSize, []);
    assert buf != h && buf <= h;
    HeaderPrefixAsksForMore(r.name, |r.payload|, cfg.maxSize, buf);
  }

  lemma StageMatches(cfg: R.Config, buf: seq<byte>, r: Request)
    requires buf <= Frame(cfg.sha, r) && |buf| <= 14 + |r.name| && ValidName(r.name) && |r.payload| < INT64_LIMIT
    requires ParseHeader(buf, cfg.maxSize).Header?
    ensures ParseHeader(buf, cfg.maxSize) == Header(r.name, |r.payload|) && |buf| == 14 + |r.name|
    ensures Frame(cfg.sha, r)[|buf|..] == r.payload + Digest(cfg.sha, r.payload)
  {
    FrameSplit(cfg.sha, r);
    hide ParseHeader, Frame, ValidName, Digest, EncodeHeader;
    var p, f := ParseHeader(buf, cfg.maxSize), Frame(cfg.sha, r);
    HeaderCanonical(buf, cfg.maxSize);
    assert buf <= f;
    HeaderPrefixFree(p.name, p.size, r.name, |r.payload|, f);
  }

  lemma EmptyIsNoHeader(maxSize: uint64)
    ensures !ParseHeader([], maxSize).Header?
  {
  }

  // ---------- what one handler's steps leave alone ----------

  ghost predicate PhaseKept(s: R.State, t: R.State, x: ConnId) {
    x in t.handlers ==>
      && x in s.handlers && t.handlers[x] == s.handlers[x]
      && (s.handlers[x].Owns() ==> t.disk.Data(s.handlers[x].ino) == s.disk.Data(s.handlers[x].ino))
  }

  lemma OwnFiles(s: R.State, x: ConnId)
    requires R.Inv(s) && x in s.handlers && s.handlers[x].Owns()
    ensures s.handlers[x].ino in s.disk.files
    ensures forall c :: c in s.handlers && c != x && s.handlers[c].Owns() ==> s.handlers[c].ino != s.handlers[x].ino
  {
    assert R.PhaseOk(s, s.handlers[x]);
  }

  lemma OtherPhases(cfg: R.Config, s: R.State, a: R.Action)
    requires R.Enabled(cfg, s, a) && a.OfHandler()
    ensures R.Apply(cfg, s, a).handlers - {a.c} == s.handlers - {a.c}
  {
    hide ParseHeader, Digest, R.Need, R.Complete, R.Move, R.Fed, R.Staged, R.Exited;
  }

  lemma OtherData(cfg: R.Config, s: R.State, a: R.Action, i: Inode)
    requires R.Enabled(cfg, s, a) && a.OfHandler()
    requires i in s.disk.files
    requires a.c in s.handlers && s.handlers[a.c].Owns() ==> s.handlers[a.c].ino != i
    ensures R.Apply(cfg, s, a).disk.Data(i) == s.disk.Data(i)
  {
    hide ParseHeader, Digest, R.Need, R.Complete;
  }

  /** A handler's step changes no other handler's phase or staged bytes. */
  lemma OthersUntouched(cfg: R.Config, s: R.State, a: R.Action, x: ConnId)
    requires R.Inv(s) && R.Enabled(cfg, s, a) && a.OfHandler() && x != a.c
    ensures PhaseKept(s, R.Apply(cfg, s, a), x)
  {
    hide R.Enabled, R.Apply, R.Inv;
    if x in R.Apply(cfg, s, a).handlers {
      OtherPhases(cfg, s, a);
      assert x in R.Apply(cfg, s, a).handlers - {a.c};
      assert (s.handlers - {a.c})[x] == s.handlers[x];
      if s.handlers[x].Owns() {
        OwnFiles(s, x);
        OtherData(cfg, s, a, s.handlers[x].ino);
      }
    }
  }

  // ---------- fresh identifiers ----------

  lemma {:induction false} FreshNat(s: set<nat>, least: nat) returns (k: nat)
    ensures k >= least && k !in s
    decreases |s|
  {
    if least in s {
      k := FreshNat(s - {least}, least + 1);
    } else {
      k := least;
    }
  }

  lemma FreshTmp(staging: map<Name, Inode>) returns (tmp: Name)
    ensures IsTmp(tmp) && tmp !in staging
  {
    var lengths := set x | x in staging :: |x|;
    var k := FreshNat(lengths, 4);
    tmp := seq(k - 4, _ => 97) + TMP_SUFFIX;
    assert tmp[|tmp| - 4..] == TMP_SUFFIX;
    assert |tmp| == k;
  }

  // ---------- the way to the commit ----------

  lemma HeaderNeeds(cfg: R.Config, buf: seq<byte>, r: Request)
    requires buf <= Frame(cfg.sha, r) && |buf| < 14 + |r.name| && Sendable(r, cfg.maxSize)
    ensures ParseHeader(buf, cfg.maxSize).More? && |buf| < ParseHeader(buf, cfg.maxSize).total <= 14 + |r.name|
  {
    FrameSplit(cfg.sha, r);
    hide ParseHeader, Frame, ValidName, Digest, EncodeHeader;
    var h := EncodeHeader(r.name, |r.payload|);
    assert buf < h;
    HeaderPrefixAsksForMore(r.name, |r.payload|, cfg.maxSize, buf);
  }

  lemma HeaderDone(cfg: R.Config, buf: seq<byte>, r: Request)
    requires buf <= Frame(cfg.sha, r) && |buf| == 14 + |r.name| && Sendable(r, cfg.maxSize)
    ensures ParseHeader(buf, cfg.maxSize) == Header(r.name, |r.payload|)
    ensures Frame(cfg.sha, r)[|buf|..] == r.payload + Digest(cfg.sha, r.payload)
  {
    FrameSplit(cfg.sha, r);
    hide ParseHeader, Frame, ValidName, Digest, EncodeHeader;
    assert buf + [] == buf == EncodeHeader(r.name, |r.payload|);
    HeaderRoundTrip(r.name, |r.payload|, cfg.maxSize, []);
  }

  /** While bytes of the frame are missing, the handler's read takes some of those that arrived. */
  lemma NeedsSome(cfg: R.Config, d: Disk, p: R.Phase, r: Request)
    requires Matches(cfg, d, p, r) && Sendable(r, cfg.maxSize) && (p.Body? || p.Reading?)
    requires if p.Body? then Left(cfg, d, p, r) != [] else |p.buf| < 14 + |r.name|
    ensures 0 < R.Need(cfg, d, p) <= |Left(cfg, d, p, r)|
  {
    hide ParseHeader, Frame, ValidName, Digest;
    if p.Reading? { HeaderNeeds(cfg, p.buf, r); }
  }

  lemma BodyDone(cfg: R.Config, d: Disk, p: R.Phase, r: Request)
    requires p.Body? && Matches(cfg, d, p, r) && Left(cfg, d, p, r) == [] && |r.payload| < INT64_LIMIT
    ensures R.Complete(cfg, d, p) && d.Data(p.ino) == r.payload
  {
    hide Frame, Digest;
    var data := d.Data(p.ino);
    assert data + p.trailer == r.payload + Digest(cfg.sha, r.payload);
    assert data == (data + p.trailer)[..|data|] == r.payload;
    assert p.trailer == (data + p.trailer)[|data|..];
  }

  /** Phases of a handler, counted back from the commit. */
  ghost function Rank(p: R.Phase): (k: nat) {
    match p
    case Reading(_) => 6
    case Body(_, _, _, _, _) => 5
    case Verified(_, _, _) => 4
    case Synced(_, _, _) => 3
    case Closed(_, _, _) => 2
    case Renamed(_) => 1
    case Committed(_) => 0
  }

  /** The system call that a handler makes next when nothing is left to read. */
  ghost function NextCall(c: ConnId, p: R.Phase): (a: R.Action) {
    match p
    case Body(_, _, _, _, _) => R.Verify(c)
    case Verified(_, _, _) => R.FileSync(c)
    case Synced(_, _, _) => R.Close(c)
    case Closed(_, _, _) => R.Rename(c)
    case _ => R.DirSync(c)
  }

  /** Step a of handler c takes it from s to t, in step with r: it reads some of what is left, or
      goes on to its next phase. */
  ghost predicate Advances(cfg: R.Config, s: R.State, c: ConnId, r: Request, a: R.Action, t: R.State) {
    && a.OfHandler() && a.c == c && !a.Accept? && !a.Ack? && !a.Exit?
    && c in s.handlers && Matches(cfg, s.disk, s.handlers[c], r)
    && c in t.handlers && Matches(cfg, t.disk, t.handlers[c], r)
    && var before, after := Left(cfg, s.disk, s.handlers[c], r), Left(cfg, t.disk, t.handlers[c], r);
       if a.Feed? then
         && 0 < |a.chunk| <= R.Need(cfg, s.disk, s.handlers[c]) && a.chunk <= before && after == before[|a.chunk|..]
         && Rank(t.handlers[c]) == Rank(s.handlers[c])
       else after == before && Rank(t.handlers[c]) == Rank(s.handlers[c]) - 1
  }

  lemma FeedAdvances(cfg: R.Config, s: R.State, c: ConnId, r: Request, chunk: seq<byte>)
    requires c in s.handlers && Matches(cfg, s.disk, s.handlers[c], r) && Sendable(r, cfg.maxSize)
    requires 0 < |chunk| <= R.Need(cfg, s.disk, s.handlers[c]) && chunk <= Left(cfg, s.disk, s.handlers[c], r)
    ensures var a := R.Feed(c, chunk);
            R.Enabled(cfg, s, a) && Advances(cfg, s, c, r, a, R.Apply(cfg, s, a))
  {
    FeedIs(cfg, s, c, chunk);
    SameRank(cfg, s, c, chunk);
    hide R.Enabled, R.Apply, R.Fed, R.Need, Matches, Left, ValidName;
    FeedMatches(cfg, s, c, r, chunk);
  }

  lemma FeedIs(cfg: R.Config, s: R.State, c: ConnId, chunk: seq<byte>)
    requires c in s.handlers && 0 < |chunk| <= R.Need(cfg, s.disk, s.handlers[c])
    ensures R.Enabled(cfg, s, R.Feed(c, chunk))
    ensures R.Apply(cfg, s, R.Feed(c, chunk)) == R.Fed(s, c, s.handlers[c], chunk)
  {
    hide R.Need, R.Fed;
  }

  lemma SameRank(cfg: R.Config, s: R.State, c: ConnId, chunk: seq<byte>)
    requires c in s.handlers && R.Need(cfg, s.disk, s.handlers[c]) > 0
    ensures var t := R.Fed(s, c, s.handlers[c], chunk);
            c in t.handlers && Rank(t.handlers[c]) == Rank(s.handlers[c])
  {
    hide ParseHeader;
  }

  lemma StageAdvances(cfg: R.Config, s: R.State, c: ConnId, r: Request, tmp: Name, ino: Inode)
    requires c in s.handlers && s.handlers[c].Reading? && |s.handlers[c].buf| == 14 + |r.name|
    requires Matches(cfg, s.disk, s.handlers[c], r) && Sendable(r, cfg.maxSize)
    requires IsTmp(tmp) && tmp !in s.disk.staging && ino !in s.disk.files
    ensures var a := R.Stage(c, tmp, ino);
            R.Enabled(cfg, s, a) && Advances(cfg, s, c, r, a, R.Apply(cfg, s, a))
  {
    HeaderDone(cfg, s.handlers[c].buf, r);
    StageIs(cfg, s, c, tmp, ino);
    hide R.Enabled, R.Apply, ParseHeader, Frame, Digest, ValidName, IsTmp, R.Need;
    var all := r.payload + Digest(cfg.sha, r.payload);
    assert all[0..] == all && [] <= all;
  }

  lemma StageIs(cfg: R.Config, s: R.State, c: ConnId, tmp: Name, ino: Inode)
    requires c in s.handlers && s.handlers[c].Reading? && ParseHeader(s.handlers[c].buf, cfg.maxSize).Header?
    requires IsTmp(tmp) && tmp !in s.disk.staging && ino !in s.disk.files
    ensures R.Enabled(cfg, s, R.Stage(c, tmp, ino))
    ensures var h := ParseHeader(s.handlers[c].buf, cfg.maxSize);
            R.Apply(cfg, s, R.Stage(c, tmp, ino)) == R.Staged(s, c, h.name, h.size, tmp, ino)
  {
    hide ParseHeader, IsTmp, R.Staged;
  }

  lemma CallAdvances(cfg: R.Config, s: R.State, c: ConnId, r: Request)
    requires c in s.handlers && !s.handlers[c].Reading? && !s.handlers[c].Committed? && |r.payload| < INT64_LIMIT
    requires Matches(cfg, s.disk, s.handlers[c], r) && Left(cfg, s.disk, s.handlers[c], r) == []
    ensures var a := NextCall(c, s.handlers[c]);
            R.Enabled(cfg, s, a) && Advances(cfg, s, c, r, a, R.Apply(cfg, s, a))
  {
    hide Frame, Digest, R.Enabled, R.Apply, R.Need, R.Complete;
    var p := s.handlers[c];
    if p.Body? {
      BodyDone(cfg, s.disk, p, r);
      VerifyIs(cfg, s, c);
    } else {
      CallIs(cfg, s, c);
    }
  }

  lemma VerifyIs(cfg: R.Config, s: R.State, c: ConnId)
    requires c in s.handlers && R.Complete(cfg, s.disk, s.handlers[c])
    ensures R.Enabled(cfg, s, R.Verify(c)) && s.handlers[c].Body?
    ensures var p, t := s.handlers[c], R.Apply(cfg, s, R.Verify(c));
            t.handlers == s.handlers[c := R.Verified(p.name, p.tmp, p.ino)] && t.disk == s.disk
  {
    hide ParseHeader, Digest;
  }

  /** The steps from the verified file to the synced directory. */
  lemma CallIs(cfg: R.Config, s: R.State, c: ConnId)
    requires c in s.handlers && 1 <= Rank(s.handlers[c]) <= 4
    ensures R.Enabled(cfg, s, NextCall(c, s.handlers[c]))
    ensures var p, t := s.handlers[c], R.Apply(cfg, s, NextCall(c, s.handlers[c]));
            && t.handlers == s.handlers[c :=
                 if p.Verified? then R.Synced(p.name, p.tmp, p.ino)
                   else if p.Synced? then R.Closed(p.name, p.tmp, p.ino)
                 else if p.Closed? then R.Renamed(p.name) else R.Committed(p.name)]
            && (p.Owns() ==> t.disk.Data(p.ino) == s.disk.Data(p.ino))
  {
    hide ParseHeader, R.Need, R.Complete;
  }

  /** While a request is not committed, some step of its handler is possible and brings it closer. */
  lemma NextStep(cfg: R.Config, s: R.State, c: ConnId, r: Request) returns (a: R.Action)
    requires c in s.handlers && Matches(cfg, s.disk, s.handlers[c], r) && Sendable(r, cfg.maxSize)
    requires !s.handlers[c].Committed?
    ensures R.Enabled(cfg, s, a) && Advances(cfg, s, c, r, a, R.Apply(cfg, s, a))
  {
    hide R.Enabled, R.Apply, R.Need, ParseHeader, ValidName, Advances;
    var p, left := s.handlers[c], Left(cfg, s.disk, s.handlers[c], r);
    if p.Reading? && |p.buf| == 14 + |r.name| {
      var tmp := FreshTmp(s.disk.staging);
      var ino := FreshNat(s.disk.files.Keys, 0);
      StageAdvances(cfg, s, c, r, tmp, ino);
      a := R.Stage(c, tmp, ino);
    } else if p.Reading? || left != [] {
      NeedsSome(cfg, s.disk, p, r);
      var chunk := left[..R.Need(cfg, s.disk, p)];
      FeedAdvances(cfg, s, c, r, chunk);
      a := R.Feed(c, chunk);
    } else {
      CallAdvances(cfg, s, c, r);
      a := NextCall(c, p);
    }
  }
}
