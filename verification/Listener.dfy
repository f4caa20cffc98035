/** The receiver's connection loop: header, staging file, payload, barrier and reply, turn by turn. */
module Listener {
  import opened Bytes
  import opened Wire
  import opened Streams
  import opened Disks
  import opened Receiver

  datatype ExitReason =
    | Stopped
    | InputEnded(err: Error)
    | HeaderRejected(err: Error)
    | StageFailed(cause: StageError)
    | StreamRejected(err: Error)
    | DiskFailed(room: nat)
    | CommitFailed(error: CommitError)

  /** Whether the loop ended because of what arrived, rather than because something failed. */
  ghost predicate EndedByInput(why: ExitReason) {
    why.InputEnded? || why.HeaderRejected? || why.StreamRejected?
  }

  /** What ReceiveStream tries to write for a payload of the announced size. */
  ghost function PayloadIn(rest: seq<byte>, size: uint64): (s: seq<byte>) {
    Wanted(rest, Some(if size < INT64_LIMIT then size else 0))
  }

  /** What the input looked like after the last committed request. */
  ghost predicate InputExplains(sha: Hash, maxSize: uint64, rest: seq<byte>, why: ExitReason) {
    var h := ParseHeader(rest, maxSize);
    match why
    case Stopped => true
    case InputEnded(e) => h.More? && (e == Eof || e == Broken)
    case HeaderRejected(e) => h == Bad(e) || (e == UnexpectedEof && h.More? && rest != [])
    case StageFailed(_) => h.Header?
    case StreamRejected(_) => h.Header? && !Verifies(sha, rest[14 + |h.name|..], h.size)
    case DiskFailed(room) => h.Header? && |PayloadIn(rest[14 + |h.name|..], h.size)| > room
    case CommitFailed(e) => e.AckFailed? || (h.Header? && Verifies(sha, rest[14 + |h.name|..], h.size))
  }

  /** The parts of the world that a failure without a failed call blames: the space for the file that was
      written, and the name that was drawn. */
  ghost predicate WorldExplains(world: World, d: Disk, why: ExitReason)
    reads world
  {
    match why
    case DiskFailed(room) => |world.log| >= 1 && room == world.room(|world.log| - 1)
    case StageFailed(NameTaken) =>
      |world.log| >= 2 && Hex(world.random(|world.log| - 2)) + [46, 116, 109, 112] in d.staging
    case _ => true
  }

  /** A staging file was left behind only because its removal, the last call, failed. */
  ghost predicate LeakExplained(log: seq<Event>, leaked: set<Name>) {
    leaked != {} ==> |log| > 0 && log[|log| - 1] == Event(Remove, false)
  }

  /** The calls of one turn after the look at the stop channel; end is None if the turn ends with an ACK. */
  ghost function TurnCalls(end: Option<ExitReason>, removed: bool): (es: seq<Event>) {
    match end
    case None => StageCalls(None) + BarrierCalls(None, removed)
    case Some(CommitFailed(e)) => StageCalls(None) + BarrierCalls(Some(e), removed)
    case Some(StageFailed(e)) => StageCalls(Some(e))
    case Some(StreamRejected(_)) => StageCalls(None) + [Event(Remove, removed)]
    case Some(DiskFailed(_)) => StageCalls(None) + [Event(Remove, removed)]
    case _ => []
  }

  /** The calls of n turns that end with an ACK, and of the turn that ends the connection. */
  ghost function AckedCalls(n: nat): (es: seq<Event>) {
    if n == 0 then [] else AckedCalls(n - 1) + [Event(Look, true)] + TurnCalls(None, true)
  }

  ghost function LastCalls(why: ExitReason, removed: bool): (es: seq<Event>) {
    if why.Stopped? then [Event(Look, false)] else [Event(Look, true)] + TurnCalls(Some(why), removed)
  }

  ghost function Acks(n: nat): (s: seq<byte>)
    ensures |s| == n && forall i :: 0 <= i < n ==> s[i] == 0x00
  {
    seq(n, _ => 0x00)
  }

  /** No later request of the connection has the same name. */
  ghost predicate Newest(rs: seq<Request>, i: int) {
    0 <= i < |rs| && forall j :: i < j < |rs| ==> rs[j].name != rs[i].name
  }

  /** Every name committed on this connection durably holds the payload committed last. */
  ghost predicate Landed(d: Disk, rs: seq<Request>) {
    forall i :: Newest(rs, i) ==>
      && rs[i].name in d.durable && d.durable[rs[i].name] in d.files
      && d.files[d.durable[rs[i].name]] == File(rs[i].payload, true)
  }

  /** ... and nothing newer is waiting for a directory sync. */
  ghost predicate NothingNewer(d: Disk, rs: seq<Request>) {
    forall r :: r in rs ==> r.name in d.durable && r.name in d.names && d.names[r.name] == d.durable[r.name]
  }

  ghost predicate FilesKept(d: Disk, e: Disk) {
    forall i :: i in d.files ==> i in e.files && e.files[i] == d.files[i]
  }

  lemma LandedKept(d: Disk, e: Disk, rs: seq<Request>)
    requires Landed(d, rs) && FilesKept(d, e) && e.durable == d.durable
    ensures Landed(e, rs)
  {
  }

  lemma LandedMore(d: Disk, e: Disk, rs: seq<Request>, r: Request, ino: Inode)
    requires Landed(d, rs) && NothingNewer(d, rs) && FilesKept(d, e) && InPlace(d, e, r, ino)
    ensures Landed(e, rs + [r]) && NothingNewer(e, rs + [r])
  {
    var more := rs + [r];
    forall i | Newest(more, i)
      ensures more[i].name in e.durable && e.durable[more[i].name] in e.files
      ensures e.files[e.durable[more[i].name]] == File(more[i].payload, true)
    {
      if i < |rs| {
        assert more[|rs|].name != rs[i].name;
        assert forall j :: i < j < |rs| ==> more[j] == rs[j];
        assert Newest(rs, i) && rs[i] in rs;
      }
    }
  }

  /** A frame that was read is the frame of the request it decodes to. */
  lemma FrameRead(sha: Hash, maxSize: uint64, rest: seq<byte>)
    requires ParseHeader(rest, maxSize).Header?
    requires var h := ParseHeader(rest, maxSize); Verifies(sha, rest[14 + |h.name|..], h.size)
    ensures var h := ParseHeader(rest, maxSize);
            var r := Request(h.name, rest[14 + |h.name|..][..h.size]);
            && Sendable(r, maxSize)
            && rest == Frame(sha, r) + rest[14 + |h.name|..][h.size + HASH_SIZE..]
  {
    HeaderCanonical(rest, maxSize);
    var h := ParseHeader(rest, maxSize);
    hide ParseHeader, ValidName, Digest, EncodeHeader, Verifies, Frame;
    var body := rest[14 + |h.name|..];
    var r := Request(h.name, body[..h.size]);
    VerifiesFacts(sha, body, h.size);
    FrameSplit(sha, r);
    Rejoin(rest, EncodeHeader(h.name, h.size), h.size);
    assert h.size == |r.payload|;
  }

  lemma Rejoin(rest: seq<byte>, head: seq<byte>, n: nat)
    requires head <= rest && |rest| >= |head| + n + HASH_SIZE
    ensures var body := rest[|head|..];
            var front := head + (body[..n] + body[n..n + HASH_SIZE]);
            rest == front + body[n + HASH_SIZE..]
  {
  }

  /** Nothing, or a rejection with some message, was written behind before: all of it where the stream takes
      it. */
  ghost predicate Answered(capacity: nat, broken: bool, before: seq<byte>, rejects: bool, after: seq<byte>) {
    if rejects then exists msg :: after == Taken(capacity, broken, before, EncodeNack(msg)) else after == before
  }

  /** Writes a NACK with some message; its failure is ignored. */
  method Reject(out: Sink)
    requires out.Valid()
    modifies out
    ensures out.Valid() && Answered(out.capacity, old(out.broken), old(out.written), true, out.written)
  {
    hide Taken, EncodeNack;
    var msg: seq<byte> := *;
    var e := out.Write(EncodeNack(msg));
    AnsweredBy(out.capacity, old(out.broken), old(out.written), msg);
  }

  lemma AnsweredBy(capacity: nat, broken: bool, before: seq<byte>, msg: seq<byte>)
    ensures Answered(capacity, broken, before, true, Taken(capacity, broken, before, EncodeNack(msg)))
  {
  }

  /** Whether the handler says goodbye: not if it was stopped, if the peer closed the connection, or if the
      peer was idle for too long. */
  ghost predicate MustReject(why: ExitReason, expected: bool) {
    match why
    case Stopped => false
    case InputEnded(e) => e == Broken && !expected
    case _ => true
  }

  /** What a connection that ended with why leaves on the reply stream behind the ACKs. */
  ghost predicate Goodbye(capacity: nat, broken: bool, before: seq<byte>, why: ExitReason, expected: bool,
      after: seq<byte>) {
    Answered(capacity, broken || why == CommitFailed(AckFailed), before, MustReject(why, expected), after)
  }

  /** ReceiveStream into a file on a disk with space for room bytes. */
  method StreamToFile(sha: Hash, src: Source, size: uint64, room: nat) returns (data: seq<byte>, err: Option<Error>)
    requires src.Valid()
    modifies src`pos
    ensures src.Valid() && src.pos >= old(src.pos)
    ensures err.None? ==>
              && Verifies(sha, old(src.Rest()), size)
              && data == old(src.Rest())[..size]
              && src.pos == old(src.pos) + size + HASH_SIZE
              && |old(src.Rest())| >= size + HASH_SIZE
              && src.Rest() == old(src.Rest())[size + HASH_SIZE..]
    ensures err == Some(WriteFailed) <==> |PayloadIn(old(src.Rest()), size)| > room
    ensures err.Some? && err.value != WriteFailed ==> !Verifies(sha, old(src.Rest()), size)
    ensures data <= PayloadIn(old(src.Rest()), size)
    ensures |data| <= if size < INT64_LIMIT then size else 0
  {
    VerifiesFacts(sha, src.Rest(), size);
    hide Verifies;
    var file := new Sink(room);
    err := ReceiveStream(sha, file, src, size);
    data := file.written;
    assert [] + PayloadIn(old(src.Rest()), size) == PayloadIn(old(src.Rest()), size);
  }

  /** What one turn of the connection loop does to the directory. */
  datatype Effect =
    | Untouched
    | Dropped(name: Name, size: uint64, tmp: Name, ino: Inode, data: seq<byte>, removed: bool)
    | Barred(r: Request, tmp: Name, ino: Inode, err: Option<CommitError>, removed: bool)

  ghost function AfterTurn(d: Disk, e: Effect): (t: Disk) {
    match e
    case Untouched => d
    case Dropped(_, _, tmp, ino, data, removed) =>
      var staged := d.Create(tmp, ino).Append(ino, data);
      if removed then staged.Remove(tmp) else staged
    case Barred(r, tmp, ino, err, removed) =>
      BarrierEffect(d.Create(tmp, ino).Append(ino, r.payload), tmp, ino, r.name, err, removed)
  }

  /** The request is one that the receiver takes, and the staging file is new. */
  ghost predicate Possible(maxSize: uint64, d: Disk, e: Effect) {
    match e
    case Untouched => true
    case Dropped(name, size, tmp, ino, data, _) =>
      && ValidName(name) && WithinLimit(size, maxSize)
      && IsTmp(tmp) && tmp !in d.staging && ino !in d.files
      && |data| <= if size < INT64_LIMIT then size else 0
    case Barred(r, tmp, ino, _, _) => Sendable(r, maxSize) && IsTmp(tmp) && tmp !in d.staging && ino !in d.files
  }

  /** The turn ended with an ACK, so that another turn may follow. */
  ghost predicate GoesOn(e: Effect) {
    e.Barred? && e.err.None?
  }

  ghost function AfterTurns(d: Disk, es: seq<Effect>): (t: Disk) {
    if es == [] then d else AfterTurn(AfterTurns(d, es[..|es| - 1]), es[|es| - 1])
  }

  /** The turns of one connection: each on the directory that the one before left, if that went on. */
  ghost predicate PossibleAll(maxSize: uint64, d: Disk, es: seq<Effect>) {
    es == [] ||
    (var front := es[..|es| - 1];
     && PossibleAll(maxSize, d, front)
     && (front != [] ==> GoesOn(front[|front| - 1]))
     && Possible(maxSize, AfterTurns(d, front), es[|es| - 1]))
  }

  /** The turns lead from directory d to t. */
  ghost predicate Turns(maxSize: uint64, d: Disk, es: seq<Effect>, t: Disk) {
    PossibleAll(maxSize, d, es) && t == AfterTurns(d, es)
  }

  ghost predicate MayGoOn(es: seq<Effect>) {
    es == [] || GoesOn(es[|es| - 1])
  }

  lemma NoTurns(maxSize: uint64, d: Disk)
    ensures Turns(maxSize, d, [], d) && MayGoOn([])
  {
  }

  lemma OneMoreTurn(maxSize: uint64, d: Disk, es: seq<Effect>, t: Disk, e: Effect, u: Disk)
    requires Turns(maxSize, d, es, t) && MayGoOn(es) && Possible(maxSize, t, e) && u == AfterTurn(t, e)
    ensures Turns(maxSize, d, es + [e], u) && (MayGoOn(es + [e]) <==> GoesOn(e))
  {
    hide Possible, AfterTurn, GoesOn;
    assert (es + [e])[..|es|] == es;
  }

  /** A new staging file with the given contents, and no other change. */
  ghost predicate StagedSince(d: Disk, e: Disk, tmp: Name, ino: Inode, data: seq<byte>) {
    && ino !in d.files && tmp !in d.staging && IsTmp(tmp)
    && e == d.Create(tmp, ino).Append(ino, data)
    && e == d.(files := d.files[ino := File(data, false)], staging := d.staging[tmp := ino])
  }

  /** No file or final name changed; of new staging files only leaked ones are left. */
  ghost predicate NothingStaged(d: Disk, e: Disk, leaked: set<Name>) {
    && FilesKept(d, e)
    && e.names == d.names && e.durable == d.durable && e.pending == d.pending
    && e.staging.Keys == d.staging.Keys + leaked
    && forall f :: f in leaked ==> IsTmp(f)
  }

  /** Streams a payload into its staging file, which is removed if that fails. */
  method FillStaged(sha: Hash, vol: Volume, world: World, src: Source, tmp: Name, ino: Inode, size: uint64)
    returns (failure: Option<ExitReason>, data: seq<byte>, removed: bool)
    requires vol.Valid() && world.Valid() && src.Valid() && ino in vol.disk.files
    modifies vol`disk, world, src`pos
    ensures vol.Valid() && world.Valid() && src.Valid() && src.pos >= old(src.pos)
    ensures failure.None? ==>
              && Verifies(sha, old(src.Rest()), size)
              && src.pos == old(src.pos) + size + HASH_SIZE
              && |old(src.Rest())| >= size + HASH_SIZE
              && data == old(src.Rest())[..size]
              && src.Rest() == old(src.Rest())[size + HASH_SIZE..]
              && vol.disk == old(vol.disk).Append(ino, data)
              && world.log == old(world.log)
    ensures failure.Some? ==>
              && (failure.value.DiskFailed? || failure.value.StreamRejected?)
              && (failure.value.StreamRejected? ==> !Verifies(sha, old(src.Rest()), size))
              && (failure.value.DiskFailed? ==>
                   failure.value.room == world.room(|old(world.log)|) < |PayloadIn(old(src.Rest()), size)|)
              && (var d := old(vol.disk).Append(ino, data); vol.disk == if removed then d.Remove(tmp) else d)
              && world.log == old(world.log) + [Event(Remove, removed)]
    ensures |data| <= if size < INT64_LIMIT then size else 0
  {
    hide Source.Rest, Verifies, PayloadIn, World.Valid, Sound, Disk.Append, Disk.Remove;
    removed := true;
    ghost var d := vol.disk;
    var err;
    var room := world.room(|world.log|);
    data, err := StreamToFile(sha, src, size, room);
    SoundAppended(d, vol.next, tmp, ino, data);
    vol.disk := vol.disk.Append(ino, data);
    failure := None;
    if err.Some? {
      removed := RemoveStaged(vol, world, tmp);
      failure := Some(if err.value == WriteFailed then DiskFailed(room) else StreamRejected(err.value));
    }
  }

  /** The payload was not staged, or not received. */
  ghost predicate StageEnds(sha: Hash, maxSize: uint64, rest: seq<byte>, size: uint64, d: Disk, why: ExitReason,
      leaked: set<Name>, effect: Effect, e: Disk) {
    && (why.StageFailed? || why.DiskFailed? || why.StreamRejected?)
    && (why.StreamRejected? ==> !Verifies(sha, rest, size))
    && (why.DiskFailed? ==> |PayloadIn(rest, size)| > why.room)
    && NothingStaged(d, e, leaked)
    && !effect.Barred? && Possible(maxSize, d, effect) && e == AfterTurn(d, effect)
  }

  /** From the header to the verified staging file. */
  method StageAndReceive(sha: Hash, maxSize: uint64, vol: Volume, world: World, src: Source, ghost name: Name,
      size: uint64)
    returns (failure: Option<ExitReason>, tmp: Name, ino: Inode, data: seq<byte>, leaked: set<Name>,
        ghost effect: Effect)
    requires vol.Valid() && world.Valid() && src.Valid() && ValidName(name) && WithinLimit(size, maxSize)
    modifies vol, world, src`pos
    ensures vol.Valid() && world.Valid() && src.Valid() && src.pos >= old(src.pos)
    ensures failure.None? ==>
              && Verifies(sha, old(src.Rest()), size)
              && src.pos == old(src.pos) + size + HASH_SIZE
              && |old(src.Rest())| >= size + HASH_SIZE
              && data == old(src.Rest())[..size]
              && src.Rest() == old(src.Rest())[size + HASH_SIZE..]
              && StagedSince(old(vol.disk), vol.disk, tmp, ino, data)
              && world.log == old(world.log) + StageCalls(None)
    ensures failure.Some? ==>
              && StageEnds(sha, maxSize, old(src.Rest()), size, old(vol.disk), failure.value, leaked, effect, vol.disk)
              && world.log == old(world.log) + TurnCalls(failure, leaked == {})
              && WorldExplains(world, vol.disk, failure.value) && LeakExplained(world.log, leaked)
  {
    hide StageEnds, Source.Rest, Verifies, IsTmp, ValidName, NothingStaged, StagedSince, Disk.Create, Disk.Remove,
      Hex, PayloadIn, StageCalls, TurnCalls, WorldExplains, World.Valid, LeakExplained, Sound, Disk.Append,
      AfterTurn, Possible;
    leaked, data, effect := {}, [], Untouched;
    ghost var d, before := vol.disk, world.log;
    var bad;
    bad, tmp, ino := CreateStagedFile(vol, world);
    if bad.Some? {
      NotStaged(sha, maxSize, src.Rest(), size, world, d, before, bad.value);
      return Some(StageFailed(bad.value)), tmp, ino, data, leaked, effect;
    }
    StagedFacts(d, tmp, ino, []);
    var removed;
    failure, data, removed := FillStaged(sha, vol, world, src, tmp, ino, size);
    StagedFacts(d, tmp, ino, data);
    if failure.Some? {
      leaked, effect := if removed then {} else {tmp}, Dropped(name, size, tmp, ino, data, removed);
      NotReceived(sha, maxSize, old(src.Rest()), world, d, before, failure.value, leaked, effect, vol.disk);
    }
  }

  lemma DroppedIs(maxSize: uint64, d: Disk, e: Effect)
    requires e.Dropped? && ValidName(e.name) && WithinLimit(e.size, maxSize) && IsTmp(e.tmp)
    requires e.tmp !in d.staging && e.ino !in d.files && |e.data| <= if e.size < INT64_LIMIT then e.size else 0
    ensures Possible(maxSize, d, e)
    ensures var staged := d.Create(e.tmp, e.ino).Append(e.ino, e.data);
            AfterTurn(d, e) == if e.removed then staged.Remove(e.tmp) else staged
  {
    hide ValidName, IsTmp, Disk.Create, Disk.Append, Disk.Remove;
  }

  lemma SoundAppended(d: Disk, next: Inode, tmp: Name, ino: Inode, data: seq<byte>)
    requires Sound(d, next) && ino in d.files
    ensures Sound(d.Append(ino, data), next) && Sound(d.Append(ino, data).Remove(tmp), next)
  {
  }

  lemma NotStaged(sha: Hash, maxSize: uint64, rest: seq<byte>, size: uint64, world: World, d: Disk, before: seq<Event>,
      err: StageError)
    requires world.log == before + StageCalls(Some(err))
    requires err.NameTaken? ==> Hex(world.random(|before| + 1)) + [46, 116, 109, 112] in d.staging
    ensures world.log == before + TurnCalls(Some(StageFailed(err)), true)
    ensures WorldExplains(world, d, StageFailed(err)) && LeakExplained(world.log, {})
    ensures StageEnds(sha, maxSize, rest, size, d, StageFailed(err), {}, Untouched, d)
  {
    hide Hex, Verifies, PayloadIn, IsTmp;
    NothingYet(d);
    UntouchedIs(maxSize, d);
  }

  lemma NotReceived(sha: Hash, maxSize: uint64, rest: seq<byte>, world: World, d: Disk, before: seq<Event>,
      why: ExitReason, leaked: set<Name>, effect: Effect, e: Disk)
    requires world.log == (before + StageCalls(None)) + [Event(Remove, leaked == {})]
    requires why.StreamRejected? || why.DiskFailed?
    requires why.DiskFailed? ==> why.room == world.room(|before + StageCalls(None)|)
    requires effect.Dropped? && ValidName(effect.name) && WithinLimit(effect.size, maxSize) && IsTmp(effect.tmp)
    requires effect.tmp !in d.staging && effect.ino !in d.files
    requires |effect.data| <= if effect.size < INT64_LIMIT then effect.size else 0
    requires why.StreamRejected? ==> !Verifies(sha, rest, effect.size)
    requires why.DiskFailed? ==> |PayloadIn(rest, effect.size)| > why.room
    requires leaked == if effect.removed then {} else {effect.tmp}
    requires var staged := d.Create(effect.tmp, effect.ino).Append(effect.ino, effect.data);
             e == if effect.removed then staged.Remove(effect.tmp) else staged
    ensures world.log == before + TurnCalls(Some(why), leaked == {})
    ensures WorldExplains(world, e, why) && LeakExplained(world.log, leaked)
    ensures StageEnds(sha, maxSize, rest, effect.size, d, why, leaked, effect, e)
  {
    hide StageCalls, Verifies, PayloadIn, IsTmp, ValidName, WithinLimit, AfterTurn, Possible, NothingStaged,
      StagedSince, Disk.Create, Disk.Append, Disk.Remove;
    StagedFacts(d, effect.tmp, effect.ino, effect.data);
    DroppedIs(maxSize, d, effect);
  }

  lemma StagedFacts(d: Disk, tmp: Name, ino: Inode, data: seq<byte>)
    requires tmp !in d.staging && ino !in d.files && IsTmp(tmp)
    ensures var e := d.Create(tmp, ino).Append(ino, data);
            StagedSince(d, e, tmp, ino, data) && NothingStaged(d, e, {tmp}) && NothingStaged(d, e.Remove(tmp), {})
  {
    hide IsTmp;
    assert [] + data == data;
    assert d.staging[tmp := ino] - {tmp} == d.staging;
    assert d.files[ino := File([], false)][ino := File(data, false)] == d.files[ino := File(data, false)];
  }

  /** A request is in place: verified contents under its name, both on stable storage. */
  ghost predicate InPlace(d: Disk, e: Disk, r: Request, ino: Inode) {
    && e.names == d.names[r.name := ino] && e.durable == e.names
    && ino in e.files && e.files[ino] == File(r.payload, true)
  }

  /** Waits for the next header; every way of not getting one ends the connection. */
  method NextHeader(sha: Hash, maxSize: uint64, src: Source, out: Sink)
    returns (failure: Option<ExitReason>, name: Name, size: uint64)
    requires src.Valid() && out.Valid()
    modifies src`pos, out
    ensures src.Valid() && out.Valid() && src.pos >= old(src.pos)
    ensures failure.None? ==>
              && ParseHeader(old(src.Rest()), maxSize) == Header(name, size) && |old(src.Rest())| >= 14 + |name|
              && src.pos == old(src.pos) + 14 + |name|
              && src.Rest() == old(src.Rest())[14 + |name|..]
              && out.written == old(out.written) && out.broken == old(out.broken)
    ensures failure.Some? ==>
              && (failure.value.InputEnded? || failure.value.HeaderRejected?)
              && InputExplains(sha, maxSize, old(src.Rest()), failure.value)
              && Goodbye(out.capacity, old(out.broken), old(out.written), failure.value, src.expected, out.written)
  {
    hide ParseHeader, Verifies, Value, Answered, Goodbye, InputExplains, HeaderError;
    var err;
    name, size, err := ReadRequestHeader(src, maxSize);
    if err.Some? {
      if err.value != Eof && !(err.value == Broken && src.expected) {
        Reject(out);
      } else {
        Unanswered(out.capacity, out.broken, out.written);
      }
      var ended := err.value == Eof || err.value == Broken;
      failure := Some(if ended then InputEnded(err.value) else HeaderRejected(err.value));
      HeaderExplains(sha, maxSize, old(src.Rest()), src.ending, err.value, failure.value);
      HeaderGoodbye(out.capacity, old(out.broken), old(out.written), err.value, failure.value, src.expected,
        out.written);
      return;
    }
    failure := None;
  }

  lemma HeaderExplains(sha: Hash, maxSize: uint64, rest: seq<byte>, ending: Error, err: Error, why: ExitReason)
    requires Some(err) == HeaderError(rest, ending, maxSize) && (ending == Eof || ending == Broken)
    requires why == if err == Eof || err == Broken then InputEnded(err) else HeaderRejected(err)
    ensures InputExplains(sha, maxSize, rest, why)
  {
    hide ParseHeader, Verifies, Value;
  }

  lemma HeaderGoodbye(capacity: nat, broken: bool, before: seq<byte>, err: Error, why: ExitReason, expected: bool,
      after: seq<byte>)
    requires why == if err == Eof || err == Broken then InputEnded(err) else HeaderRejected(err)
    requires Answered(capacity, broken, before, err != Eof && !(err == Broken && expected), after)
    ensures Goodbye(capacity, broken, before, why, expected, after)
  {
    hide Answered;
  }

  lemma Unanswered(capacity: nat, broken: bool, written: seq<byte>)
    ensures Answered(capacity, broken, written, false, written)
  {
  }

  /** A complete request in a staging file, or the reason why there is none. */
  method ReceiveRequest(sha: Hash, maxSize: uint64, vol: Volume, world: World, src: Source, out: Sink)
    returns (failure: Option<ExitReason>, r: Request, tmp: Name, ino: Inode, leaked: set<Name>, ghost effect: Effect)
    requires vol.Valid() && world.Valid() && src.Valid() && out.Valid()
    modifies vol, world, src`pos, out
    ensures vol.Valid() && world.Valid() && src.Valid() && out.Valid() && src.pos >= old(src.pos)
    ensures failure.None? ==>
              && Sendable(r, maxSize)
              && old(src.Rest()) == Frame(sha, r) + src.Rest()
              && StagedSince(old(vol.disk), vol.disk, tmp, ino, r.payload)
              && out.written == old(out.written) && out.broken == old(out.broken)
              && world.log == old(world.log) + StageCalls(None)
    ensures failure.Some? ==>
              && InputExplains(sha, maxSize, old(src.Rest()), failure.value)
              && !failure.value.CommitFailed? && !failure.value.Stopped?
              && world.log == old(world.log) + TurnCalls(failure, leaked == {})
              && WorldExplains(world, vol.disk, failure.value) && LeakExplained(world.log, leaked)
              && Goodbye(out.capacity, old(out.broken), old(out.written), failure.value, src.expected, out.written)
              && NothingStaged(old(vol.disk), vol.disk, leaked)
              && !effect.Barred?
              && Possible(maxSize, old(vol.disk), effect) && vol.disk == AfterTurn(old(vol.disk), effect)
  {
    hide Sink.Valid, Source.Rest, ValidateFilename, EncodeHeader, ParseHeader, Frame, Verifies, Sendable,
      StagedSince, NothingStaged, Volume.Valid, Answered, Goodbye, LeakExplained, StageCalls, InputExplains,
      AfterTurn, Possible, ValidName, PayloadIn, WorldExplains, World.Valid, TurnCalls, StageEnds;
    r, tmp, ino, leaked, effect := Request([], []), [], 0, {}, Untouched;
    ghost var rest := src.Rest();
    NothingYet(vol.disk);
    UntouchedIs(maxSize, vol.disk);
    var name, size;
    failure, name, size := NextHeader(sha, maxSize, src, out);
    if failure.Some? {
      NotBlamed(world, vol.disk, failure.value);
      return;
    }
    var data;
    HeaderNames(rest, maxSize);
    ghost var body, d := rest[14 + |name|..], vol.disk;
    assert src.Rest() == body && d == old(vol.disk);
    failure, tmp, ino, data, leaked, effect := StageAndReceive(sha, maxSize, vol, world, src, name, size);
    if failure.Some? {
      StreamExplains(sha, maxSize, rest, name, size, d, failure.value, leaked, effect, vol.disk);
      Reject(out);
      RejectionDue(out.capacity, old(out.broken), old(out.written), failure.value, src.expected, out.written);
      return;
    }
    FrameRead(sha, maxSize, rest);
    r := Request(name, data);
  }

  lemma RejectionDue(capacity: nat, broken: bool, before: seq<byte>, why: ExitReason, expected: bool, after: seq<byte>)
    requires Answered(capacity, broken, before, true, after)
    requires why.StageFailed? || why.StreamRejected? || why.DiskFailed?
    ensures Goodbye(capacity, broken, before, why, expected, after)
  {
    hide Answered;
  }

  lemma NotBlamed(world: World, d: Disk, why: ExitReason)
    requires !why.DiskFailed? && !why.StageFailed?
    ensures WorldExplains(world, d, why) && LeakExplained(world.log, {})
    ensures why.InputEnded? || why.HeaderRejected? ==> world.log == world.log + TurnCalls(Some(why), true)
  {
  }

  lemma UntouchedIs(maxSize: uint64, d: Disk)
    ensures Possible(maxSize, d, Untouched) && AfterTurn(d, Untouched) == d
  {
  }

  lemma HeaderNames(rest: seq<byte>, maxSize: uint64)
    requires ParseHeader(rest, maxSize).Header?
    ensures ValidName(ParseHeader(rest, maxSize).name) && WithinLimit(ParseHeader(rest, maxSize).size, maxSize)
  {
    HeaderCanonical(rest, maxSize);
  }

  lemma StreamExplains(sha: Hash, maxSize: uint64, rest: seq<byte>, name: Name, size: uint64, d: Disk, why: ExitReason,
      leaked: set<Name>, effect: Effect, e: Disk)
    requires ParseHeader(rest, maxSize) == Header(name, size) && |rest| >= 14 + |name|
    requires StageEnds(sha, maxSize, rest[14 + |name|..], size, d, why, leaked, effect, e)
    ensures why.StageFailed? || why.DiskFailed? || why.StreamRejected?
    ensures InputExplains(sha, maxSize, rest, why)
    ensures NothingStaged(d, e, leaked)
    ensures !effect.Barred? && Possible(maxSize, d, effect) && e == AfterTurn(d, effect)
  {
    hide ParseHeader, Verifies, PayloadIn, NothingStaged, Possible, AfterTurn;
  }

  lemma NothingYet(d: Disk)
    ensures NothingStaged(d, d, {})
  {
  }

  /** CommitBarrier on a file staged since d, and the rejection when it fails. */
  method CommitStaged(vol: Volume, world: World, out: Sink, ghost d: Disk, tmp: Name, ino: Inode, r: Request)
    returns (err: Option<CommitError>, leaked: set<Name>, ghost removed: bool)
    requires vol.Valid() && world.Valid() && out.Valid() && StagedSince(d, vol.disk, tmp, ino, r.payload)
    modifies vol`disk, world, out
    ensures vol.Valid() && world.Valid() && out.Valid() && FilesKept(d, vol.disk)
    ensures world.log == old(world.log) + BarrierCalls(err, leaked == {}) && LeakExplained(world.log, leaked)
    ensures vol.disk == AfterTurn(d, Barred(r, tmp, ino, err, removed))
    ensures Committed(err) ==> InPlace(d, vol.disk, r, ino)
    ensures !Committed(err) ==> vol.disk.durable == d.durable
    ensures err.None? ==>
              out.written == old(out.written) + [0x00] && !out.broken && !old(out.broken) && leaked == {}
    ensures err == Some(AckFailed) ==> !old(out.Takes(1))
    ensures err.Some? ==>
              forall expected ::
                Goodbye(out.capacity, old(out.broken), old(out.written), CommitFailed(err.value), expected, out.written)
    ensures vol.disk.staging.Keys == d.staging.Keys + leaked
    ensures forall f :: f in leaked ==> IsTmp(f)
  {
    hide Sink.Takes, IsTmp, Barrier, Answered, Goodbye, World.Valid, BarrierCalls, LeakExplained, Sound,
      BarrierEffect;
    ghost var before := world.log;
    var gone;
    err, gone := CommitBarrier(vol, world, out, tmp, ino, r.name);
    leaked, removed := if BeforeRename(err) && !gone then {tmp} else {}, gone;
    BarrierLeaves(before, world.log, err, gone, leaked);
    assert d.staging[tmp := ino] - {tmp} == d.staging;
    if err.Some? {
      Reject(out);
      CommitRejected(out.capacity, old(out.broken), old(out.written), err.value, out.written);
    }
  }

  lemma BarrierLeaves(before: seq<Event>, log: seq<Event>, err: Option<CommitError>, removed: bool, leaked: set<Name>)
    requires log == before + BarrierCalls(err, removed)
    requires leaked == {} <==> !BeforeRename(err) || removed
    ensures log == before + BarrierCalls(err, leaked == {}) && LeakExplained(log, leaked)
  {
  }

  lemma CommitRejected(capacity: nat, broken: bool, before: seq<byte>, e: CommitError, after: seq<byte>)
    requires Answered(capacity, broken || e.AckFailed?, before, true, after)
    ensures forall expected :: Goodbye(capacity, broken, before, CommitFailed(e), expected, after)
  {
    hide Answered;
  }

  /** One turn of the connection loop. */
  method ServeOne(sha: Hash, maxSize: uint64, vol: Volume, world: World, src: Source, out: Sink)
    returns (req: Option<Request>, ghost ino: Inode, leaked: set<Name>, why: ExitReason, go: bool, ghost effect: Effect)
    requires vol.Valid() && world.Valid() && src.Valid() && out.Valid()
    modifies vol, world, src`pos, out
    ensures vol.Valid() && world.Valid() && src.Valid() && out.Valid() && src.pos >= old(src.pos)
    ensures FilesKept(old(vol.disk), vol.disk)
    ensures Possible(maxSize, old(vol.disk), effect) && vol.disk == AfterTurn(old(vol.disk), effect)
    ensures go <==> GoesOn(effect)
    ensures req.Some? <==> go || why == CommitFailed(AckFailed)
    ensures world.log == old(world.log) + TurnCalls(if go then None else Some(why), leaked == {})
    ensures LeakExplained(world.log, leaked)
    ensures req.Some? ==>
              && src.pos > old(src.pos)
              && Sendable(req.value, maxSize)
              && old(src.Rest()) == Frame(sha, req.value) + src.Rest()
              && InPlace(old(vol.disk), vol.disk, req.value, ino)
    ensures req.None? ==> vol.disk.durable == old(vol.disk).durable
    ensures !go ==>
              && (req.None? ==> InputExplains(sha, maxSize, old(src.Rest()), why))
              && WorldExplains(world, vol.disk, why) && !why.Stopped?
              && (why == CommitFailed(AckFailed) ==> !old(out.Takes(1)))
              && Goodbye(out.capacity, old(out.broken), old(out.written), why, src.expected, out.written)
    ensures go ==> out.written == old(out.written) + [0x00] && !out.broken && !old(out.broken) && leaked == {}
    ensures vol.disk.staging.Keys == old(vol.disk).staging.Keys + leaked
    ensures forall f :: f in leaked ==> IsTmp(f)
  {
    hide ValidateFilename, Source.Valid, Sink.Valid, TurnCalls, Frame, IsTmp, Sendable, ParseHeader, Verifies,
      FilesKept, InPlace, Goodbye, StagedSince, AfterTurn, NothingStaged, InputExplains, Volume.Valid,
      WorldExplains, StageCalls, BarrierCalls, World.Valid, LeakExplained, MustReject;
    req, ino, go, why, effect := None, 0, false, Stopped, Untouched;
    ghost var d, before := vol.disk, world.log;
    var failure, r, tmp, staged, lost;
    failure, r, tmp, staged, lost, effect := ReceiveRequest(sha, maxSize, vol, world, src, out);
    leaked := lost;
    if failure.Some? {
      why := failure.value;
      NothingStagedMeans(d, vol.disk, lost);
      return;
    }
    var err;
    ghost var removed;
    StagedIsNew(d, vol.disk, tmp, staged, r.payload);
    err, leaked, removed := CommitStaged(vol, world, out, d, tmp, staged, r);
    effect := Barred(r, tmp, staged, err, removed);
    CommitCalls(before, err, leaked == {});
    if Committed(err) {
      req, ino := Some(r), staged;
    }
    if err.Some? {
      why := CommitFailed(err.value);
      FrameWaits(sha, maxSize, old(src.Rest()), r, src.Rest(), err.value);
      NotBlamed(world, vol.disk, why);
      return;
    }
    go := true;
  }

  lemma CommitCalls(before: seq<Event>, err: Option<CommitError>, removed: bool)
    ensures (before + StageCalls(None)) + BarrierCalls(err, removed)
         == before + TurnCalls(if err.Some? then Some(CommitFailed(err.value)) else None, removed)
  {
    hide StageCalls, BarrierCalls;
  }

  lemma CallsJoin(a: seq<Event>, b: seq<Event>, c: seq<Event>)
    ensures (a + b) + c == a + (b + c)
  {
  }

  lemma FrameWaits(sha: Hash, maxSize: uint64, rest: seq<byte>, r: Request, after: seq<byte>, e: CommitError)
    requires Sendable(r, maxSize) && rest == Frame(sha, r) + after
    ensures InputExplains(sha, maxSize, rest, CommitFailed(e))
  {
    WholeFrameAccepted(sha, maxSize, r, after);
    hide ParseHeader, Verifies, Frame;
  }

  lemma NothingStagedMeans(d: Disk, e: Disk, leaked: set<Name>)
    requires NothingStaged(d, e, leaked)
    ensures FilesKept(d, e) && e.durable == d.durable && e.staging.Keys == d.staging.Keys + leaked
    ensures forall f :: f in leaked ==> IsTmp(f)
  {
    hide FilesKept, IsTmp;
  }

  lemma StagedIsNew(d: Disk, e: Disk, tmp: Name, ino: Inode, data: seq<byte>)
    requires StagedSince(d, e, tmp, ino, data)
    ensures IsTmp(tmp) && tmp !in d.staging && ino !in d.files
  {
    hide IsTmp;
  }

  /** The accumulated meaning of the turns taken so far. */
  ghost predicate Progress(sha: Hash, maxSize: uint64, rest0: seq<byte>, committed: seq<Request>, rest: seq<byte>) {
    AllSendable(committed, maxSize) && rest0 == Session(sha, committed) + rest
  }

  lemma {:induction false} ProgressMore(sha: Hash, maxSize: uint64, rest0: seq<byte>, committed: seq<Request>,
      r: Request, rest: seq<byte>)
    requires Progress(sha, maxSize, rest0, committed, Frame(sha, r) + rest) && Sendable(r, maxSize)
    ensures Progress(sha, maxSize, rest0, committed + [r], rest)
  {
    hide Frame, Sendable, Session;
    SessionAppend(sha, committed, r);
    Regroup(Session(sha, committed), Frame(sha, r), rest);
  }

  lemma ProgressMeans(sha: Hash, maxSize: uint64, rest0: seq<byte>, committed: seq<Request>, rest: seq<byte>)
    requires Progress(sha, maxSize, rest0, committed, rest)
    ensures AllSendable(committed, maxSize) && Session(sha, committed) <= rest0
        && rest0[|Session(sha, committed)|..] == rest
  {
    hide Session, Sendable;
  }

  lemma OneMoreAck(before: seq<byte>, n: nat)
    ensures (before + Acks(n)) + [0x00] == before + Acks(n + 1)
  {
    assert Acks(n) + [0x00] == Acks(n + 1);
  }

  /** From the from-th call to the to-th nothing fails, no name is drawn that is taken, and there is space. */
  ghost predicate Unhindered(world: World, from: nat, to: nat, taken: set<Name>, bytes: nat) {
    forall k :: from <= k < to ==>
      !world.fails(k) && Hex(world.random(k)) + [46, 116, 109, 112] !in taken && world.room(k) >= bytes
  }

  lemma SomeCallFailed(why: ExitReason, removed: bool) returns (i: nat)
    requires !EndedByInput(why) && !why.DiskFailed? && why != StageFailed(NameTaken) && why != CommitFailed(AckFailed)
    ensures i < |LastCalls(why, removed)| && !LastCalls(why, removed)[i].ok
  {
    if why.Stopped? {
      i := 0;
    } else if why.StageFailed? {
      i := if why.cause.DirFailed? then 1 else if why.cause.RandFailed? then 2 else 3;
    } else {
      var e := why.error;
      i := if e.SyncFailed? then 4 else if e.CloseFailed? then 5 else if e.RenameFailed? then 6
      else if e.DirOpenFailed? then 7 else 8;
    }
  }

  lemma CallsBefore(why: ExitReason, removed: bool)
    requires why.DiskFailed? || why == StageFailed(NameTaken)
    ensures |LastCalls(why, removed)| >= 2
  {
  }

  lemma PayloadWithin(sha: Hash, maxSize: uint64, rest: seq<byte>, why: ExitReason)
    requires why.DiskFailed? && InputExplains(sha, maxSize, rest, why)
    ensures why.room < |rest|
  {
    hide Verifies;
  }

  lemma CallSucceeded(world: World, before: seq<Event>, acks: seq<Event>, es: seq<Event>, i: nat, taken: set<Name>,
      bytes: nat)
    requires world.Valid() && world.log == before + acks + es && i < |es|
    requires Unhindered(world, |before|, |world.log|, taken, bytes)
    ensures es[i].ok
  {
    hide Hex;
    Outcome(world, before + acks, es, i);
    assert |before| <= |before + acks| + i < |world.log|;
  }

  lemma NamesAndSpace(world: World, from: nat, taken: set<Name>, d: Disk, leaked: set<Name>, bytes: nat,
      why: ExitReason)
    requires world.Valid() && Unhindered(world, from, |world.log|, taken, bytes) && |world.log| >= from + 2
    requires LeakExplained(world.log, leaked) && d.staging.Keys == taken + leaked && WorldExplains(world, d, why)
    ensures leaked == {} && why != StageFailed(NameTaken) && (why.DiskFailed? ==> why.room >= bytes)
  {
    hide Hex;
    var n := |world.log|;
    assert !world.fails(n - 1) && !world.fails(n - 2) && world.log[n - 1].ok == !world.fails(n - 1);
  }

  /** Apart from a full reply stream, only the input can end such a connection. */
  lemma OnlyInputEnds(sha: Hash, maxSize: uint64, world: World, before: seq<Event>, acked: nat, d: Disk,
      taken: set<Name>, leaked: set<Name>, rest: seq<byte>, why: ExitReason, bytes: nat)
    requires world.Valid() && world.log == before + AckedCalls(acked) + LastCalls(why, leaked == {})
    requires WorldExplains(world, d, why) && InputExplains(sha, maxSize, rest, why) && |rest| <= bytes
    requires LeakExplained(world.log, leaked) && d.staging.Keys == taken + leaked
    requires why != CommitFailed(AckFailed)
    requires Unhindered(world, |before|, |world.log|, taken, bytes)
    ensures EndedByInput(why)
  {
    hide AckedCalls, InputExplains, LastCalls, WorldExplains, Unhindered, LeakExplained, World.Valid;
    if why.DiskFailed? || why == StageFailed(NameTaken) {
      CallsBefore(why, leaked == {});
      NamesAndSpace(world, |before|, taken, d, leaked, bytes, why);
      if why.DiskFailed? { PayloadWithin(sha, maxSize, rest, why); }
    } else if !EndedByInput(why) {
      var i := SomeCallFailed(why, leaked == {});
      CallSucceeded(world, before, AckedCalls(acked), LastCalls(why, leaked == {}), i, taken, bytes);
    }
  }

  lemma TurnLogged(log: seq<Event>, acked: nat, end: Option<ExitReason>, removed: bool)
    requires end != Some(Stopped)
    ensures var after := log + AckedCalls(acked) + [Event(Look, true)] + TurnCalls(end, removed);
            after == if end.Some? then log + AckedCalls(acked) + LastCalls(end.value, removed)
            else log + AckedCalls(acked + 1)
  {
    var acks, look, calls := AckedCalls(acked), [Event(Look, true)], TurnCalls(end, removed);
    assert calls == TurnCalls(if end.None? then None else end, if end.None? then true else removed);
    hide TurnCalls;
    CallsJoin(log, acks, look + calls);
    CallsJoin(log + acks, look, calls);
    CallsJoin(acks, look, calls);
  }

  /** Directory, calls, input still to come, and reply stream at one moment. */
  datatype Scene = Scene(disk: Disk, log: seq<Event>, rest: seq<byte>, capacity: nat, broken: bool, written: seq<byte>)

  ghost function Now(vol: Volume, world: World, src: Source, out: Sink): (s: Scene)
    reads vol, world, src, out
    requires src.Valid()
  {
    Scene(vol.disk, world.log, src.Rest(), out.capacity, out.broken, out.written)
  }

  /** The connection after its first turns, all of which ended with an ACK. */
  ghost predicate Going(sha: Hash, maxSize: uint64, from: Scene, committed: seq<Request>, effects: seq<Effect>,
    s: Scene) {
    && Progress(sha, maxSize, from.rest, committed, s.rest)
    && Landed(s.disk, committed) && NothingNewer(s.disk, committed)
    && s.capacity == from.capacity && s.broken == from.broken && (committed != [] ==> !s.broken)
    && s.written == from.written + Acks(|committed|)
    && s.log == from.log + AckedCalls(|committed|)
    && s.disk.staging.Keys == from.disk.staging.Keys
    && Turns(maxSize, from.disk, effects, s.disk) && MayGoOn(effects)
  }

  /** The connection at its end. */
  ghost predicate Ended(sha: Hash, maxSize: uint64, from: Scene, committed: seq<Request>, acked: nat, leaked: set<Name>,
      why: ExitReason, effects: seq<Effect>, expected: bool, s: Scene) {
    && AllSendable(committed, maxSize) && Session(sha, committed) <= from.rest
    && InputExplains(sha, maxSize, from.rest[|Session(sha, committed)|..], why)
    && Landed(s.disk, committed)
    && |committed| == (if why == CommitFailed(AckFailed) then acked + 1 else acked)
    && (why == CommitFailed(AckFailed) ==> from.broken || |from.written| + acked + 1 > from.capacity)
    && Goodbye(from.capacity, from.broken, from.written + Acks(acked), why, expected, s.written)
    && s.log == from.log + AckedCalls(acked) + LastCalls(why, leaked == {})
    && s.disk.staging.Keys == from.disk.staging.Keys + leaked
    && Turns(maxSize, from.disk, effects, s.disk)
  }

  lemma NothingServed(sha: Hash, maxSize: uint64, from: Scene)
    ensures Going(sha, maxSize, from, [], [], from)
  {
    NoTurns(maxSize, from.disk);
    hide Turns;
    assert from.rest == Session(sha, []) + from.rest;
  }

  lemma GoOn(sha: Hash, maxSize: uint64, from: Scene, committed: seq<Request>, effects: seq<Effect>, now: Scene,
      r: Request, ino: Inode, e: Effect, next: Scene)
    requires Going(sha, maxSize, from, committed, effects, now)
    requires Sendable(r, maxSize) && now.rest == Frame(sha, r) + next.rest
    requires InPlace(now.disk, next.disk, r, ino) && FilesKept(now.disk, next.disk)
    requires Possible(maxSize, now.disk, e) && next.disk == AfterTurn(now.disk, e) && GoesOn(e)
    requires next.log == (now.log + [Event(Look, true)]) + TurnCalls(None, true)
    requires next.capacity == now.capacity && !now.broken && !next.broken && next.written == now.written + [0x00]
    requires next.disk.staging.Keys == now.disk.staging.Keys
    ensures Going(sha, maxSize, from, committed + [r], effects + [e], next)
  {
    hide Sendable, Frame, InPlace, FilesKept, Possible, AfterTurn, GoesOn, TurnCalls, Progress, Landed,
      NothingNewer, Turns, MayGoOn, Acks, AckedCalls;
    ProgressMore(sha, maxSize, from.rest, committed, r, next.rest);
    LandedMore(now.disk, next.disk, committed, r, ino);
    OneMoreTurn(maxSize, from.disk, effects, now.disk, e, next.disk);
    OneMoreAck(from.written, |committed|);
    TurnLogged(from.log, |committed|, None, true);
  }

  lemma StopEnds(sha: Hash, maxSize: uint64, from: Scene, committed: seq<Request>, effects: seq<Effect>, now: Scene,
      expected: bool, next: Scene)
    requires Going(sha, maxSize, from, committed, effects, now)
    requires next.disk == now.disk && next.written == now.written && next.log == now.log + [Event(Look, false)]
    ensures Ended(sha, maxSize, from, committed, |committed|, {}, Stopped, effects, expected, next)
  {
    hide Landed, NothingNewer, Turns, MayGoOn, Acks, AckedCalls, ParseHeader, Progress, AllSendable, Session;
    ProgressMeans(sha, maxSize, from.rest, committed, now.rest);
  }

  lemma NotToBlame(world: World, d: Disk)
    ensures WorldExplains(world, d, Stopped) && LeakExplained(world.log, {})
  {
  }

  lemma TurnEnds(sha: Hash, maxSize: uint64, from: Scene, committed: seq<Request>, effects: seq<Effect>, now: Scene,
      req: Option<Request>, ino: Inode, leaked: set<Name>, why: ExitReason, e: Effect, expected: bool, next: Scene)
    requires Going(sha, maxSize, from, committed, effects, now)
    requires req.Some? <==> why == CommitFailed(AckFailed)
    requires req.Some? ==>
               && Sendable(req.value, maxSize) && now.rest == Frame(sha, req.value) + next.rest
               && InPlace(now.disk, next.disk, req.value, ino) && (now.broken || |now.written| + 1 > now.capacity)
    requires req.None? ==> next.disk.durable == now.disk.durable && InputExplains(sha, maxSize, now.rest, why)
    requires FilesKept(now.disk, next.disk)
    requires Possible(maxSize, now.disk, e) && next.disk == AfterTurn(now.disk, e)
    requires next.log == (now.log + [Event(Look, true)]) + TurnCalls(Some(why), leaked == {}) && !why.Stopped?
    requires Goodbye(now.capacity, now.broken, now.written, why, expected, next.written)
    requires next.disk.staging.Keys == now.disk.staging.Keys + leaked
    ensures Ended(sha, maxSize, from, committed + (if req.Some? then [req.value] else []), |committed|, leaked, why,
              effects + [e], expected, next)
  {
    hide Sendable, Frame, InPlace, FilesKept, Possible, AfterTurn, GoesOn, TurnCalls, LastCalls, Progress, Landed,
      NothingNewer, Turns, MayGoOn, Acks, AckedCalls, InputExplains, Goodbye, AllSendable, Session;
    OneMoreTurn(maxSize, from.disk, effects, now.disk, e, next.disk);
    TurnLogged(from.log, |committed|, Some(why), leaked == {});
    ProgressMeans(sha, maxSize, from.rest, committed, now.rest);
    if req.Some? {
      ProgressMore(sha, maxSize, from.rest, committed, req.value, next.rest);
      LandedMore(now.disk, next.disk, committed, req.value, ino);
      ProgressMeans(sha, maxSize, from.rest, committed + [req.value], next.rest);
      AckedNothing(sha, maxSize, next.rest);
    } else {
      LandedKept(now.disk, next.disk, committed);
      assert committed + [] == committed;
    }
  }

  lemma AckedNothing(sha: Hash, maxSize: uint64, rest: seq<byte>)
    ensures InputExplains(sha, maxSize, rest, CommitFailed(AckFailed))
  {
    hide ParseHeader;
  }

  lemma EndedMeans(sha: Hash, maxSize: uint64, from: Scene, committed: seq<Request>, acked: nat, leaked: set<Name>,
      why: ExitReason, effects: seq<Effect>, expected: bool, s: Scene)
    requires Ended(sha, maxSize, from, committed, acked, leaked, why, effects, expected, s)
    ensures AllSendable(committed, maxSize) && Session(sha, committed) <= from.rest
    ensures InputExplains(sha, maxSize, from.rest[|Session(sha, committed)|..], why)
    ensures Landed(s.disk, committed)
    ensures |committed| == if why == CommitFailed(AckFailed) then acked + 1 else acked
    ensures why == CommitFailed(AckFailed) ==> from.broken || |from.written| + acked + 1 > from.capacity
    ensures Goodbye(from.capacity, from.broken, from.written + Acks(acked), why, expected, s.written)
    ensures s.log == from.log + AckedCalls(acked) + LastCalls(why, leaked == {})
    ensures s.disk.staging.Keys == from.disk.staging.Keys + leaked
    ensures Turns(maxSize, from.disk, effects, s.disk)
    ensures forall r :: r in committed ==>
              ValidName(r.name) && |r.payload| < 0x8000_0000_0000_0000 && (maxSize == 0 || |r.payload| <= maxSize)
  {
    hide ValidName, Session, InputExplains, Landed, Goodbye, Acks, AckedCalls, LastCalls, Turns;
  }

  lemma ConnectionEnds(sha: Hash, maxSize: uint64, world: World, from: Scene, committed: seq<Request>, acked: nat,
      leaked: set<Name>, why: ExitReason, effects: seq<Effect>, expected: bool, s: Scene)
    requires Ended(sha, maxSize, from, committed, acked, leaked, why, effects, expected, s)
    requires world.Valid() && world.log == s.log
    requires WorldExplains(world, s.disk, why) && LeakExplained(s.log, leaked)
    ensures AllSendable(committed, maxSize) && Session(sha, committed) <= from.rest
    ensures InputExplains(sha, maxSize, from.rest[|Session(sha, committed)|..], why)
    ensures Landed(s.disk, committed)
    ensures |committed| == if why == CommitFailed(AckFailed) then acked + 1 else acked
    ensures why == CommitFailed(AckFailed) ==> from.broken || |from.written| + acked + 1 > from.capacity
    ensures Goodbye(from.capacity, from.broken, from.written + Acks(acked), why, expected, s.written)
    ensures s.log == from.log + AckedCalls(acked) + LastCalls(why, leaked == {})
    ensures s.disk.staging.Keys == from.disk.staging.Keys + leaked
    ensures Turns(maxSize, from.disk, effects, s.disk)
    ensures forall r :: r in committed ==>
              ValidName(r.name) && |r.payload| < 0x8000_0000_0000_0000 && (maxSize == 0 || |r.payload| <= maxSize)
    ensures !from.broken && |from.written| + acked + 1 <= from.capacity
            && Unhindered(world, |from.log|, |world.log|, from.disk.staging.Keys, |from.rest|)
            ==> EndedByInput(why)
  {
    EndedMeans(sha, maxSize, from, committed, acked, leaked, why, effects, expected, s);
    hide ValidName, Session, InputExplains, Landed, Goodbye, Acks, AckedCalls, LastCalls, Turns, Ended, World.Valid,
      WorldExplains, LeakExplained, Unhindered, EndedByInput, AllSendable;
    if !from.broken && |from.written| + acked + 1 <= from.capacity
      && Unhindered(world, |from.log|, |world.log|, from.disk.staging.Keys, |from.rest|) {
      OnlyInputEnds(sha, maxSize, world, from.log, acked, s.disk, from.disk.staging.Keys, leaked,
        from.rest[|Session(sha, committed)|..], why, |from.rest|);
    }
  }

  /** The body of the loop: a look at the stop channel, and one turn. */
  method NextTurn(sha: Hash, maxSize: uint64, vol: Volume, world: World, src: Source, out: Sink, ghost from: Scene,
      committed: seq<Request>, ghost effects: seq<Effect>)
    returns (more: seq<Request>, leaked: set<Name>, why: ExitReason, go: bool, ghost done: seq<Effect>)
    requires vol.Valid() && world.Valid() && src.Valid() && out.Valid()
    requires Going(sha, maxSize, from, committed, effects, Now(vol, world, src, out))
    modifies vol, world, src`pos, out
    ensures vol.Valid() && world.Valid() && src.Valid() && out.Valid() && src.pos >= old(src.pos)
    ensures go ==>
              && Going(sha, maxSize, from, more, done, Now(vol, world, src, out))
              && |more| == |committed| + 1 && leaked == {} && src.pos > old(src.pos)
    ensures !go ==>
              && Ended(sha, maxSize, from, more, |committed|, leaked, why, done, src.expected,
                   Now(vol, world, src, out))
              && WorldExplains(world, vol.disk, why) && LeakExplained(world.log, leaked)
              && forall f :: f in leaked ==> IsTmp(f)
  {
    hide ValidateFilename, Source.Rest, Session, Frame, Sendable, InPlace, FilesKept, Acks, IsTmp, Goodbye,
      Volume.Valid, InputExplains, Landed, AfterTurn, Possible, Turns, GoesOn, AllSendable, WorldExplains,
      AckedCalls, TurnCalls, LastCalls, World.Valid, LeakExplained, Going, Ended;
    more, leaked, done := committed, {}, effects;
    ghost var now := Now(vol, world, src, out);
    var run := world.Try(Look);
    if !run {
      why, go := Stopped, false;
      StopEnds(sha, maxSize, from, committed, effects, now, src.expected, Now(vol, world, src, out));
      NotToBlame(world, vol.disk);
      return;
    }
    var req;
    ghost var ino, effect;
    req, ino, leaked, why, go, effect := ServeOne(sha, maxSize, vol, world, src, out);
    more, done := committed + (if req.Some? then [req.value] else []), effects + [effect];
    ghost var next := Now(vol, world, src, out);
    if go {
      GoOn(sha, maxSize, from, committed, effects, now, req.value, ino, effect, next);
    } else {
      TurnEnds(sha, maxSize, from, committed, effects, now, req, ino, leaked, why, effect, src.expected, next);
    }
  }

  /** handleConnection, for any peer and any failures: it commits exactly the requests whose frames
      arrived whole and verified, in order, each answered by one ACK before anything else is read;
      after that it writes one rejection, or nothing where none is due. It makes exactly the calls of
      these turns, all successful but in the last turn, whose end has its cause in the input, in the call
      that failed, or in the space and the name it was given. No staging file stays behind, except one whose
      removal failed. */
  method HandleConnection(sha: Hash, maxSize: uint64, vol: Volume, world: World, src: Source, out: Sink)
    returns (committed: seq<Request>, acked: nat, leaked: set<Name>, why: ExitReason, ghost effects: seq<Effect>)
    requires vol.Valid() && world.Valid() && src.Valid() && out.Valid()
    modifies vol, world, src`pos, out
    ensures vol.Valid() && world.Valid() && src.Valid() && out.Valid()
    ensures AllSendable(committed, maxSize)
    ensures forall r :: r in committed ==>
              ValidName(r.name) && |r.payload| < 0x8000_0000_0000_0000 && (maxSize == 0 || |r.payload| <= maxSize)
    ensures Session(sha, committed) <= old(src.Rest())
    ensures InputExplains(sha, maxSize, old(src.Rest())[|Session(sha, committed)|..], why)
    ensures WorldExplains(world, vol.disk, why)
    ensures world.log == old(world.log) + AckedCalls(acked) + LastCalls(why, leaked == {})
    ensures LeakExplained(world.log, leaked)
    ensures old(out.Takes(acked + 1))
            && Unhindered(world, |old(world.log)|, |world.log|, old(vol.disk).staging.Keys, |old(src.Rest())|)
            ==> EndedByInput(why)
    ensures why == CommitFailed(AckFailed) ==> !old(out.Takes(acked + 1))
    ensures Landed(vol.disk, committed)
    ensures Turns(maxSize, old(vol.disk), effects, vol.disk)
    ensures |committed| == if why == CommitFailed(AckFailed) then acked + 1 else acked
    ensures Goodbye(out.capacity, old(out.broken), old(out.written) + Acks(acked), why, src.expected, out.written)
    ensures vol.disk.staging.Keys == old(vol.disk).staging.Keys + leaked
    ensures forall f :: f in leaked ==> IsTmp(f)
  {
    hide ValidateFilename, Source.Rest, Session, IsTmp, Goodbye, Volume.Valid, InputExplains, Landed, Turns, Acks,
      AllSendable, WorldExplains, AckedCalls, LastCalls, Unhindered, World.Valid, LeakExplained, EndedByInput,
      Going, Ended;
    committed, leaked, acked, effects, why := [], {}, 0, [], Stopped;
    ghost var from := Now(vol, world, src, out);
    NothingServed(sha, maxSize, from);
    var go := true;
    while go
      invariant vol.Valid() && world.Valid() && src.Valid() && out.Valid()
      invariant go ==>
                  && Going(sha, maxSize, from, committed, effects, Now(vol, world, src, out))
                  && acked == |committed| && leaked == {}
      invariant !go ==>
                  && Ended(sha, maxSize, from, committed, acked, leaked, why, effects, src.expected,
                       Now(vol, world, src, out))
                  && WorldExplains(world, vol.disk, why) && LeakExplained(world.log, leaked)
                  && forall f :: f in leaked ==> IsTmp(f)
      decreases go, |src.data| - src.pos
    {
      committed, leaked, why, go, effects := NextTurn(sha, maxSize, vol, world, src, out, from, committed, effects);
      if go { acked := acked + 1; }
    }
    ConnectionEnds(sha, maxSize, world, from, committed, acked, leaked, why, effects, src.expected,
      Now(vol, world, src, out));
  }

  // ---------- the two ends together ----------

  lemma WholeFrameAccepted(sha: Hash, maxSize: uint64, r: Request, rest: seq<byte>)
    requires Sendable(r, maxSize)
    ensures var h := ParseHeader(Frame(sha, r) + rest, maxSize);
            && h == Header(r.name, |r.payload|)
            && Verifies(sha, (Frame(sha, r) + rest)[14 + |r.name|..], |r.payload|)
  {
    FrameSplit(sha, r);
    hide ParseHeader, ValidName, Digest, EncodeHeader, Verifies, Frame;
    var head, body := EncodeHeader(r.name, |r.payload|), r.payload + Digest(sha, r.payload);
    Regroup(head, body, rest);
    HeaderRoundTrip(r.name, |r.payload|, maxSize, body + rest);
    assert (head + (body + rest))[14 + |r.name|..] == body + rest;
    VerifiesFacts(sha, body + rest, |r.payload|);
    assert (body + rest)[..|r.payload|] == r.payload;
    assert (body + rest)[|r.payload|..|r.payload| + HASH_SIZE] == Digest(sha, r.payload);
  }

  /** Session round trip: what a sender put on the connection for any list of requests within the
      limits is what HandleConnection commits. If the loop ends because of its input, and not
      because a system call failed or the server stopped, then it committed exactly that list. */
  lemma {:induction false} SessionReceived(sha: Hash, maxSize: uint64, sent: seq<Request>, committed: seq<Request>,
      why: ExitReason)
    requires AllSendable(sent, maxSize) && AllSendable(committed, maxSize)
    requires Session(sha, committed) <= Session(sha, sent)
    requires InputExplains(sha, maxSize, Session(sha, sent)[|Session(sha, committed)|..], why)
    ensures committed <= sent
    ensures EndedByInput(why) ==> committed == sent && why.InputEnded?
  {
    hide Session, InputExplains, Sendable;
    var tail := Session(sha, sent)[|Session(sha, committed)|..];
    assert Session(sha, committed) + tail == Session(sha, sent);
    AnyLimit(sent, maxSize);
    AnyLimit(committed, maxSize);
    SessionUnique(sha, committed, sent, tail);
    if EndedByInput(why) { OnlyEmptyEnds(sha, maxSize, sent[|committed|..], why); }
  }

  /** The requests in extra, taken from a header for n bytes and the start of a file: the file goes on
      after its first n bytes with their hash, by accident, and then with the frames of the others. */
  ghost predicate Accident(sha: Hash, name: Name, n: nat, file: seq<byte>, extra: seq<Request>) {
    && extra != [] && |file| >= n + HASH_SIZE
    && extra[0] == Request(name, file[..n])
    && file[n..n + HASH_SIZE] == Digest(sha, file[..n])
    && Session(sha, extra[1..]) <= file[n + HASH_SIZE..]
  }

  /** A source that changed between Stat and copy, on its connection: after the requests in sent, the
      wire carries a header that announces n bytes and then part of a file, without trailer. What
      HandleConnection commits is a prefix of sent, or the accident has happened; then it commits the
      announced part of the file too, and whatever further frames the rest of the file may hold. */
  lemma ChangedSourceReceived(
    sha: Hash, maxSize: uint64, sent: seq<Request>, committed: seq<Request>, name: Name, n: uint64, file: seq<byte>,
    p: seq<byte>)
    requires AllSendable(sent, maxSize) && AllSendable(committed, maxSize)
    requires p <= EncodeHeader(name, n) + file && (ValidName(name) || p == [])
    requires Session(sha, committed) <= Session(sha, sent) + p
    ensures committed <= sent || (sent <= committed && Accident(sha, name, n, file, committed[|sent|..]))
  {
    hide Session, Sendable, AllSendable, EncodeHeader, ValidName, Frame, Digest, Accident;
    var t := AfterPrefix(Session(sha, committed), Session(sha, sent) + p);
    AnyLimit(sent, maxSize);
    AnyLimit(committed, maxSize);
    SessionsMeet(sha, committed, sent, t, p);
    if !(committed <= sent) {
      FirstSendable(committed, |sent|);
      ExtraFrames(sha, committed[|sent|..], t, p, name, n, file);
    }
  }

  lemma AfterPrefix(a: seq<byte>, b: seq<byte>) returns (t: seq<byte>)
    requires a <= b
    ensures a + t == b
  {
    t := b[|a|..];
  }

  lemma FirstSendable(rs: seq<Request>, k: nat)
    requires AllSendable(rs, 0) && k < |rs|
    ensures rs[k..] != [] && Sendable(rs[k..][0], 0)
  {
    hide Sendable;
    assert rs[k..][0] == rs[k];
  }

  lemma ExtraFrames(
    sha: Hash, extra: seq<Request>, t: seq<byte>, p: seq<byte>, name: Name, n: uint64, file: seq<byte>)
    requires extra != [] && Sendable(extra[0], 0) && Session(sha, extra) + t == p
    requires p <= EncodeHeader(name, n) + file && (ValidName(name) || p == [])
    ensures Accident(sha, name, n, file, extra)
  {
    SessionCons(sha, extra);
    hide Session, Sendable, EncodeHeader, ValidName, Frame, Digest;
    var rest := Session(sha, extra[1..]);
    Regroup(Frame(sha, extra[0]), rest, t);
    assert p != [];
    FrameInFile(sha, name, n, file, extra[0], rest + t);
    assert rest <= rest + t;
  }

  lemma SessionCons(sha: Hash, rs: seq<Request>)
    requires rs != []
    ensures Session(sha, rs) == Frame(sha, rs[0]) + Session(sha, rs[1..])
  {
  }

  lemma AnyLimit(rs: seq<Request>, maxSize: uint64)
    requires AllSendable(rs, maxSize)
    ensures AllSendable(rs, 0)
  {
    hide ValidName;
  }

  lemma OnlyEmptyEnds(sha: Hash, maxSize: uint64, left: seq<Request>, why: ExitReason)
    requires AllSendable(left, maxSize) && EndedByInput(why)
    requires InputExplains(sha, maxSize, Session(sha, left), why)
    ensures left == [] && why.InputEnded?
  {
    hide Verifies, Sendable, Frame;
    if left != [] {
      assert Sendable(left[0], maxSize);
      hide ParseHeader;
      WholeFrameAccepted(sha, maxSize, left[0], Session(sha, left[1..]));
    }
  }
}
