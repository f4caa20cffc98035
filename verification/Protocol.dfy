/** The whole transfer protocol: a producer, any number of sender connections, and the receiver
    machine, joined by pairs of byte streams that can be cut at any byte, with crashes and
    restarts on both sides. Actions are single reads, writes and system calls. */
module Protocol {
  import opened Bytes
  import opened Wire
  import opened Disks
  import opened Reception
  import R = ReceiverMachine

  type ConnId = R.ConnId

  /** The sending worker's place on one connection. Its current request is the last one begun. */
  datatype SenderPhase =
    | Between                       // conn is kept for the next file
    | Writing(rest: seq<byte>)      // bytes of the current frame not yet written
    | Waiting                       // in ReadResponse
    | Acked                         // ReadResponse returned nil, postCommit not yet done
    | Retired                       // closed: any error ends here

  /** One connection. up and down are the bytes in flight towards receiver and sender; a cut
      direction carries nothing more. reqs, commits and acksRead record what happened on it. */
  datatype Link = Link(
    reqs: seq<Request>,
    commits: nat,
    acksRead: nat,
    up: seq<byte>,
    upCut: bool,
    down: seq<byte>,
    downCut: bool,
    sender: SenderPhase)
  {
    function Last(): (r: Request)
      requires reqs != []
    {
      reqs[|reqs| - 1]
    }

    function Reply(bytes: seq<byte>): (l: Link)
      ensures l.sender == sender && l.reqs == reqs && l.commits == commits && l.acksRead == acksRead
    {
      if downCut then this else this.(down := down + bytes)
    }
  }

  /** produced is fixed content per name (the producer contract: a visible file does not change
      and its name is not used again). departed: names that postCommit has archived or deleted. */
  datatype State = State(
    recv: R.State,
    links: map<ConnId, Link>,
    produced: map<Name, seq<byte>>,
    outbox: set<Name>,
    quarantined: set<Name>,
    departed: set<Name>)

  datatype Action =
    | Produce(n: Name, payload: seq<byte>)
    | Dial(c: ConnId)
    | Begin(c: ConnId, n: Name)
    | Write(c: ConnId, k: nat)
    | ReadReply(c: ConnId)
    | PostCommit(c: ConnId, moved: bool)
    | SenderFails(c: ConnId)
    | Quarantine(n: Name)
    | SenderCrash(restored: set<Name>)
    | Receive(c: ConnId, k: nat)
    | Internal(a: R.Action)
    | SendAck(c: ConnId)
    | AckFails(c: ConnId, delivered: bool)
    | HandlerExits(c: ConnId, removed: bool, msg: seq<byte>, sent: nat)
    | Cut(c: ConnId, keepUp: nat, keepDown: nat)

  /** No connection yet. The two disks are as earlier lives of the programs left them: possibly empty,
      possibly after any number of transfers. */
  ghost predicate Initial(s: State) {
    R.Initial(s.recv) && s.links == map[] && ContentOk(s) && SenderDiskOk(s)
  }

  ghost predicate Enabled(cfg: R.Config, s: State, act: Action) {
    match act
    case Produce(n, _) => n !in s.produced
    case Dial(c) => c !in s.links && R.Enabled(cfg, s.recv, R.Accept(c))
    case Begin(c, n) =>
      && c in s.links && s.links[c].sender.Between?
      && n in s.outbox && n in s.produced && ValidName(n) && |s.produced[n]| < INT64_LIMIT
    case Write(c, k) => c in s.links && s.links[c].sender.Writing? && 0 < k <= |s.links[c].sender.rest|
    case ReadReply(c) => c in s.links && s.links[c].sender.Waiting? && s.links[c].down != []
    case PostCommit(c, moved) =>
      && c in s.links && s.links[c].sender.Acked? && s.links[c].reqs != []
      && (moved ==> s.links[c].Last().name in s.outbox)
    case SenderFails(c) => c in s.links
    case Quarantine(n) => n in s.outbox
    case SenderCrash(restored) => restored <= s.quarantined + s.departed
    case Receive(c, k) => c in s.links && 0 < k <= |s.links[c].up|
        && R.Enabled(cfg, s.recv, R.Feed(c, s.links[c].up[..k]))
    case Internal(a) =>
      && (a.Stage? || a.Verify? || a.FileSync? || a.Close? || a.Rename? || a.DirSync? || a.Kill? || a.Crash? || a.Boot?)
      && R.Enabled(cfg, s.recv, a)
    case SendAck(c) => c in s.links && R.Enabled(cfg, s.recv, R.Ack(c))
    case AckFails(c, _) => c in s.links && R.Enabled(cfg, s.recv, R.Ack(c))
    case HandlerExits(c, _, msg, sent) =>
      && c in s.links && c in s.recv.handlers && !s.recv.handlers[c].Committed?
      && sent <= |EncodeNack(msg)|
    case Cut(c, keepUp, keepDown) =>
      c in s.links && keepUp <= |s.links[c].up| && keepDown <= |s.links[c].down|
  }

  function Put(s: State, c: ConnId, l: Link): (t: State)
    ensures t.outbox == s.outbox && t.produced == s.produced && t.departed == s.departed
  {
    s.(links := s.links[c := l])
  }

  function Wrote(l: Link, k: nat): (m: Link)
    requires l.sender.Writing? && k <= |l.sender.rest|
    ensures m.reqs == l.reqs
  {
    var chunk, rest := l.sender.rest[..k], l.sender.rest[k..];
    l.(up := if l.upCut then l.up else l.up + chunk, sender := if rest == [] then Waiting else Writing(rest))
  }

  /** The sender judges a reply as ReadResponse does. */
  function GotReply(l: Link): (m: Link)
    requires l.down != []
    ensures m.reqs == l.reqs
    ensures ParseResponse(l.down).Some? ==> (ParseResponse(l.down).value.0.None? <==> m.sender == Acked)
  {
    if l.down[0] == ACK_BYTE then l.(down := l.down[1..], acksRead := l.acksRead + 1, sender := Acked)
    else l.(sender := Retired)
  }

  /** Steps that change the sender's disk. */
  predicate MovesFiles(act: Action) {
    act.Produce? || act.PostCommit? || act.Quarantine? || act.SenderCrash?
  }

  function Apply(cfg: R.Config, s: State, act: Action): (t: State)
    requires Enabled(cfg, s, act)
    ensures !MovesFiles(act) ==> t.outbox == s.outbox && t.produced == s.produced && t.departed == s.departed
  {
    match act
    case Produce(n, payload) => s.(produced := s.produced[n := payload], outbox := s.outbox + {n})
    case Dial(c) =>
      Put(s, c, Link([], 0, 0, [], false, [], false, Between)).(recv := R.Apply(cfg, s.recv, R.Accept(c)))
    case Begin(c, n) =>
      var l, r := s.links[c], Request(n, s.produced[n]);
      Put(s, c, l.(reqs := l.reqs + [r], sender := Writing(Frame(cfg.sha, r))))
    case Write(c, k) => Put(s, c, Wrote(s.links[c], k))
    case ReadReply(c) => Put(s, c, GotReply(s.links[c]))
    case PostCommit(c, moved) =>
      var l := s.links[c];
      var t := Put(s, c, l.(sender := Between));
      if moved then t.(outbox := s.outbox - {l.Last().name}, departed := s.departed + {l.Last().name}) else t
    case SenderFails(c) => Put(s, c, s.links[c].(sender := Retired))
    case Quarantine(n) => s.(outbox := s.outbox - {n}, quarantined := s.quarantined + {n})
    case SenderCrash(restored) =>
      s.(links := map c | c in s.links :: s.links[c].(sender := Retired),
         outbox := s.outbox + restored, quarantined := s.quarantined - restored)
    case Receive(c, k) =>
      var l := s.links[c];
      Put(s, c, l.(up := l.up[k..])).(recv := R.Apply(cfg, s.recv, R.Feed(c, l.up[..k])))
    case Internal(a) => s.(recv := R.Apply(cfg, s.recv, a))
    case SendAck(c) =>
      var l := s.links[c];
      Put(s, c, l.Reply([ACK_BYTE]).(commits := l.commits + 1)).(recv := R.Apply(cfg, s.recv, R.Ack(c)))
    case AckFails(c, delivered) =>
      var l := s.links[c];
      Put(s, c, l.Reply(if delivered then [ACK_BYTE] else []).(commits := l.commits + 1, downCut := true))
        .(recv := R.Apply(cfg, s.recv, R.Exit(c, true)))
    case HandlerExits(c, removed, msg, sent) =>
      Put(s, c, s.links[c].Reply(EncodeNack(msg)[..sent])).(recv := R.Apply(cfg, s.recv, R.Exit(c, removed)))
    case Cut(c, keepUp, keepDown) =>
      var l := s.links[c];
      Put(s, c, l.(up := l.up[..keepUp], upCut := true, down := l.down[..keepDown], downCut := true))
  }

  // ---------- one connection: the handler's progress against the request being sent ----------

  /** Bytes that can only be read as a rejection. */
  ghost predicate Quiet(s: seq<byte>) {
    s == [] || s[0] == NACK_BYTE
  }

  /** The stream towards a live handler, at phase p. */
  ghost predicate UpOk(cfg: R.Config, d: Disk, p: R.Phase, l: Link)
    requires l.commits <= |l.reqs|
  {
    if l.commits == |l.reqs| then p == R.Reading([]) && l.up == []
    else
      && Matches(cfg, d, p, l.Last())
      && var left := Left(cfg, d, p, l.Last());
         && l.up <= left
         && (l.sender.Writing? ==>
               && |l.up| + |l.sender.rest| <= |left|
               && (!l.upCut ==> l.up + l.sender.rest == left))
  }

  /** The counters and the reply stream, as the sender will read it. */
  ghost predicate DownOk(l: Link, alive: bool) {
    && l.commits <= |l.reqs| <= l.commits + 1
    && match l.sender
       case Between => l.commits == |l.reqs| == l.acksRead && Quiet(l.down) && (alive ==> l.down == [])
       case Acked => l.reqs != [] && l.commits == |l.reqs| == l.acksRead && Quiet(l.down) && (alive ==> l.down == [])
       case Writing(rest) =>
         rest != [] && l.commits + 1 == |l.reqs| == l.acksRead + 1 && Quiet(l.down) && (alive ==> l.down == [])
       case Waiting =>
         && |l.reqs| == l.acksRead + 1
         && if l.commits < |l.reqs| then Quiet(l.down) && (alive ==> l.down == [])
            else (Quiet(l.down) || (l.down[0] == ACK_BYTE && Quiet(l.down[1..])))
                 && (alive ==> l.down == [] || l.down == [ACK_BYTE])
       case Retired => true
  }

  ghost predicate ReqsOk(l: Link, produced: map<Name, seq<byte>>) {
    forall i :: 0 <= i < |l.reqs| ==>
      && Sendable(l.reqs[i], 0)
      && l.reqs[i].name in produced && produced[l.reqs[i].name] == l.reqs[i].payload
  }

  ghost predicate CommitsDurable(l: Link, d: Disk) {
    forall i :: 0 <= i < |l.reqs| && i < l.commits ==> l.reqs[i].name in d.durable
  }

  ghost predicate LinkOk(cfg: R.Config, s: State, c: ConnId)
    requires c in s.links
  {
    var l, alive := s.links[c], c in s.recv.handlers;
    && DownOk(l, alive)
    && ReqsOk(l, s.produced)
    && CommitsDurable(l, s.recv.disk)
    && (alive ==> UpOk(cfg, s.recv.disk, s.recv.handlers[c], l))
  }

  ghost predicate LinksOk(cfg: R.Config, s: State) {
    forall c :: c in s.links ==> LinkOk(cfg, s, c)
  }

  /** Everything the receiver ever verified is what was produced under that name. */
  ghost predicate ContentOk(s: State) {
    forall r :: r in s.recv.verified ==> r.name in s.produced && s.produced[r.name] == r.payload
  }

  ghost predicate SenderDiskOk(s: State) {
    && s.produced.Keys == s.outbox + s.quarantined + s.departed
    && s.departed <= s.recv.disk.durable.Keys
  }

  ghost predicate Inv(cfg: R.Config, s: State) {
    && R.Inv(s.recv)
    && s.recv.handlers.Keys <= s.links.Keys
    && LinksOk(cfg, s)
    && ContentOk(s)
    && SenderDiskOk(s)
  }

  // ---------- what a step on one connection leaves alone ----------

  ghost predicate Grows(s: State, t: State) {
    && (forall n :: n in s.produced ==> n in t.produced && t.produced[n] == s.produced[n])
    && s.recv.disk.durable.Keys <= t.recv.disk.durable.Keys
  }

  lemma MatchesKept(cfg: R.Config, d: Disk, e: Disk, p: R.Phase, l: Link)
    requires l.commits <= |l.reqs| && UpOk(cfg, d, p, l)
    requires p.Owns() ==> d.Data(p.ino) == e.Data(p.ino)
    ensures UpOk(cfg, e, p, l)
  {
    hide Frame, Digest;
  }

  lemma LinkFrame(cfg: R.Config, s: State, t: State, x: ConnId)
    requires x in s.links && x in t.links && s.links[x] == t.links[x] && LinkOk(cfg, s, x)
    requires Grows(s, t) && PhaseKept(s.recv, t.recv, x)
    ensures LinkOk(cfg, t, x)
  {
    hide UpOk, Sendable;
    var l := s.links[x];
    if x in t.recv.handlers {
      MatchesKept(cfg, s.recv.disk, t.recv.disk, s.recv.handlers[x], l);
    }
  }

  /** A step that concerns connection c only. */
  ghost predicate Elsewhere(s: State, t: State, c: ConnId) {
    && Grows(s, t)
    && t.links.Keys == s.links.Keys + {c}
    && (forall x :: x in s.links && x != c ==> t.links[x] == s.links[x] && PhaseKept(s.recv, t.recv, x))
  }

  lemma LinksFrame(cfg: R.Config, s: State, t: State, c: ConnId)
    requires LinksOk(cfg, s) && Elsewhere(s, t, c)
    requires c in t.links && LinkOk(cfg, t, c)
    ensures LinksOk(cfg, t)
  {
    hide LinkOk, Grows, PhaseKept;
    forall x | x in t.links && x != c
      ensures LinkOk(cfg, t, x)
    {
      LinkFrame(cfg, s, t, x);
    }
  }

  lemma HandlerStep(cfg: R.Config, s: State, t: State, a: R.Action)
    requires Inv(cfg, s) && R.Enabled(cfg, s.recv, a) && a.OfHandler() && t.recv == R.Apply(cfg, s.recv, a)
    requires t.produced == s.produced && t.links.Keys == s.links.Keys + {a.c}
    requires forall x :: x in s.links && x != a.c ==> t.links[x] == s.links[x]
    requires a.c in t.links && LinkOk(cfg, t, a.c)
    ensures R.Inv(t.recv) && LinksOk(cfg, t) && s.recv.disk.durable.Keys <= t.recv.disk.durable.Keys
  {
    hide LinkOk, R.Inv, R.Enabled, R.Apply, LinksOk, PhaseKept, ContentOk, SenderDiskOk;
    R.StepKeepsInv(cfg, s.recv, a);
    R.DurableInNames(s.recv);
    R.DurableGrows(cfg, s.recv, a);
    forall x | x in s.links && x != a.c
      ensures PhaseKept(s.recv, t.recv, x)
    {
      OthersUntouched(cfg, s.recv, a, x);
    }
    LinksFrame(cfg, s, t, a.c);
  }

  // ---------- the sender's steps ----------

  lemma SenderStep(cfg: R.Config, s: State, c: ConnId, l: Link)
    requires Inv(cfg, s) && c in s.links && LinkOk(cfg, Put(s, c, l), c)
    ensures Inv(cfg, Put(s, c, l))
  {
    hide LinkOk, R.Inv, LinksOk;
    LinksFrame(cfg, s, Put(s, c, l), c);
  }

  /** The facts about connection c that its own steps need. */
  lemma LinkFacts(cfg: R.Config, s: State, c: ConnId)
    requires Inv(cfg, s) && c in s.links
    ensures LinkOk(cfg, s, c)
  {
  }

  lemma BeginOk(cfg: R.Config, d: Disk, p: R.Phase, l: Link, r: Request)
    requires l.sender.Between? && DownOk(l, true) && UpOk(cfg, d, p, l)
    ensures UpOk(cfg, d, p, l.(reqs := l.reqs + [r], sender := Writing(Frame(cfg.sha, r))))
  {
    hide Frame, Digest;
    assert Frame(cfg.sha, r)[0..] == Frame(cfg.sha, r);
  }

  lemma BeginKeepsInv(cfg: R.Config, s: State, c: ConnId, r: Request)
    requires Inv(cfg, s) && c in s.links && s.links[c].sender.Between?
    requires Sendable(r, 0) && r.name in s.produced && s.produced[r.name] == r.payload
    ensures Inv(cfg, Put(s, c, s.links[c].(reqs := s.links[c].reqs + [r], sender := Writing(Frame(cfg.sha, r)))))
  {
    hide UpOk, Sendable, Frame, Inv;
    var l := s.links[c];
    LinkFacts(cfg, s, c);
    if c in s.recv.handlers { BeginOk(cfg, s.recv.disk, s.recv.handlers[c], l, r); }
    SenderStep(cfg, s, c, l.(reqs := l.reqs + [r], sender := Writing(Frame(cfg.sha, r))));
  }

  lemma WriteOk(cfg: R.Config, d: Disk, p: R.Phase, l: Link, k: nat)
    requires l.sender.Writing? && 0 < k <= |l.sender.rest| && DownOk(l, true) && UpOk(cfg, d, p, l)
    ensures UpOk(cfg, d, p, Wrote(l, k))
  {
    hide Frame, Digest, Matches, Left;
    MoveChunk(l.up, l.sender.rest, k);
  }

  lemma MoveChunk(up: seq<byte>, rest: seq<byte>, k: nat)
    requires k <= |rest|
    ensures up + rest == (up + rest[..k]) + rest[k..] && up + rest[..k] <= up + rest
  {
    assert rest[..k] + rest[k..] == rest;
  }

  lemma WriteKeepsInv(cfg: R.Config, s: State, c: ConnId, k: nat)
    requires Inv(cfg, s) && c in s.links && s.links[c].sender.Writing? && 0 < k <= |s.links[c].sender.rest|
    ensures Inv(cfg, Put(s, c, Wrote(s.links[c], k)))
  {
    hide UpOk, Sendable, Inv;
    LinkFacts(cfg, s, c);
    if c in s.recv.handlers { WriteOk(cfg, s.recv.disk, s.recv.handlers[c], s.links[c], k); }
    SenderStep(cfg, s, c, Wrote(s.links[c], k));
  }

  /** UpOk depends on the sender's phase only while it writes. */
  lemma NotWriting(cfg: R.Config, d: Disk, p: R.Phase, l: Link, m: Link)
    requires l.commits <= |l.reqs| && UpOk(cfg, d, p, l)
    requires m.commits == l.commits && m.reqs == l.reqs && m.up == l.up && !m.sender.Writing?
    ensures UpOk(cfg, d, p, m)
  {
    hide Frame, Digest, Matches, Left;
  }

  /** ReadReply, PostCommit and SenderFails: the stream towards the receiver is not touched. */
  lemma QuietStepKeepsInv(cfg: R.Config, s: State, c: ConnId, m: Link)
    requires Inv(cfg, s) && c in s.links && !m.sender.Writing?
    requires var l := s.links[c]; m.commits == l.commits && m.reqs == l.reqs && m.up == l.up
    requires DownOk(m, c in s.recv.handlers)
    ensures Inv(cfg, Put(s, c, m))
  {
    hide UpOk, Sendable, Inv, DownOk;
    LinkFacts(cfg, s, c);
    if c in s.recv.handlers {
      assert s.links[c].commits <= |s.links[c].reqs| by { DownBounds(s.links[c], true); }
      NotWriting(cfg, s.recv.disk, s.recv.handlers[c], s.links[c], m);
    }
    SenderStep(cfg, s, c, m);
  }

  lemma DownBounds(l: Link, alive: bool)
    requires DownOk(l, alive)
    ensures l.commits <= |l.reqs| <= l.commits + 1
  {
  }

  lemma ReadReplyKeepsInv(cfg: R.Config, s: State, c: ConnId)
    requires Inv(cfg, s) && c in s.links && s.links[c].sender.Waiting? && s.links[c].down != []
    ensures Inv(cfg, Put(s, c, GotReply(s.links[c])))
  {
    hide Inv, UpOk, ReqsOk, DownOk;
    LinkFacts(cfg, s, c);
    DownOfReply(s.links[c], c in s.recv.handlers);
    QuietStepKeepsInv(cfg, s, c, GotReply(s.links[c]));
  }

  lemma DownOfReply(l: Link, alive: bool)
    requires DownOk(l, alive) && l.sender.Waiting? && l.down != []
    ensures DownOk(GotReply(l), alive)
  {
  }

  lemma CutOk(cfg: R.Config, d: Disk, p: R.Phase, l: Link, m: Link)
    requires l.commits <= |l.reqs| && UpOk(cfg, d, p, l)
    requires m.commits == l.commits && m.reqs == l.reqs && m.sender == l.sender && m.up <= l.up && m.upCut
    ensures UpOk(cfg, d, p, m)
  {
    hide Frame, Digest, Matches, Left;
  }

  lemma CutKeepsInv(cfg: R.Config, s: State, c: ConnId, keepUp: nat, keepDown: nat)
    requires Inv(cfg, s) && c in s.links && keepUp <= |s.links[c].up| && keepDown <= |s.links[c].down|
    ensures var l := s.links[c];
            Inv(cfg, Put(s, c, l.(up := l.up[..keepUp], upCut := true, down := l.down[..keepDown], downCut := true)))
  {
    hide UpOk, Sendable, Inv;
    LinkFacts(cfg, s, c);
    var l := s.links[c];
    var m := l.(up := l.up[..keepUp], upCut := true, down := l.down[..keepDown], downCut := true);
    if c in s.recv.handlers { CutOk(cfg, s.recv.disk, s.recv.handlers[c], l, m); }
    SenderStep(cfg, s, c, m);
  }

  /** Steps on the sender's disk, and a crash of the sender, change no connection's streams. */
  lemma DiskStepKeepsInv(cfg: R.Config, s: State, t: State)
    requires Inv(cfg, s) && t.recv == s.recv && t.links == s.links && SenderDiskOk(t)
    requires forall n :: n in s.produced ==> n in t.produced && t.produced[n] == s.produced[n]
    ensures Inv(cfg, t)
  {
    hide LinkOk, R.Inv;
    forall x | x in t.links ensures LinkOk(cfg, t, x) { LinkFrame(cfg, s, t, x); }
  }

  lemma RetiredOk(cfg: R.Config, s: State, t: State, x: ConnId)
    requires x in s.links && x in t.links && LinkOk(cfg, s, x) && t.links[x] == s.links[x].(sender := Retired)
    requires s.recv == t.recv && s.produced == t.produced
    ensures LinkOk(cfg, t, x)
  {
    hide UpOk, Sendable;
    if x in s.recv.handlers {
      NotWriting(cfg, s.recv.disk, s.recv.handlers[x], s.links[x], t.links[x]);
    }
  }

  lemma SenderCrashKeepsInv(cfg: R.Config, s: State, restored: set<Name>)
    requires Inv(cfg, s) && restored <= s.quarantined + s.departed
    ensures Inv(cfg, s.(links := map c | c in s.links :: s.links[c].(sender := Retired),
                        outbox := s.outbox + restored, quarantined := s.quarantined - restored))
  {
    hide LinkOk, R.Inv;
    var t := s.(links := map c | c in s.links :: s.links[c].(sender := Retired),
                outbox := s.outbox + restored, quarantined := s.quarantined - restored);
    forall x | x in t.links ensures LinkOk(cfg, t, x) { RetiredOk(cfg, s, t, x); }
  }

  // ---------- the handlers' steps ----------

  lemma HandlerKeepsInv(cfg: R.Config, s: State, a: R.Action, l: Link)
    requires Inv(cfg, s) && R.Enabled(cfg, s.recv, a) && a.OfHandler()
    requires a.c in s.links || a.Accept?
    requires var t := Put(s, a.c, l).(recv := R.Apply(cfg, s.recv, a));
             LinkOk(cfg, t, a.c) && ContentOk(t)
    ensures Inv(cfg, Put(s, a.c, l).(recv := R.Apply(cfg, s.recv, a)))
  {
    hide LinkOk, R.Inv, R.Enabled, R.Apply, LinksOk;
    var t := Put(s, a.c, l).(recv := R.Apply(cfg, s.recv, a));
    HandlerStep(cfg, s, t, a);
    OtherPhases(cfg, s.recv, a);
    assert forall x :: x in t.recv.handlers && x != a.c ==> x in t.recv.handlers - {a.c};
  }

  /** The stream invariant when something is in flight, and how to establish it again. */
  lemma UpFacts(cfg: R.Config, d: Disk, p: R.Phase, l: Link)
    requires l.commits < |l.reqs|
    ensures UpOk(cfg, d, p, l) <==>
              && Matches(cfg, d, p, l.Last())
              && l.up <= Left(cfg, d, p, l.Last())
              && (l.sender.Writing? ==>
                    && |l.up| + |l.sender.rest| <= |Left(cfg, d, p, l.Last())|
                    && (!l.upCut ==> l.up + l.sender.rest == Left(cfg, d, p, l.Last())))
  {
    hide Matches, Left;
  }

  lemma Drain(up: seq<byte>, rest: seq<byte>, left: seq<byte>, k: nat)
    requires k <= |up| && up <= left
    ensures up[k..] <= left[k..] && up[..k] <= left
    ensures up + rest == left ==> up[k..] + rest == left[k..]
  {
  }

  lemma ReceiveOk(cfg: R.Config, s: R.State, c: ConnId, l: Link, k: nat)
    requires c in s.handlers && l.commits < |l.reqs| && UpOk(cfg, s.disk, s.handlers[c], l) && Sendable(l.Last(), 0)
    requires 0 < k <= |l.up| && k <= R.Need(cfg, s.disk, s.handlers[c])
    ensures var t := R.Fed(s, c, s.handlers[c], l.up[..k]);
            c in t.handlers && UpOk(cfg, t.disk, t.handlers[c], l.(up := l.up[k..]))
  {
    hide UpOk, Matches, Left, R.Fed, R.Need, ValidName, Digest, Frame;
    var p, t, m := s.handlers[c], R.Fed(s, c, s.handlers[c], l.up[..k]), l.(up := l.up[k..]);
    UpFacts(cfg, s.disk, p, l);
    Drain(l.up, if l.sender.Writing? then l.sender.rest else [], Left(cfg, s.disk, p, l.Last()), k);
    FeedMatches(cfg, s, c, l.Last(), l.up[..k]);
    UpFacts(cfg, t.disk, t.handlers[c], m);
  }

  lemma ReceiveLink(cfg: R.Config, s: State, c: ConnId, k: nat)
    requires c in s.links && c in s.recv.handlers && LinkOk(cfg, s, c)
    requires 0 < k <= |s.links[c].up| && k <= R.Need(cfg, s.recv.disk, s.recv.handlers[c])
    ensures LinkOk(cfg, Put(s, c, s.links[c].(up := s.links[c].up[k..]))
        .(recv := R.Fed(s.recv, c, s.recv.handlers[c], s.links[c].up[..k])), c)
  {
    var l := s.links[c];
    assert l.commits < |l.reqs|;
    hide UpOk, R.Fed, R.Need, Sendable;
    ReceiveOk(cfg, s.recv, c, l, k);
  }

  lemma ReceiveKeepsInv(cfg: R.Config, s: State, c: ConnId, k: nat)
    requires Inv(cfg, s) && c in s.links && 0 < k <= |s.links[c].up|
    requires c in s.recv.handlers && k <= R.Need(cfg, s.recv.disk, s.recv.handlers[c])
    ensures Inv(cfg, Put(s, c, s.links[c].(up := s.links[c].up[k..]))
        .(recv := R.Fed(s.recv, c, s.recv.handlers[c], s.links[c].up[..k])))
  {
    hide Inv, LinkOk, R.Fed, R.Need;
    var l := s.links[c];
    LinkFacts(cfg, s, c);
    ContentFacts(cfg, s);
    ReceiveLink(cfg, s, c, k);
    FedKnows(s.recv, c, s.recv.handlers[c], l.up[..k]);
    HandlerKeepsInv(cfg, s, R.Feed(c, l.up[..k]), l.(up := l.up[k..]));
  }

  lemma FedKnows(s: R.State, c: ConnId, p: R.Phase, chunk: seq<byte>)
    ensures R.Fed(s, c, p, chunk).verified == s.verified
  {
  }

  lemma ContentFacts(cfg: R.Config, s: State)
    requires Inv(cfg, s)
    ensures ContentOk(s)
  {
  }

  /** The handler's own system calls, from parsing the header to syncing the directory. */
  ghost predicate IsCommitStep(a: R.Action) {
    a.Stage? || a.Verify? || a.FileSync? || a.Close? || a.Rename? || a.DirSync?
  }

  lemma StageOk(cfg: R.Config, s: R.State, l: Link, c: ConnId, tmp: Name, ino: Inode)
    requires R.Enabled(cfg, s, R.Stage(c, tmp, ino)) && DownOk(l, true) && UpOk(cfg, s.disk, s.handlers[c], l)
    requires forall i :: 0 <= i < |l.reqs| ==> Sendable(l.reqs[i], 0)
    ensures var t := R.Apply(cfg, s, R.Stage(c, tmp, ino)); UpOk(cfg, t.disk, t.handlers[c], l)
  {
    EmptyIsNoHeader(cfg.maxSize);
    hide ParseHeader, Frame, Digest, ValidName, Disk.CrashesTo, IsTmp, R.Need, R.Complete, DownOk;
    DownBounds(l, true);
    var r := l.Last();
    assert Sendable(r, 0);
    StageMatches(cfg, s.handlers[c].buf, r);
    var all := r.payload + Digest(cfg.sha, r.payload);
    assert all[0..] == all && [] <= all;
  }

  lemma VerifyOk(cfg: R.Config, s: R.State, l: Link, c: ConnId)
    requires R.Enabled(cfg, s, R.Verify(c)) && DownOk(l, true) && UpOk(cfg, s.disk, s.handlers[c], l)
    ensures l.commits < |l.reqs| && Request(s.handlers[c].name, s.disk.Data(s.handlers[c].ino)) == l.Last()
    ensures var t := R.Apply(cfg, s, R.Verify(c)); UpOk(cfg, t.disk, t.handlers[c], l)
  {
    hide ParseHeader, Frame, Digest;
    var p, r := s.handlers[c], l.Last();
    var data := s.disk.Data(p.ino);
    assert data + p.trailer <= r.payload + Digest(cfg.sha, r.payload);
    assert data == (data + p.trailer)[..|data|] == r.payload;
  }

  lemma CommitStepOk(cfg: R.Config, s: R.State, l: Link, a: R.Action)
    requires R.Enabled(cfg, s, a) && (a.FileSync? || a.Close? || a.Rename? || a.DirSync?)
    requires DownOk(l, true) && UpOk(cfg, s.disk, s.handlers[a.c], l)
    ensures var t := R.Apply(cfg, s, a); UpOk(cfg, t.disk, t.handlers[a.c], l)
  {
    PhaseOfCall(cfg, s, a);
    CallIs(cfg, s, a.c);
    hide ParseHeader, Frame, Digest, R.Enabled, R.Apply;
  }

  lemma PhaseOfCall(cfg: R.Config, s: R.State, a: R.Action)
    requires R.Enabled(cfg, s, a) && (a.FileSync? || a.Close? || a.Rename? || a.DirSync?)
    ensures a.c in s.handlers && 1 <= Rank(s.handlers[a.c]) <= 4 && a == NextCall(a.c, s.handlers[a.c])
  {
    hide ParseHeader, R.Need, R.Complete;
  }

  lemma CommitStepFacts(cfg: R.Config, s: R.State, a: R.Action)
    requires R.Enabled(cfg, s, a) && IsCommitStep(a)
    ensures a.c in s.handlers && a.c in R.Apply(cfg, s, a).handlers
    ensures !a.Verify? ==> R.Apply(cfg, s, a).verified == s.verified
    ensures a.Verify? ==>
              && s.handlers[a.c].Body?
              && R.Apply(cfg, s, a).verified == s.verified
                + {Request(s.handlers[a.c].name, s.disk.Data(s.handlers[a.c].ino))}
  {
    hide ParseHeader, R.Need, Digest;
  }

  lemma CommitStepLink(cfg: R.Config, s: State, a: R.Action)
    requires R.Enabled(cfg, s.recv, a) && IsCommitStep(a) && a.c in s.links && a.c in s.recv.handlers
    requires LinkOk(cfg, s, a.c) && ContentOk(s) && s.recv.disk.durable.Keys <= s.recv.disk.names.Keys
    ensures var t := s.(recv := R.Apply(cfg, s.recv, a)); LinkOk(cfg, t, a.c) && ContentOk(t)
  {
    hide UpOk, Sendable, R.Apply, R.Enabled, DownOk;
    var c, l := a.c, s.links[a.c];
    CommitStepFacts(cfg, s.recv, a);
    R.DurableGrows(cfg, s.recv, a);
    DownBounds(l, true);
    match a
    case Stage(_, tmp, ino) => StageOk(cfg, s.recv, l, c, tmp, ino);
    case Verify(_) => VerifyOk(cfg, s.recv, l, c);
    case _ => CommitStepOk(cfg, s.recv, l, a);
  }

  lemma CommitStepKeepsInv(cfg: R.Config, s: State, a: R.Action)
    requires Inv(cfg, s) && R.Enabled(cfg, s.recv, a) && IsCommitStep(a)
    ensures Inv(cfg, s.(recv := R.Apply(cfg, s.recv, a)))
  {
    hide Inv, LinkOk, ContentOk, R.Inv, R.Apply, R.Enabled;
    CommitStepFacts(cfg, s.recv, a);
    RecvFacts(cfg, s);
    LinkFacts(cfg, s, a.c);
    ContentFacts(cfg, s);
    R.DurableInNames(s.recv);
    CommitStepLink(cfg, s, a);
    assert s.links == s.links[a.c := s.links[a.c]];
    HandlerKeepsInv(cfg, s, a, s.links[a.c]);
  }

  // ---------- replies, exits, crashes ----------

  lemma AckOk(cfg: R.Config, s: R.State, c: ConnId, l: Link)
    requires c in s.handlers && s.handlers[c].Committed? && DownOk(l, true) && UpOk(cfg, s.disk, s.handlers[c], l)
    ensures l.commits + 1 == |l.reqs| && l.up == [] && !l.sender.Writing? && !l.sender.Between? && !l.sender.Acked?
    ensures l.Last().name == s.handlers[c].name
    ensures l.sender.Waiting? ==> l.down == []
  {
  }

  lemma CommittedIsDurable(s: R.State, c: ConnId)
    requires R.Inv(s) && c in s.handlers && s.handlers[c].Committed?
    ensures s.handlers[c].name in s.disk.durable
  {
    assert R.PhaseOk(s, s.handlers[c]);
  }

  lemma RecvFacts(cfg: R.Config, s: State)
    requires Inv(cfg, s)
    ensures R.Inv(s.recv) && s.recv.handlers.Keys <= s.links.Keys
  {
  }

  lemma ExitFacts(s: R.State, c: ConnId, p: R.Phase, removed: bool)
    ensures c !in R.Exited(s, c, p, removed).handlers && R.Exited(s, c, p, removed).verified == s.verified
  {
  }

  /** The request that a commit answers, with or without its ACK reaching the wire. */
  lemma AckLink(cfg: R.Config, s: State, c: ConnId, m: Link, recv: R.State)
    requires c in s.links && c in s.recv.handlers && s.recv.handlers[c].Committed? && LinkOk(cfg, s, c)
    requires s.recv.handlers[c].name in s.recv.disk.durable && recv.disk.durable == s.recv.disk.durable
    requires c in recv.handlers ==> recv.handlers[c] == R.Reading([])
    requires var l := s.links[c]; m == l.(commits := l.commits + 1, down := m.down, downCut := m.downCut)
    requires m.down == s.links[c].down || m.down == s.links[c].down + [ACK_BYTE]
    ensures LinkOk(cfg, Put(s, c, m).(recv := recv), c)
  {
    AckOk(cfg, s.recv, c, s.links[c]);
    hide Matches, Left, Sendable;
  }

  lemma SendAckKeepsInv(cfg: R.Config, s: State, c: ConnId)
    requires Inv(cfg, s) && c in s.links && c in s.recv.handlers && s.recv.handlers[c].Committed?
    ensures Inv(cfg, Put(s, c, s.links[c].Reply([ACK_BYTE]).(commits := s.links[c].commits + 1))
        .(recv := R.Move(s.recv, c, R.Reading([]))))
  {
    hide Inv, R.Inv, LinkOk;
    var m := s.links[c].Reply([ACK_BYTE]).(commits := s.links[c].commits + 1);
    LinkFacts(cfg, s, c);
    ContentFacts(cfg, s);
    RecvFacts(cfg, s);
    CommittedIsDurable(s.recv, c);
    AckLink(cfg, s, c, m, R.Move(s.recv, c, R.Reading([])));
    HandlerKeepsInv(cfg, s, R.Ack(c), m);
  }

  lemma AckFailsKeepsInv(cfg: R.Config, s: State, c: ConnId, reply: seq<byte>)
    requires Inv(cfg, s) && c in s.links && c in s.recv.handlers && s.recv.handlers[c].Committed?
    requires reply == [] || reply == [ACK_BYTE]
    ensures Inv(cfg, Put(s, c, s.links[c].Reply(reply).(commits := s.links[c].commits + 1, downCut := true))
                     .(recv := R.Exited(s.recv, c, s.recv.handlers[c], true)))
  {
    hide Inv, R.Inv, LinkOk;
    var m := s.links[c].Reply(reply).(commits := s.links[c].commits + 1, downCut := true);
    LinkFacts(cfg, s, c);
    ContentFacts(cfg, s);
    RecvFacts(cfg, s);
    CommittedIsDurable(s.recv, c);
    ExitFacts(s.recv, c, s.recv.handlers[c], true);
    AckLink(cfg, s, c, m, R.Exited(s.recv, c, s.recv.handlers[c], true));
    HandlerKeepsInv(cfg, s, R.Exit(c, true), m);
  }

  lemma NackIsQuiet(msg: seq<byte>, sent: nat)
    requires sent <= |EncodeNack(msg)|
    ensures Quiet(EncodeNack(msg)[..sent])
  {
  }

  lemma ExitLink(cfg: R.Config, s: State, c: ConnId, reply: seq<byte>, recv: R.State)
    requires c in s.links && c in s.recv.handlers && LinkOk(cfg, s, c) && Quiet(reply)
    requires c !in recv.handlers && recv.disk.durable == s.recv.disk.durable
    ensures LinkOk(cfg, Put(s, c, s.links[c].Reply(reply)).(recv := recv), c)
  {
    hide UpOk, Sendable;
  }

  lemma HandlerExitsKeepsInv(cfg: R.Config, s: State, c: ConnId, removed: bool, reply: seq<byte>)
    requires Inv(cfg, s) && c in s.links && c in s.recv.handlers && Quiet(reply)
    ensures Inv(cfg, Put(s, c, s.links[c].Reply(reply)).(recv := R.Exited(s.recv, c, s.recv.handlers[c], removed)))
  {
    hide Inv, R.Inv, LinkOk;
    LinkFacts(cfg, s, c);
    ContentFacts(cfg, s);
    ExitFacts(s.recv, c, s.recv.handlers[c], removed);
    ExitLink(cfg, s, c, reply, R.Exited(s.recv, c, s.recv.handlers[c], removed));
    HandlerKeepsInv(cfg, s, R.Exit(c, removed), s.links[c].Reply(reply));
  }

  /** After a crash, and until the boot that follows it, no handler is left. */
  lemma ReceiverDownKeepsInv(cfg: R.Config, s: State, a: R.Action)
    requires Inv(cfg, s) && R.Enabled(cfg, s.recv, a) && (a.Kill? || a.Crash? || a.Boot?)
    ensures Inv(cfg, s.(recv := R.Apply(cfg, s.recv, a)))
  {
    hide LinkOk, R.Inv;
    var t := s.(recv := R.Apply(cfg, s.recv, a));
    if a.Boot? { NobodyHome(s.recv); }
    R.StepKeepsInv(cfg, s.recv, a);
    R.DurableInNames(s.recv);
    R.DurableGrows(cfg, s.recv, a);
    assert t.recv.handlers == map[] && t.recv.verified == s.recv.verified;
    forall x | x in t.links ensures LinkOk(cfg, t, x) { LinkFrame(cfg, s, t, x); }
  }

  lemma NobodyHome(s: R.State)
    requires R.Inv(s) && !s.up
    ensures s.handlers == map[]
  {
  }

  lemma DialKeepsInv(cfg: R.Config, s: State, c: ConnId)
    requires Inv(cfg, s) && c !in s.links && s.recv.up && c !in s.recv.handlers
    ensures Inv(cfg, Put(s, c, Link([], 0, 0, [], false, [], false, Between))
        .(recv := R.Move(s.recv, c, R.Reading([]))))
  {
    hide Inv, R.Inv;
    ContentFacts(cfg, s);
    HandlerKeepsInv(cfg, s, R.Accept(c), Link([], 0, 0, [], false, [], false, Between));
  }

  // ---------- every step, every run ----------

  lemma SenderFailsKeepsInv(cfg: R.Config, s: State, c: ConnId)
    requires Inv(cfg, s) && c in s.links
    ensures Inv(cfg, Put(s, c, s.links[c].(sender := Retired)))
  {
    LinkFacts(cfg, s, c);
    hide UpOk, Inv, ReqsOk;
    QuietStepKeepsInv(cfg, s, c, s.links[c].(sender := Retired));
  }

  /** Archiving or deleting the source happens only for a request that is durably committed. */
  lemma AckedIsDurable(cfg: R.Config, s: State, c: ConnId)
    requires c in s.links && LinkOk(cfg, s, c) && s.links[c].sender.Acked?
    ensures s.links[c].reqs != [] && s.links[c].Last().name in s.recv.disk.durable
  {
    hide UpOk, Sendable;
    var l := s.links[c];
    assert l.reqs[|l.reqs| - 1].name in s.recv.disk.durable;
  }

  lemma DiskFacts(cfg: R.Config, s: State)
    requires Inv(cfg, s)
    ensures SenderDiskOk(s)
  {
  }

  lemma PostCommitKeepsInv(cfg: R.Config, s: State, c: ConnId, moved: bool)
    requires Inv(cfg, s) && c in s.links && s.links[c].sender.Acked? && s.links[c].reqs != []
    ensures var t := Put(s, c, s.links[c].(sender := Between));
            var n := s.links[c].Last().name;
            Inv(cfg, if moved then t.(outbox := s.outbox - {n}, departed := s.departed + {n}) else t)
  {
    hide UpOk, Inv, ReqsOk;
    LinkFacts(cfg, s, c);
    AckedIsDurable(cfg, s, c);
    var l, n := s.links[c], s.links[c].Last().name;
    var m := Put(s, c, l.(sender := Between));
    DownOfAcked(l, c in s.recv.handlers);
    hide DownOk, LinkOk;
    QuietStepKeepsInv(cfg, s, c, l.(sender := Between));
    if moved {
      DiskFacts(cfg, s);
      ProducedFacts(cfg, s, n);
      DiskStepKeepsInv(cfg, m, m.(outbox := s.outbox - {n}, departed := s.departed + {n}));
    }
  }

  lemma DownOfAcked(l: Link, alive: bool)
    requires DownOk(l, alive) && l.sender.Acked?
    ensures DownOk(l.(sender := Between), alive)
  {
  }

  lemma ProducedFacts(cfg: R.Config, s: State, n: Name)
    requires Inv(cfg, s) && n in s.recv.disk.durable
    ensures n in s.produced
  {
    assert R.GoodEntry(s.recv, n, s.recv.disk.durable[n]);
  }

  lemma ProduceKeepsInv(cfg: R.Config, s: State, n: Name, payload: seq<byte>)
    requires Inv(cfg, s) && n !in s.produced
    ensures Inv(cfg, s.(produced := s.produced[n := payload], outbox := s.outbox + {n}))
  {
    hide Inv;
    DiskFacts(cfg, s);
    DiskStepKeepsInv(cfg, s, s.(produced := s.produced[n := payload], outbox := s.outbox + {n}));
  }

  lemma QuarantineKeepsInv(cfg: R.Config, s: State, n: Name)
    requires Inv(cfg, s) && n in s.outbox
    ensures Inv(cfg, s.(outbox := s.outbox - {n}, quarantined := s.quarantined + {n}))
  {
    hide Inv;
    DiskFacts(cfg, s);
    DiskStepKeepsInv(cfg, s, s.(outbox := s.outbox - {n}, quarantined := s.quarantined + {n}));
  }

  lemma SenderActionKeepsInv(cfg: R.Config, s: State, act: Action)
    requires Inv(cfg, s) && Enabled(cfg, s, act)
    requires act.Produce? || act.Dial? || act.Begin? || act.Write? || act.ReadReply? || act.PostCommit?
        || act.SenderFails?
             || act.Quarantine? || act.SenderCrash?
    ensures Inv(cfg, Apply(cfg, s, act))
  {
    hide Inv, R.Inv, Wrote, GotReply, Frame, Digest;
    match act
    case Produce(n, payload) => ProduceKeepsInv(cfg, s, n, payload);
    case Dial(c) => DialKeepsInv(cfg, s, c);
    case Begin(c, n) => BeginKeepsInv(cfg, s, c, Request(n, s.produced[n]));
    case Write(c, k) => WriteKeepsInv(cfg, s, c, k);
    case ReadReply(c) => ReadReplyKeepsInv(cfg, s, c);
    case PostCommit(c, moved) => PostCommitKeepsInv(cfg, s, c, moved);
    case SenderFails(c) => SenderFailsKeepsInv(cfg, s, c);
    case Quarantine(n) => QuarantineKeepsInv(cfg, s, n);
    case SenderCrash(restored) => SenderCrashKeepsInv(cfg, s, restored);
  }

  lemma Fits(cfg: R.Config, s: R.State, c: ConnId, chunk: seq<byte>)
    requires R.Enabled(cfg, s, R.Feed(c, chunk))
    ensures c in s.handlers && 0 < |chunk| <= R.Need(cfg, s.disk, s.handlers[c])
  {
    hide R.Need;
  }

  lemma AckIs(cfg: R.Config, s: R.State, c: ConnId)
    requires R.Enabled(cfg, s, R.Ack(c))
    ensures c in s.handlers && s.handlers[c].Committed?
    ensures R.Apply(cfg, s, R.Ack(c)) == R.Move(s, c, R.Reading([]))
  {
  }

  lemma ExitIs(cfg: R.Config, s: R.State, c: ConnId, removed: bool)
    requires c in s.handlers
    ensures R.Enabled(cfg, s, R.Exit(c, removed))
    ensures R.Apply(cfg, s, R.Exit(c, removed)) == R.Exited(s, c, s.handlers[c], removed)
  {
  }

  lemma ReceiverActionKeepsInv(cfg: R.Config, s: State, act: Action)
    requires Inv(cfg, s) && Enabled(cfg, s, act)
    requires act.Receive? || act.SendAck? || act.AckFails? || act.HandlerExits? || act.Cut?
    ensures Inv(cfg, Apply(cfg, s, act))
  {
    hide Inv, R.Inv, R.Need, R.Fed, R.Exited, R.Move, R.Enabled, R.Apply, EncodeNack, Quiet, Link.Reply;
    match act
    case Receive(c, k) =>
      Fits(cfg, s.recv, c, s.links[c].up[..k]);
      FeedIs(cfg, s.recv, c, s.links[c].up[..k]);
      ReceiveKeepsInv(cfg, s, c, k);
    case SendAck(c) =>
      AckIs(cfg, s.recv, c);
      SendAckKeepsInv(cfg, s, c);
    case AckFails(c, delivered) =>
      AckIs(cfg, s.recv, c);
      ExitIs(cfg, s.recv, c, true);
      AckFailsKeepsInv(cfg, s, c, if delivered then [ACK_BYTE] else []);
    case HandlerExits(c, removed, msg, sent) =>
      NackIsQuiet(msg, sent);
      ExitIs(cfg, s.recv, c, removed);
      HandlerExitsKeepsInv(cfg, s, c, removed, EncodeNack(msg)[..sent]);
    case Cut(c, keepUp, keepDown) => CutKeepsInv(cfg, s, c, keepUp, keepDown);
  }

  lemma InternalActionKeepsInv(cfg: R.Config, s: State, a: R.Action)
    requires Inv(cfg, s) && Enabled(cfg, s, Internal(a))
    ensures Inv(cfg, Apply(cfg, s, Internal(a)))
  {
    hide Inv, R.Inv, R.Enabled, R.Apply;
    if a.Kill? || a.Crash? || a.Boot? {
      ReceiverDownKeepsInv(cfg, s, a);
    } else {
      CommitStepKeepsInv(cfg, s, a);
    }
  }

  lemma StepKeepsInv(cfg: R.Config, s: State, act: Action)
    requires Inv(cfg, s) && Enabled(cfg, s, act)
    ensures Inv(cfg, Apply(cfg, s, act))
  {
    hide Inv, Enabled, Apply;
    if act.Internal? {
      InternalActionKeepsInv(cfg, s, act.a);
    } else if act.Receive? || act.SendAck? || act.AckFails? || act.HandlerExits? || act.Cut? {
      ReceiverActionKeepsInv(cfg, s, act);
    } else {
      SenderActionKeepsInv(cfg, s, act);
    }
  }

  // ---------- the main results ----------

  ghost predicate Allowed(cfg: R.Config, s: State, run: seq<Action>)
    decreases |run|, 0
  {
    run == [] ||
    (var front := run[..|run| - 1];
     Allowed(cfg, s, front) && Enabled(cfg, Exec(cfg, s, front), run[|run| - 1]))
  }

  ghost function Exec(cfg: R.Config, s: State, run: seq<Action>): (t: State)
    requires Allowed(cfg, s, run)
    decreases |run|, 1
  {
    if run == [] then s
    else Apply(cfg, Exec(cfg, s, run[..|run| - 1]), run[|run| - 1])
  }

  lemma {:induction false} RunKeepsInv(cfg: R.Config, s: State, run: seq<Action>)
    requires Initial(s) && Allowed(cfg, s, run)
    ensures Inv(cfg, Exec(cfg, s, run))
  {
    if run == [] {
      R.InitialInv(s.recv);
    } else {
      hide Inv, Enabled, Apply, Initial;
      RunKeepsInv(cfg, s, run[..|run| - 1]);
      StepKeepsInv(cfg, Exec(cfg, s, run[..|run| - 1]), run[|run| - 1]);
    }
  }

  /** The receiver holds exactly the produced bytes under the name, on stable storage. */
  ghost predicate DurablyHeld(s: State, n: Name) {
    && n in s.produced
    && n in s.recv.disk.durable
    && s.recv.disk.durable[n] in s.recv.disk.files
    && s.recv.disk.files[s.recv.disk.durable[n]] == File(s.produced[n], true)
  }

  lemma DurableMeansHeld(cfg: R.Config, s: State, n: Name)
    requires Inv(cfg, s) && n in s.recv.disk.durable
    ensures DurablyHeld(s, n)
  {
    hide LinksOk, ValidName;
    assert R.GoodEntry(s.recv, n, s.recv.disk.durable[n]);
  }

  /** No loss, over every run: whatever has been archived or deleted at the sender is durable at the
      receiver with exactly its bytes, so every produced file is at all times on the sender's disk
      or durable at the receiver. */
  lemma NoLoss(cfg: R.Config, s: State, run: seq<Action>)
    requires Initial(s) && Allowed(cfg, s, run)
    ensures var t := Exec(cfg, s, run);
            && (forall n :: n in t.departed ==> DurablyHeld(t, n))
            && (forall n :: n in t.produced ==> n in t.outbox || n in t.quarantined || DurablyHeld(t, n))
  {
    var t := Exec(cfg, s, run);
    RunKeepsInv(cfg, s, run);
    DiskFacts(cfg, t);
    hide Inv, DurablyHeld, Initial, Allowed, Exec;
    forall n | n in t.departed ensures DurablyHeld(t, n) { DurableMeansHeld(cfg, t, n); }
  }

  /** ACK matching: when the sender reads an ACK, it is the k-th it reads on this connection, it
      answers the k-th request sent, and that request is durably committed. */
  lemma AckMatching(cfg: R.Config, s: State, run: seq<Action>, c: ConnId)
    requires Initial(s) && Allowed(cfg, s, run)
    requires var t := Exec(cfg, s, run);
             c in t.links && t.links[c].sender.Waiting? && t.links[c].down != [] && t.links[c].down[0] == ACK_BYTE
    ensures var t := Exec(cfg, s, run);
            var l := t.links[c];
            && l.commits == |l.reqs| == l.acksRead + 1
            && l.reqs[l.acksRead].name in t.produced
            && t.produced[l.reqs[l.acksRead].name] == l.reqs[l.acksRead].payload
            && forall i :: 0 <= i < |l.reqs| ==> DurablyHeld(t, l.reqs[i].name)
  {
    var t := Exec(cfg, s, run);
    RunKeepsInv(cfg, s, run);
    LinkFacts(cfg, t, c);
    hide Inv, DurablyHeld, Initial, Allowed, Exec, UpOk, Sendable;
    var l := t.links[c];
    assert l.commits == |l.reqs|;
    forall i | 0 <= i < |l.reqs| ensures DurablyHeld(t, l.reqs[i].name) { DurableMeansHeld(cfg, t, l.reqs[i].name); }
  }

  /** Between files on a live connection both streams are empty and both ends are at a frame
      boundary, with one ACK read for every request sent. */
  lemma QuietBetweenFiles(cfg: R.Config, s: State, run: seq<Action>, c: ConnId)
    requires Initial(s) && Allowed(cfg, s, run)
    requires var t := Exec(cfg, s, run); c in t.links && t.links[c].sender.Between? && c in t.recv.handlers
    ensures var t := Exec(cfg, s, run);
            var l := t.links[c];
            && l.up == [] && l.down == []
            && t.recv.handlers[c] == R.Reading([])
            && l.acksRead == l.commits == |l.reqs|
  {
    var t := Exec(cfg, s, run);
    RunKeepsInv(cfg, s, run);
    LinkFacts(cfg, t, c);
    hide Inv, Initial, Allowed, Exec, Matches, Left, Sendable;
  }

  /** A retry after a lost ACK is harmless: every version of a name that the receiver holds, seen or
      durable, committed before or after, is the produced one. */
  lemma Idempotent(cfg: R.Config, s: State, run: seq<Action>, n: Name)
    requires Initial(s) && Allowed(cfg, s, run) && n in Exec(cfg, s, run).recv.disk.names
    ensures var t := Exec(cfg, s, run);
            n in t.produced && t.recv.disk.Data(t.recv.disk.names[n]) == t.produced[n]
  {
    var t := Exec(cfg, s, run);
    RunKeepsInv(cfg, s, run);
    hide LinksOk, ValidName, Initial, Allowed, Exec;
    assert R.GoodEntry(t.recv, n, t.recv.disk.names[n]);
  }
}
