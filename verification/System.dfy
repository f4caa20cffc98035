/** The whole system: the sender's scanner, queue and workers, the connections, and the receiver, in
    one state machine. Each step is a step of the sender's pipeline, of the protocol, or of both. */
module Systems {
  import opened Bytes
  import opened Wire
  import opened Queues
  import opened Scanners
  import opened Bags
  import opened Reception
  import R = ReceiverMachine
  import N = Protocol
  import S = Pipeline

  /** conns: the workers whose variable conn is not nil, and the connection it holds. */
  datatype State = State(net: N.State, snd: S.State, conns: map<nat, ConnId>)

  datatype Action =
    | Produce(n: Name, payload: seq<byte>, modTime: int)
    | Local(a: S.Action)                                   // scanner, queue and worker bookkeeping
    | Exit(w: nat)
    | Dial(w: nat, c: ConnId)
    | DialFails(w: nat, moved: bool, sorted: seq<FileItem>, wake: nat)
    | Begin(w: nat)
    | Write(w: nat, k: nat)
    | ReadReply(w: nat)
    | PostCommit(w: nat, moved: bool)
    | TransferFails(w: nat, moved: bool, sorted: seq<FileItem>, wake: nat)
    | Net(step: N.Action)                                  // the receiver and the network
    | Restart(restored: set<Name>, disk: Listing, count: nat)

  predicate OfSender(a: S.Action) {
    a.ScanDir? || a.PushOne? || a.Pop? || a.Succeed? || a.MarkDone? || a.Retry? || a.Stop?
  }

  /** Pop returns false: the queue is stopped and empty. */
  predicate Ends(s: S.State, a: S.Action) {
    a.Pop? && s.q.stopped && s.q.items == []
  }

  /** How worker w leaves its loop: out of Pop, if it waits there, or at a stop signal. */
  function ExitStep(s: S.State, w: nat): (a: S.Action) {
    if S.IsWorker(s, w) && s.workers[w].Signalled? then S.Pop(w) else S.Exit(w)
  }

  predicate OfReceiver(a: N.Action) {
    a.Receive? || a.Internal? || a.SendAck? || a.AckFails? || a.HandlerExits? || a.Cut?
  }

  predicate HasFile(s: State, w: nat) {
    S.IsWorker(s.snd, w) && s.snd.workers[w].Holding?
  }

  /** Whether a failed attempt moves the worker's file to .failed. */
  predicate Leaves(max: nat, s: State, w: nat, moved: bool)
    requires HasFile(s, w)
  {
    moved && s.snd.q.Quarantines(max, s.snd.workers[w].item.name)
  }

  /** A sender that has just started over an outbox with the given files. */
  function Started(disk: Listing, count: nat): (t: S.State) {
    S.State(map[], [], NEW_QUEUE, seq(count, _ => Ready), disk, {}, multiset{}, multiset{}, multiset{})
  }

  /** The files of the outbox that a scan takes notice of. */
  function Eligible(outbox: set<Name>): (r: set<Name>) {
    set n | n in outbox && ValidName(n)
  }

  /** The sizes that a scan sees are those of the produced files. */
  predicate SizesMatch(disk: Listing, produced: map<Name, seq<byte>>) {
    forall n :: n in disk ==> n in produced && disk[n].size == |produced[n]|
  }

  ghost predicate Initial(s: State) {
    && N.Initial(s.net) && S.Initial(s.snd) && s.conns == map[]
    && s.snd.disk.Keys == Eligible(s.net.outbox) && SizesMatch(s.snd.disk, s.net.produced)
  }

  /** The net when connection c has been closed by its worker. */
  function HungUp(net: N.State, c: ConnId): (t: N.State)
    ensures t.produced == net.produced
  {
    if c in net.links then N.Put(net, c, net.links[c].(sender := N.Retired)) else net
  }

  ghost predicate Enabled(cfg: R.Config, max: nat, s: State, act: Action) {
    match act
    case Produce(n, payload, modTime) =>
      && N.Enabled(cfg, s.net, N.Produce(n, payload))
      && (ValidName(n) ==> S.Enabled(max, s.snd, S.Appear(n, Info(|payload|, modTime))))
    case Local(a) => OfSender(a) && !Ends(s.snd, a) && S.Enabled(max, s.snd, a)
    case Exit(w) =>
      && S.Enabled(max, s.snd, ExitStep(s.snd, w))
      && (ExitStep(s.snd, w).Pop? ==> Ends(s.snd, ExitStep(s.snd, w)))
    case Dial(w, c) => HasFile(s, w) && w !in s.conns && N.Enabled(cfg, s.net, N.Dial(c))
    case DialFails(w, moved, sorted, wake) =>
      && HasFile(s, w) && w !in s.conns
      && S.Enabled(max, s.snd, S.Fail(w, true, moved, sorted, wake))
    case Begin(w) =>
      && HasFile(s, w) && w in s.conns
      && N.Enabled(cfg, s.net, N.Begin(s.conns[w], s.snd.workers[w].item.name))
    case Write(w, k) => w in s.conns && N.Enabled(cfg, s.net, N.Write(s.conns[w], k))
    case ReadReply(w) => w in s.conns && N.Enabled(cfg, s.net, N.ReadReply(s.conns[w]))
    case PostCommit(w, moved) =>
      && w in s.conns && N.Enabled(cfg, s.net, N.PostCommit(s.conns[w], moved))
      && S.Enabled(max, s.snd, S.Deliver(w, moved))
    case TransferFails(w, moved, sorted, wake) =>
      && HasFile(s, w) && w in s.conns && !Acked(s, w)
      && S.Enabled(max, s.snd, S.Fail(w, false, moved, sorted, wake))
    case Net(a) => OfReceiver(a) && N.Enabled(cfg, s.net, a)
    case Restart(restored, disk, _) =>
      && N.Enabled(cfg, s.net, N.SenderCrash(restored))
      && disk.Keys == Eligible(N.Apply(cfg, s.net, N.SenderCrash(restored)).outbox)
      && SizesMatch(disk, s.net.produced)
  }

  /** Worker w has read an ACK and is about to archive or delete its file. */
  predicate Acked(s: State, w: nat) {
    w in s.conns && s.conns[w] in s.net.links && s.net.links[s.conns[w]].sender.Acked?
  }

  /** The net when n has been moved to .failed, or not. */
  function Without(net: N.State, n: Name, leaves: bool): (t: N.State)
    ensures t.produced == net.produced
  {
    if leaves then net.(outbox := net.outbox - {n}, quarantined := net.quarantined + {n}) else net
  }

  ghost function NetAfter(cfg: R.Config, max: nat, s: State, act: Action): (t: N.State)
    requires Enabled(cfg, max, s, act)
  {
    match act
    case Produce(n, payload, _) => N.Apply(cfg, s.net, N.Produce(n, payload))
    case Local(_) => s.net
    case Exit(w) => if w in s.conns then HungUp(s.net, s.conns[w]) else s.net
    case Dial(_, c) => N.Apply(cfg, s.net, N.Dial(c))
    case DialFails(w, moved, _, _) => Without(s.net, s.snd.workers[w].item.name, Leaves(max, s, w, moved))
    case Begin(w) => N.Apply(cfg, s.net, N.Begin(s.conns[w], s.snd.workers[w].item.name))
    case Write(w, k) => N.Apply(cfg, s.net, N.Write(s.conns[w], k))
    case ReadReply(w) => N.Apply(cfg, s.net, N.ReadReply(s.conns[w]))
    case PostCommit(w, moved) => N.Apply(cfg, s.net, N.PostCommit(s.conns[w], moved))
    case TransferFails(w, moved, _, _) =>
      Without(HungUp(s.net, s.conns[w]), s.snd.workers[w].item.name, Leaves(max, s, w, moved))
    case Net(a) => N.Apply(cfg, s.net, a)
    case Restart(restored, _, _) => N.Apply(cfg, s.net, N.SenderCrash(restored))
  }

  ghost function SenderAfter(cfg: R.Config, max: nat, s: State, act: Action): (t: S.State)
    requires Enabled(cfg, max, s, act)
  {
    match act
    case Produce(n, payload, modTime) =>
      if ValidName(n) then S.Apply(max, s.snd, S.Appear(n, Info(|payload|, modTime))) else s.snd
    case Local(a) => S.Apply(max, s.snd, a)
    case Exit(w) => S.Apply(max, s.snd, ExitStep(s.snd, w))
    case DialFails(w, moved, sorted, wake) => S.Apply(max, s.snd, S.Fail(w, true, moved, sorted, wake))
    case PostCommit(w, moved) => S.Apply(max, s.snd, S.Deliver(w, moved))
    case TransferFails(w, moved, sorted, wake) => S.Apply(max, s.snd, S.Fail(w, false, moved, sorted, wake))
    case Restart(_, disk, count) => Started(disk, count)
    case _ => s.snd
  }

  function ConnsAfter(s: State, act: Action): (conns: map<nat, ConnId>) {
    match act
    case Exit(w) => s.conns - {w}
    case Dial(w, c) => s.conns[w := c]
    case TransferFails(w, _, _, _) => s.conns - {w}
    case Restart(_, _, _) => map[]
    case _ => s.conns
  }

  ghost function Apply(cfg: R.Config, max: nat, s: State, act: Action): (t: State)
    requires Enabled(cfg, max, s, act)
  {
    State(NetAfter(cfg, max, s, act), SenderAfter(cfg, max, s, act), ConnsAfter(s, act))
  }

  // ---------- the invariant ----------

  /** A connection in the middle of a request carries the file that its worker holds. */
  ghost predicate Serves(s: State, w: nat)
    requires w in s.conns
  {
    && s.conns[w] in s.net.links
    && var l := s.net.links[s.conns[w]];
       l.sender.Writing? || l.sender.Waiting? || l.sender.Acked? ==>
         HasFile(s, w) && l.reqs != [] && l.Last().name == s.snd.workers[w].item.name
  }

  ghost predicate ConnsOk(s: State) {
    && (forall w :: w in s.conns ==> Serves(s, w))
    && (forall v, w :: v in s.conns && w in s.conns && v != w ==> s.conns[v] != s.conns[w])
  }

  ghost predicate Inv(cfg: R.Config, max: nat, s: State) {
    && N.Inv(cfg, s.net) && S.Inv(max, s.snd)
    && s.snd.disk.Keys == Eligible(s.net.outbox) && SizesMatch(s.snd.disk, s.net.produced)
    && ConnsOk(s)
  }

  // ---------- what the parts do to each other ----------

  /** Hanging up and moving a file to .failed are steps of the protocol. */
  lemma HungUpIs(cfg: R.Config, net: N.State, c: ConnId)
    requires c in net.links
    ensures N.Enabled(cfg, net, N.SenderFails(c)) && N.Apply(cfg, net, N.SenderFails(c)) == HungUp(net, c)
  {
  }

  lemma WithoutIs(cfg: R.Config, net: N.State, n: Name)
    requires n in net.outbox
    ensures N.Enabled(cfg, net, N.Quarantine(n)) && N.Apply(cfg, net, N.Quarantine(n)) == Without(net, n, true)
  {
  }

  lemma HungUpKeepsInv(cfg: R.Config, net: N.State, c: ConnId)
    requires N.Inv(cfg, net)
    ensures N.Inv(cfg, HungUp(net, c))
  {
    if c in net.links {
      HungUpIs(cfg, net, c);
      hide N.Inv, N.Enabled, N.Apply;
      N.StepKeepsInv(cfg, net, N.SenderFails(c));
    }
  }

  lemma WithoutKeepsInv(cfg: R.Config, net: N.State, n: Name, leaves: bool)
    requires N.Inv(cfg, net) && (leaves ==> n in net.outbox)
    ensures N.Inv(cfg, Without(net, n, leaves))
  {
    if leaves {
      WithoutIs(cfg, net, n);
      hide N.Inv, N.Enabled, N.Apply;
      N.StepKeepsInv(cfg, net, N.Quarantine(n));
    }
  }

  /** Every step of the whole is a step of each part, or none, or two. */
  lemma NetKeepsInv(cfg: R.Config, max: nat, s: State, act: Action)
    requires Inv(cfg, max, s) && Enabled(cfg, max, s, act)
    ensures N.Inv(cfg, NetAfter(cfg, max, s, act))
  {
    hide N.Inv, N.Enabled, N.Apply, S.Inv, S.Enabled, S.Apply, ValidName, ConnsOk;
    match act
    case Produce(n, payload, _) => N.StepKeepsInv(cfg, s.net, N.Produce(n, payload));
    case Exit(w) => if w in s.conns { HungUpKeepsInv(cfg, s.net, s.conns[w]); }
    case Dial(w, c) => N.StepKeepsInv(cfg, s.net, N.Dial(c));
    case DialFails(w, moved, sorted, wake) =>
      MovedFileIsThere(max, s, w, true, moved, sorted, wake);
      WithoutKeepsInv(cfg, s.net, s.snd.workers[w].item.name, Leaves(max, s, w, moved));
    case Begin(w) => N.StepKeepsInv(cfg, s.net, N.Begin(s.conns[w], s.snd.workers[w].item.name));
    case Write(w, k) => N.StepKeepsInv(cfg, s.net, N.Write(s.conns[w], k));
    case ReadReply(w) => N.StepKeepsInv(cfg, s.net, N.ReadReply(s.conns[w]));
    case PostCommit(w, moved) => N.StepKeepsInv(cfg, s.net, N.PostCommit(s.conns[w], moved));
    case TransferFails(w, moved, sorted, wake) =>
      MovedFileIsThere(max, s, w, false, moved, sorted, wake);
      HungUpKeepsInv(cfg, s.net, s.conns[w]);
      WithoutKeepsInv(cfg, HungUp(s.net, s.conns[w]), s.snd.workers[w].item.name, Leaves(max, s, w, moved));
    case Net(a) => N.StepKeepsInv(cfg, s.net, a);
    case Restart(restored, _, _) => N.StepKeepsInv(cfg, s.net, N.SenderCrash(restored));
    case _ =>
  }

  lemma MovedFileIsThere(max: nat, s: State, w: nat, dialing: bool, moved: bool, sorted: seq<FileItem>, wake: nat)
    requires s.snd.disk.Keys == Eligible(s.net.outbox)
    requires S.Enabled(max, s.snd, S.Fail(w, dialing, moved, sorted, wake))
    ensures moved ==> s.snd.workers[w].item.name in s.net.outbox
  {
    hide ValidName;
  }

  lemma SenderKeepsInv(cfg: R.Config, max: nat, s: State, act: Action)
    requires max >= 1 && S.Inv(max, s.snd) && Enabled(cfg, max, s, act)
    ensures S.Inv(max, SenderAfter(cfg, max, s, act))
  {
    hide N.Enabled, N.Apply, S.Inv, S.Enabled, S.Apply, ValidName;
    match act
    case Produce(n, payload, modTime) =>
      if ValidName(n) { S.StepKeepsInv(max, s.snd, S.Appear(n, Info(|payload|, modTime))); }
    case Local(a) => S.StepKeepsInv(max, s.snd, a);
    case Exit(w) => S.StepKeepsInv(max, s.snd, ExitStep(s.snd, w));
    case DialFails(w, moved, sorted, wake) => S.StepKeepsInv(max, s.snd, S.Fail(w, true, moved, sorted, wake));
    case PostCommit(w, moved) => S.StepKeepsInv(max, s.snd, S.Deliver(w, moved));
    case TransferFails(w, moved, sorted, wake) => S.StepKeepsInv(max, s.snd, S.Fail(w, false, moved, sorted, wake));
    case Restart(restored, disk, count) => StartedInv(max, disk, count);
    case _ =>
  }

  lemma StartedInv(max: nat, disk: Listing, count: nat)
    requires max >= 1 && forall n :: n in disk ==> ValidName(n)
    ensures S.Inv(max, Started(disk, count))
  {
    S.InitialInv(max, Started(disk, count));
  }

  // ---------- the outbox ----------

  /** The sender's disk is as it was. */
  ghost predicate FilesKept(s: N.State, t: N.State) {
    t.outbox == s.outbox && t.produced == s.produced && t.departed == s.departed
  }

  lemma QuietNet(cfg: R.Config, s: N.State, a: N.Action)
    requires N.Enabled(cfg, s, a) && !N.MovesFiles(a)
    ensures FilesKept(s, N.Apply(cfg, s, a))
  {
    hide N.Enabled, N.Apply, N.MovesFiles;
  }

  lemma ReceiverMovesNoFiles(a: N.Action)
    requires OfReceiver(a)
    ensures !N.MovesFiles(a)
  {
  }

  lemma ProduceFiles(cfg: R.Config, s: N.State, n: Name, payload: seq<byte>)
    requires N.Enabled(cfg, s, N.Produce(n, payload))
    ensures var t := N.Apply(cfg, s, N.Produce(n, payload));
            t.produced == s.produced[n := payload] && t.outbox == s.outbox + {n}
  {
  }

  lemma PostFiles(cfg: R.Config, s: N.State, c: ConnId, moved: bool)
    requires N.Enabled(cfg, s, N.PostCommit(c, moved))
    ensures c in s.links && s.links[c].reqs != []
    ensures var t := N.Apply(cfg, s, N.PostCommit(c, moved));
            && t.produced == s.produced
            && t.outbox == if moved then s.outbox - {s.links[c].Last().name} else s.outbox
  {
  }

  lemma CrashFiles(cfg: R.Config, s: N.State, restored: set<Name>)
    requires N.Enabled(cfg, s, N.SenderCrash(restored))
    ensures var t := N.Apply(cfg, s, N.SenderCrash(restored));
            t.produced == s.produced && t.outbox == s.outbox + restored
  {
  }

  /** Whether a step takes the worker's file out of the outbox. */
  ghost predicate Takes(max: nat, s: State, act: Action) {
    match act
    case DialFails(w, moved, _, _) => HasFile(s, w) && Leaves(max, s, w, moved)
    case TransferFails(w, moved, _, _) => HasFile(s, w) && Leaves(max, s, w, moved)
    case PostCommit(_, moved) => moved
    case _ => false
  }

  lemma PostedOutbox(cfg: R.Config, s: State, w: nat, moved: bool)
    requires ConnsOk(s) && w in s.conns && N.Enabled(cfg, s.net, N.PostCommit(s.conns[w], moved))
    ensures HasFile(s, w)
    ensures N.Apply(cfg, s.net, N.PostCommit(s.conns[w], moved)).outbox ==
              if moved then s.net.outbox - {s.snd.workers[w].item.name} else s.net.outbox
  {
    ServedFile(cfg, s, w, moved);
    PostFiles(cfg, s.net, s.conns[w], moved);
    hide N.Enabled, N.Apply;
  }

  /** Steps of the connections and of the receiver. */
  ghost predicate Transfers(act: Action) {
    act.Dial? || act.Begin? || act.Write? || act.ReadReply? || act.Net?
  }

  lemma TransferFiles(cfg: R.Config, max: nat, s: State, act: Action)
    requires Enabled(cfg, max, s, act) && Transfers(act)
    ensures FilesKept(s.net, NetAfter(cfg, max, s, act))
  {
    hide N.Enabled, N.Apply, S.Enabled, S.Apply, OfReceiver, OfSender, FilesKept;
    match act
    case Dial(w, c) => QuietNet(cfg, s.net, N.Dial(c));
    case Begin(w) => QuietNet(cfg, s.net, N.Begin(s.conns[w], s.snd.workers[w].item.name));
    case Write(w, k) => QuietNet(cfg, s.net, N.Write(s.conns[w], k));
    case ReadReply(w) => QuietNet(cfg, s.net, N.ReadReply(s.conns[w]));
    case Net(a) =>
      ReceiverMovesNoFiles(a);
      QuietNet(cfg, s.net, a);
  }

  lemma OutboxAfter(cfg: R.Config, max: nat, s: State, act: Action)
    requires ConnsOk(s) && Enabled(cfg, max, s, act) && !act.Restart?
    ensures NetAfter(cfg, max, s, act).outbox ==
              if act.Produce? then s.net.outbox + {act.n}
              else if Takes(max, s, act) then s.net.outbox - {s.snd.workers[act.w].item.name} else s.net.outbox
  {
    hide N.Enabled, N.Apply, S.Enabled, S.Apply, ValidName, OfReceiver, OfSender;
    match act
    case Produce(n, payload, modTime) => ProducedOutbox(cfg, s.net, n, payload);
    case PostCommit(w, moved) => PostedOutbox(cfg, s, w, moved);
    case _ => if Transfers(act) { TransferFiles(cfg, max, s, act); }
  }

  lemma ProducedOutbox(cfg: R.Config, s: N.State, n: Name, payload: seq<byte>)
    requires N.Enabled(cfg, s, N.Produce(n, payload))
    ensures N.Apply(cfg, s, N.Produce(n, payload)).outbox == s.outbox + {n}
  {
    ProduceFiles(cfg, s, n, payload);
    hide N.Enabled, N.Apply;
  }

  lemma FailedDisk(max: nat, s: S.State, w: nat, dialing: bool, moved: bool, sorted: seq<FileItem>, wake: nat)
    requires S.Enabled(max, s, S.Fail(w, dialing, moved, sorted, wake)) && S.IsWorker(s, w) && s.workers[w].Holding?
    ensures var n := s.workers[w].item.name;
            S.Apply(max, s, S.Fail(w, dialing, moved, sorted, wake)).disk.Keys ==
              if moved && s.q.Quarantines(max, n) then s.disk.Keys - {n} else s.disk.Keys
  {
    S.DiskAfter(max, s, S.Fail(w, dialing, moved, sorted, wake));
    hide S.Enabled, S.Apply;
  }

  lemma LocalDisk(max: nat, s: S.State, a: S.Action)
    requires S.Enabled(max, s, a) && (OfSender(a) || a.Exit?)
    ensures S.Apply(max, s, a).disk.Keys == s.disk.Keys
  {
    S.DiskAfter(max, s, a);
    hide S.Enabled, S.Apply;
  }

  lemma DiskAfter(cfg: R.Config, max: nat, s: State, act: Action)
    requires ConnsOk(s) && Enabled(cfg, max, s, act) && !act.Restart?
    ensures SenderAfter(cfg, max, s, act).disk.Keys ==
              if act.Produce? then (if ValidName(act.n) then s.snd.disk.Keys + {act.n} else s.snd.disk.Keys)
              else if Takes(max, s, act) then s.snd.disk.Keys - {s.snd.workers[act.w].item.name} else s.snd.disk.Keys
  {
    hide N.Enabled, N.Apply, S.Enabled, S.Apply, ValidName;
    match act
    case Produce(n, payload, modTime) =>
      if ValidName(n) { S.DiskAfter(max, s.snd, S.Appear(n, Info(|payload|, modTime))); }
    case Local(a) => LocalDisk(max, s.snd, a);
    case Exit(w) => LocalDisk(max, s.snd, ExitStep(s.snd, w));
    case DialFails(w, moved, sorted, wake) => FailedDisk(max, s.snd, w, true, moved, sorted, wake);
    case PostCommit(w, moved) => S.DiskAfter(max, s.snd, S.Deliver(w, moved));
    case TransferFails(w, moved, sorted, wake) => FailedDisk(max, s.snd, w, false, moved, sorted, wake);
    case _ =>
  }

  lemma OutboxKept(cfg: R.Config, max: nat, s: State, act: Action)
    requires ConnsOk(s) && Enabled(cfg, max, s, act) && s.snd.disk.Keys == Eligible(s.net.outbox)
    ensures SenderAfter(cfg, max, s, act).disk.Keys == Eligible(NetAfter(cfg, max, s, act).outbox)
  {
    hide Enabled, NetAfter, SenderAfter, ValidName, ConnsOk, Takes;
    if act.Restart? {
      RestartedOutbox(cfg, max, s, act);
    } else {
      OutboxAfter(cfg, max, s, act);
      DiskAfter(cfg, max, s, act);
    }
  }

  lemma RestartedOutbox(cfg: R.Config, max: nat, s: State, act: Action)
    requires Enabled(cfg, max, s, act) && act.Restart?
    ensures SenderAfter(cfg, max, s, act).disk.Keys == Eligible(NetAfter(cfg, max, s, act).outbox)
  {
    hide N.Enabled, N.Apply, ValidName;
  }

  // ---------- the sizes ----------

  lemma ProducedAfter(cfg: R.Config, max: nat, s: State, act: Action)
    requires Enabled(cfg, max, s, act)
    ensures NetAfter(cfg, max, s, act).produced ==
              if act.Produce? then s.net.produced[act.n := act.payload] else s.net.produced
  {
    hide Enabled, NetAfter;
    if Transfers(act) {
      TransferFiles(cfg, max, s, act);
    } else {
      ProducedElse(cfg, max, s, act);
    }
  }

  lemma ProducedElse(cfg: R.Config, max: nat, s: State, act: Action)
    requires Enabled(cfg, max, s, act) && !Transfers(act)
    ensures NetAfter(cfg, max, s, act).produced ==
              if act.Produce? then s.net.produced[act.n := act.payload] else s.net.produced
  {
    hide N.Enabled, N.Apply, S.Enabled, S.Apply, ValidName, HungUp, Without, Eligible, SizesMatch;
    if act.Produce? {
      ProduceFiles(cfg, s.net, act.n, act.payload);
    } else if act.PostCommit? {
      PostFiles(cfg, s.net, s.conns[act.w], act.moved);
    } else if act.Restart? {
      CrashFiles(cfg, s.net, act.restored);
    }
  }

  lemma InfosStay(cfg: R.Config, max: nat, s: State, act: Action)
    requires Enabled(cfg, max, s, act) && !act.Produce? && !act.Restart?
    ensures var disk := SenderAfter(cfg, max, s, act).disk;
            forall n :: n in disk ==> n in s.snd.disk && disk[n] == s.snd.disk[n]
  {
    hide N.Enabled, N.Apply, S.Enabled, S.Apply, ValidName;
    match act
    case Local(a) => S.InfosStay(max, s.snd, a);
    case Exit(w) => S.InfosStay(max, s.snd, ExitStep(s.snd, w));
    case DialFails(w, moved, sorted, wake) => S.InfosStay(max, s.snd, S.Fail(w, true, moved, sorted, wake));
    case PostCommit(w, moved) => S.InfosStay(max, s.snd, S.Deliver(w, moved));
    case TransferFails(w, moved, sorted, wake) => S.InfosStay(max, s.snd, S.Fail(w, false, moved, sorted, wake));
    case _ =>
  }

  lemma SizesKept(cfg: R.Config, max: nat, s: State, act: Action)
    requires Enabled(cfg, max, s, act) && SizesMatch(s.snd.disk, s.net.produced)
    ensures SizesMatch(SenderAfter(cfg, max, s, act).disk, NetAfter(cfg, max, s, act).produced)
  {
    ProducedAfter(cfg, max, s, act);
    if act.Produce? {
      ProducedSizes(cfg, max, s, act);
    } else if !act.Restart? {
      InfosStay(cfg, max, s, act);
      hide Enabled, SenderAfter, NetAfter;
    }
    hide N.Enabled, N.Apply, S.Enabled, S.Apply, NetAfter;
  }

  lemma ProducedSizes(cfg: R.Config, max: nat, s: State, act: Action)
    requires Enabled(cfg, max, s, act) && SizesMatch(s.snd.disk, s.net.produced) && act.Produce?
    ensures SizesMatch(SenderAfter(cfg, max, s, act).disk, s.net.produced[act.n := act.payload])
  {
    hide N.Enabled, N.Apply, NetAfter, ValidName;
    FreshName(cfg, s.net, act.n, act.payload);
  }

  lemma FreshName(cfg: R.Config, s: N.State, n: Name, payload: seq<byte>)
    requires N.Enabled(cfg, s, N.Produce(n, payload))
    ensures n !in s.produced
  {
  }

  lemma ServedFile(cfg: R.Config, s: State, w: nat, moved: bool)
    requires ConnsOk(s) && w in s.conns && N.Enabled(cfg, s.net, N.PostCommit(s.conns[w], moved))
    ensures HasFile(s, w) && s.conns[w] in s.net.links && s.net.links[s.conns[w]].reqs != []
    ensures s.net.links[s.conns[w]].Last().name == s.snd.workers[w].item.name
  {
    assert Serves(s, w);
  }

  // ---------- the connections ----------

  /** A worker that holds a file goes on holding it until its attempt ends. */
  lemma HolderStays(max: nat, s: S.State, a: S.Action, w: nat)
    requires S.Enabled(max, s, a) && S.IsWorker(s, w) && s.workers[w].Holding?
    requires a.Fail? || a.Deliver? ==> a.w != w
    ensures var t := S.Apply(max, s, a); S.IsWorker(t, w) && t.workers[w] == s.workers[w]
  {
    S.WorkerAfter(max, s, a, w);
    if S.Acts(a, w) { WrongPhase(max, s, a, w); }
    hide S.Enabled, S.Apply;
  }

  lemma WrongPhase(max: nat, s: S.State, a: S.Action, w: nat)
    requires S.Enabled(max, s, a) && S.Acts(a, w) && S.IsWorker(s, w) && s.workers[w].Holding?
    ensures a.Fail? || a.Deliver?
  {
    hide Resorted, S.WakesOne, S.FaithfulListing, HandedOver;
  }

  ghost predicate SenderSideKept(s: N.State, t: N.State, c: ConnId) {
    c in s.links ==>
      c in t.links && t.links[c].sender == s.links[c].sender && t.links[c].reqs == s.links[c].reqs
  }

  lemma StreamsLeaveSender(cfg: R.Config, s: N.State, a: N.Action, c: ConnId)
    requires N.Enabled(cfg, s, a) && (a.Receive? || a.Internal? || a.Cut?)
    ensures SenderSideKept(s, N.Apply(cfg, s, a), c)
  {
    hide R.Enabled, R.Apply, EncodeNack, Frame;
  }

  lemma RepliesLeaveSender(cfg: R.Config, s: N.State, a: N.Action, c: ConnId)
    requires N.Enabled(cfg, s, a) && (a.SendAck? || a.AckFails? || a.HandlerExits?)
    ensures SenderSideKept(s, N.Apply(cfg, s, a), c)
  {
    hide R.Enabled, R.Apply, EncodeNack, Frame, N.Link.Reply;
  }

  lemma ReceiverLeavesSender(cfg: R.Config, s: N.State, a: N.Action, c: ConnId)
    requires N.Enabled(cfg, s, a) && OfReceiver(a)
    ensures SenderSideKept(s, N.Apply(cfg, s, a), c)
  {
    hide N.Enabled, N.Apply, SenderSideKept;
    if a.Receive? || a.Internal? || a.Cut? {
      StreamsLeaveSender(cfg, s, a, c);
    } else {
      RepliesLeaveSender(cfg, s, a, c);
    }
  }

  /** What a sender's step does to the connections: only its own changes. */
  ghost predicate OwnLinkOnly(s: N.State, a: N.Action, c: ConnId, t: N.State)
    requires a.Produce? || a.Dial? || a.Begin? || a.Write? || a.ReadReply? || a.PostCommit?
  {
    c in s.links ==>
      && c in t.links
      && (a.Produce? || a.c != c ==> t.links[c] == s.links[c])
      && ((a.Write? || a.ReadReply?) && a.c == c ==>
            t.links[c].reqs == s.links[c].reqs && (s.links[c].sender.Writing? || s.links[c].sender.Waiting?))
      && (a.Begin? && a.c == c ==> t.links[c].reqs != [] && t.links[c].Last().name == a.n)
      && (a.PostCommit? && a.c == c ==> t.links[c].sender.Between?)
  }

  lemma StartLink(cfg: R.Config, s: N.State, a: N.Action, c: ConnId)
    requires N.Enabled(cfg, s, a) && (a.Produce? || a.Dial? || a.Begin?)
    ensures OwnLinkOnly(s, a, c, N.Apply(cfg, s, a))
  {
    hide R.Enabled, R.Apply, Frame, ValidName, Sendable;
    if a.Begin? {
      BegunLink(cfg, s, a.c, a.n);
      hide N.Enabled, N.Apply;
    }
  }

  lemma BegunLink(cfg: R.Config, s: N.State, c: ConnId, n: Name)
    requires N.Enabled(cfg, s, N.Begin(c, n))
    ensures var t := N.Apply(cfg, s, N.Begin(c, n));
            && t.links.Keys == s.links.Keys && c in s.links
            && t.links[c].reqs != [] && t.links[c].Last().name == n
            && forall x :: x in s.links && x != c ==> t.links[x] == s.links[x]
  {
    hide R.Enabled, R.Apply, Frame, ValidName;
  }

  lemma TransferLink(cfg: R.Config, s: N.State, a: N.Action, c: ConnId)
    requires N.Enabled(cfg, s, a) && (a.Write? || a.ReadReply? || a.PostCommit?)
    ensures OwnLinkOnly(s, a, c, N.Apply(cfg, s, a))
  {
    hide R.Enabled, R.Apply, Frame, N.Wrote, N.GotReply;
  }

  lemma OwnLink(cfg: R.Config, s: N.State, a: N.Action, c: ConnId)
    requires N.Enabled(cfg, s, a)
    requires a.Produce? || a.Dial? || a.Begin? || a.Write? || a.ReadReply? || a.PostCommit?
    ensures OwnLinkOnly(s, a, c, N.Apply(cfg, s, a))
  {
    hide N.Enabled, N.Apply, OwnLinkOnly;
    if a.Produce? || a.Dial? || a.Begin? { StartLink(cfg, s, a, c); } else { TransferLink(cfg, s, a, c); }
  }

  /** A connection served as before: same request, same phase, same file in its worker's hands. */
  lemma ServesOn(s: State, t: State, w: nat)
    requires w in s.conns && w in t.conns && t.conns[w] == s.conns[w] && Serves(s, w)
    requires s.conns[w] in t.net.links
    requires t.net.links[s.conns[w]].sender == s.net.links[s.conns[w]].sender
    requires t.net.links[s.conns[w]].reqs == s.net.links[s.conns[w]].reqs
    requires HasFile(s, w) ==> HasFile(t, w) && t.snd.workers[w] == s.snd.workers[w]
    ensures Serves(t, w)
  {
  }

  lemma DialServes(cfg: R.Config, max: nat, s: State, act: Action, w: nat)
    requires ConnsOk(s) && Enabled(cfg, max, s, act) && act.Dial? && w in Apply(cfg, max, s, act).conns
    ensures Serves(Apply(cfg, max, s, act), w)
  {
    var t := Apply(cfg, max, s, act);
    if w == act.w {
      Dialled(cfg, s.net, act.c);
    } else {
      assert Serves(s, w);
      OwnLink(cfg, s.net, N.Dial(act.c), s.conns[w]);
      NotDialled(cfg, s.net, act.c);
      hide N.Enabled, N.Apply;
      ServesOn(s, t, w);
    }
  }

  lemma Dialled(cfg: R.Config, s: N.State, c: ConnId)
    requires N.Enabled(cfg, s, N.Dial(c))
    ensures var t := N.Apply(cfg, s, N.Dial(c)); c in t.links && t.links[c].sender.Between?
  {
    hide R.Enabled, R.Apply;
  }

  lemma NotDialled(cfg: R.Config, s: N.State, c: ConnId)
    requires N.Enabled(cfg, s, N.Dial(c))
    ensures c !in s.links
  {
    hide R.Enabled;
  }

  /** The pipeline's part of a step, if it has one. */
  lemma HolderKept(cfg: R.Config, max: nat, s: State, act: Action, w: nat)
    requires Enabled(cfg, max, s, act) && HasFile(s, w)
    requires act.Local? || act.Exit? || act.DialFails? || act.TransferFails?
    requires act.DialFails? || act.TransferFails? ==> act.w != w
    ensures var t := Apply(cfg, max, s, act); HasFile(t, w) && t.snd.workers[w] == s.snd.workers[w]
  {
    hide N.Enabled, N.Apply, S.Enabled, S.Apply, NetAfter;
    match act
    case Local(a) => HolderStays(max, s.snd, a, w);
    case Exit(v) => HolderStays(max, s.snd, ExitStep(s.snd, v), w);
    case DialFails(v, moved, sorted, wake) => HolderStays(max, s.snd, S.Fail(v, true, moved, sorted, wake), w);
    case TransferFails(v, moved, sorted, wake) => HolderStays(max, s.snd, S.Fail(v, false, moved, sorted, wake), w);
  }

  lemma OtherLinkKept(cfg: R.Config, max: nat, s: State, act: Action, w: nat)
    requires ConnsOk(s) && Enabled(cfg, max, s, act) && w in s.conns
    requires act.Local? || act.Exit? || act.DialFails? || act.TransferFails?
    requires act.Exit? || act.TransferFails? ==> act.w != w
    ensures var t := Apply(cfg, max, s, act);
            s.conns[w] in t.net.links && t.net.links[s.conns[w]] == s.net.links[s.conns[w]]
  {
    hide N.Enabled, N.Apply, S.Enabled, S.Apply, SenderAfter;
    assert Serves(s, w);
    if (act.Exit? || act.TransferFails?) && act.w in s.conns { assert s.conns[act.w] != s.conns[w]; }
  }

  /** Steps of the sender alone, and failures: the other workers' connections are as they were. */
  lemma LocalServes(cfg: R.Config, max: nat, s: State, act: Action, w: nat)
    requires ConnsOk(s) && Enabled(cfg, max, s, act) && w in Apply(cfg, max, s, act).conns
    requires act.Local? || act.Exit? || act.DialFails? || act.TransferFails?
    ensures Serves(Apply(cfg, max, s, act), w)
  {
    OtherWorker(cfg, max, s, act, w);
    hide N.Enabled, N.Apply, S.Enabled, S.Apply, Enabled, NetAfter, SenderAfter, Serves;
    OtherLinkKept(cfg, max, s, act, w);
    if HasFile(s, w) { HolderKept(cfg, max, s, act, w); }
    ServesOn(s, Apply(cfg, max, s, act), w);
  }

  lemma OtherWorker(cfg: R.Config, max: nat, s: State, act: Action, w: nat)
    requires Enabled(cfg, max, s, act) && w in ConnsAfter(s, act) && !act.Dial? && !act.Restart?
    ensures w in s.conns && (act.DialFails? || act.Exit? || act.TransferFails? ==> act.w != w)
  {
    hide N.Enabled, N.Apply, S.Enabled, S.Apply;
  }

  /** Steps on one connection. */
  lemma TransferServes(cfg: R.Config, max: nat, s: State, act: Action, w: nat)
    requires ConnsOk(s) && Enabled(cfg, max, s, act) && w in Apply(cfg, max, s, act).conns
    requires act.Begin? || act.Write? || act.ReadReply?
    ensures Serves(Apply(cfg, max, s, act), w)
  {
    hide N.Enabled, N.Apply, S.Enabled, S.Apply;
    var t := Apply(cfg, max, s, act);
    assert w in s.conns && Serves(s, w);
    var c := s.conns[act.w];
    var a := if act.Begin? then N.Begin(c, s.snd.workers[act.w].item.name)
             else if act.Write? then N.Write(c, act.k) else N.ReadReply(c);
    OwnLink(cfg, s.net, a, s.conns[w]);
    if w != act.w {
      assert s.conns[act.w] != s.conns[w];
      ServesOn(s, t, w);
    }
  }

  lemma PostCommitServes(cfg: R.Config, max: nat, s: State, act: Action, w: nat)
    requires ConnsOk(s) && Enabled(cfg, max, s, act) && w in Apply(cfg, max, s, act).conns && act.PostCommit?
    ensures Serves(Apply(cfg, max, s, act), w)
  {
    hide N.Enabled, N.Apply, S.Enabled, S.Apply;
    var t := Apply(cfg, max, s, act);
    assert w in s.conns && Serves(s, w);
    OwnLink(cfg, s.net, N.PostCommit(s.conns[act.w], act.moved), s.conns[w]);
    if w != act.w {
      assert s.conns[act.w] != s.conns[w];
      if HasFile(s, w) { HolderStays(max, s.snd, S.Deliver(act.w, act.moved), w); }
      ServesOn(s, t, w);
    }
  }

  /** Steps of the producer and of the receiver. */
  lemma ElsewhereServes(cfg: R.Config, max: nat, s: State, act: Action, w: nat)
    requires ConnsOk(s) && Enabled(cfg, max, s, act) && w in Apply(cfg, max, s, act).conns && (act.Produce? || act.Net?)
    ensures Serves(Apply(cfg, max, s, act), w)
  {
    hide N.Enabled, N.Apply, S.Enabled, S.Apply, ValidName;
    var t := Apply(cfg, max, s, act);
    assert w in s.conns && Serves(s, w);
    if act.Net? {
      ReceiverLeavesSender(cfg, s.net, act.step, s.conns[w]);
    } else {
      OwnLink(cfg, s.net, N.Produce(act.n, act.payload), s.conns[w]);
      if HasFile(s, w) && ValidName(act.n) {
        HolderStays(max, s.snd, S.Appear(act.n, Info(|act.payload|, act.modTime)), w);
      }
    }
    ServesOn(s, t, w);
  }

  lemma EachServes(cfg: R.Config, max: nat, s: State, act: Action, w: nat)
    requires ConnsOk(s) && Enabled(cfg, max, s, act) && w in Apply(cfg, max, s, act).conns && !act.Restart?
    ensures Serves(Apply(cfg, max, s, act), w)
  {
    hide Enabled, Apply, ConnsOk, Serves;
    if act.Dial? {
      DialServes(cfg, max, s, act, w);
    } else if act.Begin? || act.Write? || act.ReadReply? {
      TransferServes(cfg, max, s, act, w);
    } else if act.PostCommit? {
      PostCommitServes(cfg, max, s, act, w);
    } else if act.Produce? || act.Net? {
      ElsewhereServes(cfg, max, s, act, w);
    } else {
      LocalServes(cfg, max, s, act, w);
    }
  }

  lemma ConnsDiffer(cfg: R.Config, max: nat, s: State, act: Action, v: nat, w: nat)
    requires ConnsOk(s) && Enabled(cfg, max, s, act) && v != w && v in ConnsAfter(s, act) && w in ConnsAfter(s, act)
    ensures ConnsAfter(s, act)[v] != ConnsAfter(s, act)[w]
  {
    hide N.Enabled, N.Apply, S.Enabled, S.Apply;
    if act.Dial? {
      NotDialled(cfg, s.net, act.c);
      assert v in s.conns ==> Serves(s, v);
      assert w in s.conns ==> Serves(s, w);
    }
  }

  lemma ConnsKept(cfg: R.Config, max: nat, s: State, act: Action)
    requires ConnsOk(s) && Enabled(cfg, max, s, act)
    ensures ConnsOk(Apply(cfg, max, s, act))
  {
    hide Enabled, NetAfter, SenderAfter, Serves;
    var t := Apply(cfg, max, s, act);
    forall w | w in t.conns
      ensures Serves(t, w)
    {
      EachServes(cfg, max, s, act, w);
    }
    forall v, w | v in t.conns && w in t.conns && v != w
      ensures t.conns[v] != t.conns[w]
    {
      ConnsDiffer(cfg, max, s, act, v, w);
    }
  }

  lemma StepKeepsInv(cfg: R.Config, max: nat, s: State, act: Action)
    requires max >= 1 && Inv(cfg, max, s) && Enabled(cfg, max, s, act)
    ensures Inv(cfg, max, Apply(cfg, max, s, act))
  {
    NetKeepsInv(cfg, max, s, act);
    SenderKeepsInv(cfg, max, s, act);
    OutboxKept(cfg, max, s, act);
    SizesKept(cfg, max, s, act);
    ConnsKept(cfg, max, s, act);
    hide N.Inv, S.Inv, ConnsOk, SizesMatch, Enabled, NetAfter, SenderAfter;
  }

  // ---------- every run ----------

  ghost predicate Allowed(cfg: R.Config, max: nat, s: State, run: seq<Action>)
    decreases |run|, 0
  {
    run == [] ||
    (var front := run[..|run| - 1];
     Allowed(cfg, max, s, front) && Enabled(cfg, max, Exec(cfg, max, s, front), run[|run| - 1]))
  }

  ghost function Exec(cfg: R.Config, max: nat, s: State, run: seq<Action>): (t: State)
    requires Allowed(cfg, max, s, run)
    decreases |run|, 1
  {
    if run == [] then s
    else Apply(cfg, max, Exec(cfg, max, s, run[..|run| - 1]), run[|run| - 1])
  }

  lemma InitialInv(cfg: R.Config, max: nat, s: State)
    requires max >= 1 && Initial(s)
    ensures Inv(cfg, max, s)
  {
    S.InitialInv(max, s.snd);
    assert N.Allowed(cfg, s.net, []) && N.Exec(cfg, s.net, []) == s.net;
    N.RunKeepsInv(cfg, s.net, []);
    hide N.Inv, S.Inv, N.Allowed, N.Exec;
  }

  lemma {:induction false} RunKeepsInv(cfg: R.Config, max: nat, s: State, run: seq<Action>)
    requires max >= 1 && Inv(cfg, max, s) && Allowed(cfg, max, s, run)
    ensures Inv(cfg, max, Exec(cfg, max, s, run))
  {
    hide Inv, Enabled, Apply;
    if run != [] {
      RunKeepsInv(cfg, max, s, run[..|run| - 1]);
      StepKeepsInv(cfg, max, Exec(cfg, max, s, run[..|run| - 1]), run[|run| - 1]);
    }
  }

  // ---------- no connection outlives its worker ----------

  ghost predicate LiveConns(s: State) {
    forall w :: w in s.conns ==> S.IsWorker(s.snd, w) && !s.snd.workers[w].Exited?
  }

  lemma WorkerLives(max: nat, s: S.State, a: S.Action, w: nat)
    requires S.Enabled(max, s, a) && S.IsWorker(s, w) && !s.workers[w].Exited?
    requires S.Acts(a, w) ==> !a.Exit? && !Ends(s, a)
    ensures S.IsWorker(S.Apply(max, s, a), w) && !S.Apply(max, s, a).workers[w].Exited?
  {
    S.WorkerAfter(max, s, a, w);
    hide S.Enabled, S.Apply;
  }

  lemma ConnLives(cfg: R.Config, max: nat, s: State, act: Action, w: nat)
    requires LiveConns(s) && Enabled(cfg, max, s, act) && w in ConnsAfter(s, act)
    ensures var t := SenderAfter(cfg, max, s, act); S.IsWorker(t, w) && !t.workers[w].Exited?
  {
    hide N.Enabled, N.Apply, S.Enabled, S.Apply, ValidName;
    match act
    case Produce(n, payload, modTime) =>
      if ValidName(n) { WorkerLives(max, s.snd, S.Appear(n, Info(|payload|, modTime)), w); }
    case Local(a) => WorkerLives(max, s.snd, a, w);
    case Exit(v) => WorkerLives(max, s.snd, ExitStep(s.snd, v), w);
    case DialFails(v, moved, sorted, wake) => WorkerLives(max, s.snd, S.Fail(v, true, moved, sorted, wake), w);
    case PostCommit(v, moved) => WorkerLives(max, s.snd, S.Deliver(v, moved), w);
    case TransferFails(v, moved, sorted, wake) => WorkerLives(max, s.snd, S.Fail(v, false, moved, sorted, wake), w);
    case _ =>
  }

  /** A worker that has left its loop, at a stop or out of Pop, has closed its connection. */
  lemma {:induction false} ExitedHaveHungUp(cfg: R.Config, max: nat, s: State, run: seq<Action>)
    requires Initial(s) && Allowed(cfg, max, s, run)
    ensures LiveConns(Exec(cfg, max, s, run))
  {
    if run == [] {
      hide N.Initial, S.Initial, ValidName;
    } else {
      hide Enabled, NetAfter, SenderAfter, Initial;
      var front, act := run[..|run| - 1], run[|run| - 1];
      ExitedHaveHungUp(cfg, max, s, front);
      var t := Exec(cfg, max, s, front);
      forall w | w in ConnsAfter(t, act)
        ensures var u := SenderAfter(cfg, max, t, act); S.IsWorker(u, w) && !u.workers[w].Exited?
      {
        ConnLives(cfg, max, t, act, w);
      }
    }
  }
}
