/** What the whole system guarantees: nothing is lost, and every file that is not stranded can still be
    delivered, through the scanner, the queue and a worker, whatever has gone wrong so far. */
module Guarantees {
  import opened Bytes
  import opened Wire
  import opened Queues
  import opened Scanners
  import opened Reception
  import opened Systems
  import R = ReceiverMachine
  import N = Protocol
  import S = Pipeline
  import T = Stranding
  import H = Handover
  import D = Delivery

  // ---------- safety ----------

  /** No loss, for the whole system: whatever was archived or deleted is durable at the receiver with
      exactly its bytes, and a file that the workers still deal with is nowhere twice. */
  lemma NothingIsLost(cfg: R.Config, max: nat, s: State, run: seq<Action>)
    requires max >= 1 && Initial(s) && Allowed(cfg, max, s, run)
    ensures var t := Exec(cfg, max, s, run);
            && (forall n :: n in t.net.departed ==> N.DurablyHeld(t.net, n))
            && (forall n :: n in t.net.produced ==>
                  n in t.net.outbox || n in t.net.quarantined || N.DurablyHeld(t.net, n))
            && (forall n :: S.Owners(t.snd, n) <= 1)
            && t.snd.disk.Keys == Eligible(t.net.outbox)
  {
    InitialInv(cfg, max, s);
    RunKeepsInv(cfg, max, s, run);
    hide Initial, Allowed, Exec, N.Inv, N.DurablyHeld, ConnsOk;
    var t := Exec(cfg, max, s, run);
    N.DiskFacts(cfg, t.net);
    forall n | n in t.net.departed ensures N.DurablyHeld(t.net, n) { N.DurableMeansHeld(cfg, t.net, n); }
  }

  // ---------- runs ----------

  lemma NoSteps(cfg: R.Config, max: nat, s: State)
    ensures Allowed(cfg, max, s, []) && Exec(cfg, max, s, []) == s
  {
  }

  lemma {:induction false} Prepend(cfg: R.Config, max: nat, s: State, a: Action, run: seq<Action>)
    requires Enabled(cfg, max, s, a) && Allowed(cfg, max, Apply(cfg, max, s, a), run)
    ensures Allowed(cfg, max, s, [a] + run)
    ensures Exec(cfg, max, s, [a] + run) == Exec(cfg, max, Apply(cfg, max, s, a), run)
  {
    hide Enabled, Apply;
    var all := [a] + run;
    if run == [] {
      assert all[..0] == [] && all == [a];
      NoSteps(cfg, max, s);
    } else {
      Prepend(cfg, max, s, a, run[..|run| - 1]);
      assert all[..|all| - 1] == [a] + run[..|run| - 1];
    }
  }

  ghost predicate NoRestart(run: seq<Action>) {
    forall i :: 0 <= i < |run| ==> !run[i].Restart?
  }

  /** n has left the outbox and is durable at the receiver with exactly its bytes. */
  ghost predicate Delivered(s: State, n: Name) {
    n in s.net.departed && n !in s.net.outbox && N.DurablyHeld(s.net, n)
  }

  /** No file leaves the outbox but, perhaps, those in gone, none is stranded that was not, nothing is
      produced, and the sender goes on running. */
  ghost predicate Calm(s: State, t: State, gone: set<Name>) {
    && t.net.produced == s.net.produced && t.net.outbox == s.net.outbox - gone && s.net.departed <= t.net.departed
    && (H.Alive(s.snd) ==> H.Alive(t.snd))
    && (forall m :: T.Stranded(t.snd, m) ==> T.Stranded(s.snd, m))
  }

  lemma CalmThen(s: State, t: State, u: State, gone: set<Name>, more: set<Name>)
    requires Calm(s, t, gone) && Calm(t, u, more)
    ensures Calm(s, u, gone + more)
  {
    hide H.Alive, T.Stranded;
  }

  /** n can be delivered without restarting the sender, and without stranding or moving any other file. */
  ghost predicate Deliverable(cfg: R.Config, max: nat, s: State, n: Name) {
    exists run :: Allowed(cfg, max, s, run) && NoRestart(run) && Delivers(s, Exec(cfg, max, s, run), n)
  }

  ghost predicate Delivers(s: State, t: State, n: Name) {
    Delivered(t, n) && Calm(s, t, {n})
  }

  lemma StepThen(cfg: R.Config, max: nat, s: State, a: Action, n: Name)
    requires Enabled(cfg, max, s, a) && !a.Restart? && Calm(s, Apply(cfg, max, s, a), {})
    requires Deliverable(cfg, max, Apply(cfg, max, s, a), n)
    ensures Deliverable(cfg, max, s, n)
  {
    hide Enabled, Apply, Allowed, Exec, Delivered, Calm;
    var t := Apply(cfg, max, s, a);
    var run :| Allowed(cfg, max, t, run) && NoRestart(run) && Delivers(t, Exec(cfg, max, t, run), n);
    Prepend(cfg, max, s, a, run);
    CalmThen(s, t, Exec(cfg, max, t, run), {}, {n});
    assert {} + {n} == {n};
    assert NoRestart([a] + run);
  }

  /** A step of a transfer or of the receiver. */
  lemma TransferIsCalm(cfg: R.Config, max: nat, s: State, act: Action)
    requires Enabled(cfg, max, s, act) && Transfers(act)
    ensures Calm(s, Apply(cfg, max, s, act), {})
  {
    TransferFiles(cfg, max, s, act);
    SenderIdles(cfg, max, s, act);
    hide Enabled, NetAfter, SenderAfter, H.Alive, T.Stranded;
  }

  lemma SenderIdles(cfg: R.Config, max: nat, s: State, act: Action)
    requires Enabled(cfg, max, s, act) && Transfers(act)
    ensures SenderAfter(cfg, max, s, act) == s.snd
  {
    hide N.Enabled, S.Enabled;
  }

  // ---------- from a worker's hands to the receiver ----------

  /** r was written completely by worker w on its connection. */
  ghost predicate OnItsWay(cfg: R.Config, s: State, w: nat, r: Request) {
    && w in s.conns && HasFile(s, w) && s.snd.workers[w].item.name == r.name && r.name in s.snd.disk
    && D.Underway(cfg, s.net, s.conns[w], r)
  }

  lemma NetStep(cfg: R.Config, max: nat, s: State, a: N.Action)
    requires OfReceiver(a) && N.Enabled(cfg, s.net, a)
    ensures Enabled(cfg, max, s, Net(a)) && Apply(cfg, max, s, Net(a)) == s.(net := N.Apply(cfg, s.net, a))
  {
    hide N.Enabled, N.Apply;
  }

  lemma {:induction false} OnItsWayArrives(cfg: R.Config, max: nat, s: State, w: nat, r: Request)
    requires max >= 1 && Inv(cfg, max, s) && OnItsWay(cfg, s, w, r) && Sendable(r, cfg.maxSize)
    ensures Deliverable(cfg, max, s, r.name)
    decreases Rank(s.net.recv.handlers[s.conns[w]]), |s.net.links[s.conns[w]].up|
  {
    hide Enabled, Apply, Deliverable, Sendable, Inv, N.Enabled, N.Apply, Matches, Left, Calm;
    var c := s.conns[w];
    if s.net.recv.handlers[c].Committed? {
      Replies(cfg, max, s, w, r);
    } else {
      var a := D.StepUnderway(cfg, s.net, c, r);
      NetStep(cfg, max, s, D.Via(c, a));
      StepKeepsInv(cfg, max, s, Net(D.Via(c, a)));
      OnItsWayArrives(cfg, max, Apply(cfg, max, s, Net(D.Via(c, a))), w, r);
      TransferIsCalm(cfg, max, s, Net(D.Via(c, a)));
      StepThen(cfg, max, s, Net(D.Via(c, a)), r.name);
    }
  }

  lemma ReadStep(cfg: R.Config, max: nat, s: State, w: nat)
    requires w in s.conns && N.Enabled(cfg, s.net, N.ReadReply(s.conns[w]))
    ensures Enabled(cfg, max, s, ReadReply(w))
    ensures Apply(cfg, max, s, ReadReply(w)) == s.(net := N.Apply(cfg, s.net, N.ReadReply(s.conns[w])))
  {
    hide N.Enabled, N.Apply;
  }

  lemma PostCommitStep(cfg: R.Config, max: nat, s: State, w: nat, moved: bool)
    requires w in s.conns && HasFile(s, w) && N.Enabled(cfg, s.net, N.PostCommit(s.conns[w], moved))
    requires moved ==> s.snd.workers[w].item.name in s.snd.disk
    ensures Enabled(cfg, max, s, PostCommit(w, moved)) && S.Enabled(max, s.snd, S.Deliver(w, moved))
    ensures Apply(cfg, max, s, PostCommit(w, moved)) ==
            State(N.Apply(cfg, s.net, N.PostCommit(s.conns[w], moved)), S.Apply(max, s.snd, S.Deliver(w, moved)),
              s.conns)
  {
    hide N.Enabled, N.Apply;
  }

  /** After the commit: ACK, ReadResponse, postCommit. */
  lemma Replies(cfg: R.Config, max: nat, s: State, w: nat, r: Request)
    requires max >= 1 && Inv(cfg, max, s) && OnItsWay(cfg, s, w, r) && s.net.recv.handlers[s.conns[w]].Committed?
    ensures Deliverable(cfg, max, s, r.name)
  {
    var c := s.conns[w];
    assert r.name in s.net.outbox;
    hide Enabled, Apply, Deliverable, Inv, N.Enabled, N.Apply, S.Apply, S.Enabled, D.Underway, Calm;
    D.Replying(cfg, s.net, c, r);
    NetStep(cfg, max, s, N.SendAck(c));
    var t := Apply(cfg, max, s, Net(N.SendAck(c)));
    ReadStep(cfg, max, t, w);
    var u := Apply(cfg, max, t, ReadReply(w));
    PostCommitStep(cfg, max, u, w, true);
    StepKeepsInv(cfg, max, s, Net(N.SendAck(c)));
    StepKeepsInv(cfg, max, t, ReadReply(w));
    TransferIsCalm(cfg, max, s, Net(N.SendAck(c)));
    TransferIsCalm(cfg, max, t, ReadReply(w));
    Departs(cfg, max, u, w, r.name);
    StepThen(cfg, max, t, ReadReply(w), r.name);
    StepThen(cfg, max, s, Net(N.SendAck(c)), r.name);
  }

  /** postCommit archives or deletes the file. */
  lemma Departs(cfg: R.Config, max: nat, s: State, w: nat, n: Name)
    requires max >= 1 && Inv(cfg, max, s) && Enabled(cfg, max, s, PostCommit(w, true))
    requires HasFile(s, w) && s.snd.workers[w].item.name == n && n in s.net.outbox
    requires S.Enabled(max, s.snd, S.Deliver(w, true))
    requires var t := Apply(cfg, max, s, PostCommit(w, true));
             && t.snd == S.Apply(max, s.snd, S.Deliver(w, true))
             && t.net.departed == s.net.departed + {n} && t.net.outbox == s.net.outbox - {n}
             && t.net.produced == s.net.produced
    ensures Deliverable(cfg, max, s, n)
  {
    hide Enabled, Apply, Inv, N.Inv, S.Inv, S.Apply, S.Enabled, Allowed, Exec, H.Alive, T.Stranded, ConnsOk;
    hide N.DurablyHeld;
    var t := Apply(cfg, max, s, PostCommit(w, true));
    StepKeepsInv(cfg, max, s, PostCommit(w, true));
    DepartedIsHeld(cfg, max, t, n);
    NetInv(cfg, max, s);
    DeliverIsCalm(max, s.snd, w, true);
    NoSteps(cfg, max, t);
    Prepend(cfg, max, s, PostCommit(w, true), []);
    assert NoRestart([PostCommit(w, true)] + []);
    assert Delivers(s, t, n);
  }

  lemma DeliverIsCalm(max: nat, s: S.State, w: nat, moved: bool)
    requires S.Inv(max, s) && S.Enabled(max, s, S.Deliver(w, moved))
    ensures var t := S.Apply(max, s, S.Deliver(w, moved));
            (H.Alive(s) ==> H.Alive(t)) && (forall m :: T.Stranded(t, m) ==> T.Stranded(s, m))
  {
    var t := S.Apply(max, s, S.Deliver(w, moved));
    if H.Alive(s) { assert t.workers[w].Delivered? && !t.workers[w].Exited?; }
    S.InfosStay(max, s, S.Deliver(w, moved));
    forall m | T.Stranded(t, m)
      ensures T.Stranded(s, m)
    {
      if !T.Stranded(s, m) { T.StrandsIff(max, s, S.Deliver(w, moved), m); }
    }
  }

  lemma DepartedIsHeld(cfg: R.Config, max: nat, s: State, n: Name)
    requires Inv(cfg, max, s) && n in s.net.departed
    ensures N.DurablyHeld(s.net, n)
  {
    hide N.Inv, S.Inv, ConnsOk;
    N.DiskFacts(cfg, s.net);
    N.DurableMeansHeld(cfg, s.net, n);
  }

  lemma DialStep(cfg: R.Config, max: nat, s: State, w: nat, c: ConnId)
    requires HasFile(s, w) && w !in s.conns && N.Enabled(cfg, s.net, N.Dial(c))
    ensures Enabled(cfg, max, s, Dial(w, c))
    ensures Apply(cfg, max, s, Dial(w, c)) == State(N.Apply(cfg, s.net, N.Dial(c)), s.snd, s.conns[w := c])
  {
    hide N.Enabled, N.Apply;
  }

  lemma BeginStep(cfg: R.Config, max: nat, s: State, w: nat)
    requires HasFile(s, w) && w in s.conns && N.Enabled(cfg, s.net, N.Begin(s.conns[w], s.snd.workers[w].item.name))
    ensures Enabled(cfg, max, s, Begin(w))
    ensures Apply(cfg, max, s, Begin(w)) ==
            s.(net := N.Apply(cfg, s.net, N.Begin(s.conns[w], s.snd.workers[w].item.name)))
  {
    hide N.Enabled, N.Apply;
  }

  lemma WriteStep(cfg: R.Config, max: nat, s: State, w: nat, k: nat)
    requires w in s.conns && N.Enabled(cfg, s.net, N.Write(s.conns[w], k))
    ensures Enabled(cfg, max, s, Write(w, k))
    ensures Apply(cfg, max, s, Write(w, k)) == s.(net := N.Apply(cfg, s.net, N.Write(s.conns[w], k)))
  {
    hide N.Enabled, N.Apply;
  }

  /** A worker without connection that has n in hand dials and sends it. */
  lemma HandedUp(cfg: R.Config, max: nat, s: State, w: nat, n: Name)
    requires max >= 1 && Inv(cfg, max, s) && HasFile(s, w) && s.snd.workers[w].item.name == n && w !in s.conns
    requires s.net.recv.up && n in s.snd.disk && n in s.net.outbox && n in s.net.produced
    requires Sendable(Request(n, s.net.produced[n]), cfg.maxSize)
    ensures Deliverable(cfg, max, s, n)
  {
    hide Enabled, Apply, Deliverable, Inv, N.Inv, N.Enabled, N.Apply, Frame, D.Underway, Calm;
    NetInv(cfg, max, s);
    N.RecvFacts(cfg, s.net);
    var c := FreshNat(s.net.links.Keys, 0);
    var r, k := Request(n, s.net.produced[n]), |Frame(cfg.sha, Request(n, s.net.produced[n]))|;
    D.Sending(cfg, s.net, c, n);
    DialStep(cfg, max, s, w, c);
    var t := Apply(cfg, max, s, Dial(w, c));
    BeginStep(cfg, max, t, w);
    var u := Apply(cfg, max, t, Begin(w));
    WriteStep(cfg, max, u, w, k);
    var v := Apply(cfg, max, u, Write(w, k));
    StepKeepsInv(cfg, max, s, Dial(w, c));
    StepKeepsInv(cfg, max, t, Begin(w));
    StepKeepsInv(cfg, max, u, Write(w, k));
    OnItsWayArrives(cfg, max, v, w, r);
    TransferIsCalm(cfg, max, u, Write(w, k));
    TransferIsCalm(cfg, max, t, Begin(w));
    TransferIsCalm(cfg, max, s, Dial(w, c));
    StepThen(cfg, max, u, Write(w, k), n);
    StepThen(cfg, max, t, Begin(w), n);
    StepThen(cfg, max, s, Dial(w, c), n);
  }

  lemma NetInv(cfg: R.Config, max: nat, s: State)
    requires Inv(cfg, max, s)
    ensures N.Inv(cfg, s.net) && S.Inv(max, s.snd) && s.snd.disk.Keys == Eligible(s.net.outbox) && ConnsOk(s)
  {
    hide N.Inv, S.Inv, ConnsOk;
  }

  // ---------- into a worker's hands ----------

  /** The open connections, as far as the pipeline is concerned. */
  ghost function Open(s: State): (k: H.Conns) {
    H.Conns(s.conns.Keys, set w | w in s.conns && Acked(s, w))
  }

  lemma NotOpen(s: State)
    ensures Open(s).open == s.conns.Keys && Open(s).acked <= Open(s).open
  {
  }

  /** The step of the whole system in which the pipeline takes an unaided step; an attempt needs a
      connection to fail. */
  ghost function Lift(a: S.Action): (act: Action) {
    match a
    case Fail(w, _, _, sorted, wake) => TransferFails(w, false, sorted, wake)
    case Deliver(w, _) => PostCommit(w, false)
    case _ => Local(a)
  }

  lemma LocalStep(cfg: R.Config, max: nat, s: State, a: S.Action)
    requires OfSender(a) && !Ends(s.snd, a) && S.Enabled(max, s.snd, a)
    ensures Enabled(cfg, max, s, Local(a)) && Apply(cfg, max, s, Local(a)) == s.(snd := S.Apply(max, s.snd, a))
  {
    hide S.Enabled, S.Apply;
  }

  lemma TransferFailsStep(cfg: R.Config, max: nat, s: State, w: nat, sorted: seq<FileItem>, wake: nat)
    requires HasFile(s, w) && w in s.conns && !Acked(s, w)
    requires S.Enabled(max, s.snd, S.Fail(w, false, false, sorted, wake))
    ensures Enabled(cfg, max, s, TransferFails(w, false, sorted, wake))
    ensures Apply(cfg, max, s, TransferFails(w, false, sorted, wake)) ==
            State(HungUp(s.net, s.conns[w]), S.Apply(max, s.snd, S.Fail(w, false, false, sorted, wake)), s.conns - {w})
  {
    hide S.Enabled, S.Apply;
  }

  lemma AckedCanPost(cfg: R.Config, s: State, w: nat)
    requires ConnsOk(s) && Acked(s, w)
    ensures HasFile(s, w) && N.Enabled(cfg, s.net, N.PostCommit(s.conns[w], false))
  {
    assert Serves(s, w);
  }

  /** The facts about one lifted step that the drive needs. */
  ghost predicate Lifts(cfg: R.Config, max: nat, s: State, a: S.Action) {
    && S.Enabled(max, s.snd, a) && Enabled(cfg, max, s, Lift(a))
    && var t := Apply(cfg, max, s, Lift(a));
       && t.snd == S.Apply(max, s.snd, a) && Open(t) == Open(s).Next(a) && t.net.recv == s.net.recv
       && FilesKept(s.net, t.net)
  }

  lemma LiftTransferFails(cfg: R.Config, max: nat, s: State, a: S.Action)
    requires ConnsOk(s) && S.Enabled(max, s.snd, a) && H.Unaided(Open(s), a) && a.Fail? && a.w in s.conns
    ensures Lifts(cfg, max, s, a)
  {
    FailPhase(max, s.snd, a);
    hide Enabled, Apply, S.Enabled, S.Apply;
    TransferFailsStep(cfg, max, s, a.w, a.sorted, a.wake);
    HungUpOpen(s, Apply(cfg, max, s, Lift(a)), a.w);
  }

  lemma HungUpOpen(s: State, t: State, w: nat)
    requires ConnsOk(s) && w in s.conns && !Acked(s, w)
    requires t.net == HungUp(s.net, s.conns[w]) && t.conns == s.conns - {w}
    ensures Open(t) == Open(s).(open := Open(s).open - {w}) && FilesKept(s.net, t.net) && t.net.recv == s.net.recv
  {
    assert Serves(s, w);
    forall v | v in t.conns
      ensures Acked(t, v) <==> Acked(s, v)
    {
      assert s.conns[v] != s.conns[w];
    }
  }

  lemma FailPhase(max: nat, s: S.State, a: S.Action)
    requires S.Enabled(max, s, a) && a.Fail?
    ensures S.IsWorker(s, a.w) && s.workers[a.w].Holding?
  {
  }

  lemma LiftDeliver(cfg: R.Config, max: nat, s: State, a: S.Action)
    requires ConnsOk(s) && S.Enabled(max, s.snd, a) && H.Unaided(Open(s), a) && a.Deliver?
    ensures Lifts(cfg, max, s, a)
  {
    hide Enabled, Apply, S.Enabled, S.Apply, N.Enabled, N.Apply;
    AckedCanPost(cfg, s, a.w);
    PostCommitStep(cfg, max, s, a.w, false);
    PostedNet(cfg, s.net, s.conns[a.w]);
    var t := Apply(cfg, max, s, Lift(a));
    forall v | v in t.conns
      ensures Acked(t, v) <==> Acked(s, v) && v != a.w
    {
      assert v != a.w ==> s.conns[v] != s.conns[a.w];
    }
  }

  lemma PostedNet(cfg: R.Config, s: N.State, c: ConnId)
    requires N.Enabled(cfg, s, N.PostCommit(c, false))
    ensures N.Apply(cfg, s, N.PostCommit(c, false)) == N.Put(s, c, s.links[c].(sender := N.Between))
  {
  }

  lemma SameConns(s: State, t: State)
    requires t.net == s.net && t.conns == s.conns
    ensures Open(t) == Open(s)
  {
    assert forall v :: v in t.conns ==> (Acked(t, v) <==> Acked(s, v));
  }

  lemma LiftAlone(cfg: R.Config, max: nat, s: State, a: S.Action)
    requires S.Enabled(max, s.snd, a) && H.Unaided(Open(s), a) && !a.Deliver? && !a.Fail?
    requires !Ends(s.snd, a)
    ensures Lifts(cfg, max, s, a)
  {
    LocalStep(cfg, max, s, a);
    hide Enabled, Apply, S.Enabled, S.Apply, Open;
    SameConns(s, Apply(cfg, max, s, Lift(a)));
  }

  lemma LiftStep(cfg: R.Config, max: nat, s: State, a: S.Action)
    requires ConnsOk(s) && S.Enabled(max, s.snd, a) && H.Unaided(Open(s), a) && (a.Fail? ==> a.w in s.conns)
    requires !Ends(s.snd, a)
    ensures Lifts(cfg, max, s, a) && !Lift(a).Restart?
  {
    hide Lifts, S.Enabled, ConnsOk, Open;
    if a.Fail? {
      LiftTransferFails(cfg, max, s, a);
    } else if a.Deliver? {
      LiftDeliver(cfg, max, s, a);
    } else {
      LiftAlone(cfg, max, s, a);
    }
  }

  /** A lifted step strands nobody, since it neither dials in vain nor pushes to a stopped queue. */
  lemma LiftIsCalm(cfg: R.Config, max: nat, s: State, a: S.Action)
    requires S.Inv(max, s.snd) && Lifts(cfg, max, s, a) && H.Unaided(Open(s), a) && H.Alive(s.snd)
    requires a.Pop? ==> s.snd.q.items != []
    ensures Calm(s, Apply(cfg, max, s, Lift(a)), {})
  {
    hide S.Inv, S.Enabled, S.Apply, Enabled, Apply, T.Stranded, Open;
    H.NobodyStranded(max, s.snd, Open(s), a);
    H.StaysAlive(max, s.snd, Open(s), a);
  }

  // ---------- a worker dials so that its attempt can fail ----------

  /** The same state for the pipeline, with a new connection for worker w. */
  ghost predicate Redialled(s: State, t: State, w: nat) {
    && t.snd == s.snd && t.conns.Keys == s.conns.Keys + {w} && Open(t) == Open(s).(open := Open(s).open + {w})
    && t.net.recv.up && FilesKept(s.net, t.net)
  }

  lemma Redial(cfg: R.Config, max: nat, s: State, w: nat) returns (c: ConnId)
    requires max >= 1 && Inv(cfg, max, s) && HasFile(s, w) && w !in s.conns && s.net.recv.up
    ensures Enabled(cfg, max, s, Dial(w, c))
    ensures var t := Apply(cfg, max, s, Dial(w, c)); Inv(cfg, max, t) && Redialled(s, t, w)
  {
    hide Enabled, Apply, Inv, N.Inv, R.Inv, N.Enabled, N.Apply, ConnsOk, Open;
    NetInv(cfg, max, s);
    N.RecvFacts(cfg, s.net);
    c := FreshNat(s.net.links.Keys, 0);
    D.DialIs(cfg, s.net, c);
    DialStep(cfg, max, s, w, c);
    StepKeepsInv(cfg, max, s, Dial(w, c));
    DialledOpen(s, Apply(cfg, max, s, Dial(w, c)), w, c);
  }

  lemma DialledOpen(s: State, t: State, w: nat, c: ConnId)
    requires ConnsOk(s) && w !in s.conns && c !in s.net.links && t.conns == s.conns[w := c]
    requires t.net.links.Keys == s.net.links.Keys + {c} && t.net.links[c].sender.Between?
    requires forall x :: x in s.net.links ==> t.net.links[x] == s.net.links[x]
    ensures Open(t) == Open(s).(open := Open(s).open + {w})
  {
    forall v | v in s.conns
      ensures Acked(t, v) <==> Acked(s, v)
    {
      assert Serves(s, v);
    }
  }

  /** After dialling, the attempt fails: the pipeline's step as if without connection. */
  lemma DialledFails(max: nat, s: S.State, k: H.Conns, a: S.Action)
    requires S.Enabled(max, s, a) && a.Fail? && a.w !in k.open && H.Unaided(k, a)
    ensures var j := k.(open := k.open + {a.w}); H.Unaided(j, a) && j.Next(a) == k.Next(a)
  {
    assert (k.open + {a.w}) - {a.w} == k.open == k.open - {a.w};
  }

  /** Everything that the drive needs to know about a lifted step. */
  lemma LiftedOn(cfg: R.Config, max: nat, s: State, a: S.Action)
    requires max >= 1 && Inv(cfg, max, s) && H.Alive(s.snd) && S.Enabled(max, s.snd, a) && H.Unaided(Open(s), a)
    requires (a.Fail? ==> a.w in s.conns) && (a.Pop? ==> s.snd.q.items != [])
    ensures Enabled(cfg, max, s, Lift(a)) && !Lift(a).Restart?
    ensures var t := Apply(cfg, max, s, Lift(a));
            && Inv(cfg, max, t) && H.Alive(t.snd) && t.net.recv.up == s.net.recv.up && FilesKept(s.net, t.net)
            && t.snd == S.Apply(max, s.snd, a) && Open(t) == Open(s).Next(a) && Calm(s, t, {})
  {
    hide Inv, Enabled, Apply, S.Enabled, S.Apply, S.Inv, N.Inv, ConnsOk, Open, H.Unaided, T.Stranded;
    NetInv(cfg, max, s);
    LiftStep(cfg, max, s, a);
    LiftIsCalm(cfg, max, s, a);
    StepKeepsInv(cfg, max, s, Lift(a));
  }

  lemma IsThere(cfg: R.Config, max: nat, s: State, n: Name)
    requires Inv(cfg, max, s) && n in s.net.outbox && n in s.net.produced
    requires Sendable(Request(n, s.net.produced[n]), cfg.maxSize)
    ensures n in s.snd.disk
  {
    hide N.Inv, S.Inv, ConnsOk;
    assert n in Eligible(s.net.outbox);
  }

  lemma {:induction false} WaitingDelivers(cfg: R.Config, max: nat, s: State, n: Name)
    requires max >= 1 && Inv(cfg, max, s) && H.Alive(s.snd) && s.net.recv.up
    requires H.Waiting(max, s.snd, Open(s), n) || H.Handed(s.snd, Open(s), n)
    requires n in s.net.outbox && n in s.net.produced && Sendable(Request(n, s.net.produced[n]), cfg.maxSize)
    ensures Deliverable(cfg, max, s, n)
    decreases Open(s).Size(), H.Stage(s.snd, n), H.First(max, s.snd, n), H.Second(s.snd, n), H.Third(s.snd, n)
  {
    hide Enabled, Apply, Deliverable, Inv, N.Inv, S.Enabled, S.Apply, ConnsOk, Sendable, T.Stranded, S.Inv, Calm;
    hide H.Stage, H.First, H.Second, H.Third, Open, H.Unaided, H.Alive;
    NotOpen(s);
    IsThere(cfg, max, s, n);
    if H.Handed(s.snd, Open(s), n) {
      var w :| H.HeldBy(s.snd, w, n) && w !in Open(s).open;
      HandedUp(cfg, max, s, w, n);
    } else {
      var a := H.Approach(max, s.snd, Open(s), n);
      if a.Fail? && a.w !in s.conns {
        FailPhase(max, s.snd, a);
        var c := Redial(cfg, max, s, a.w);
        var t := Apply(cfg, max, s, Dial(a.w, c));
        DialledFails(max, s.snd, Open(s), a);
        LiftedOn(cfg, max, t, a);
        WaitingDelivers(cfg, max, Apply(cfg, max, t, Lift(a)), n);
        StepThen(cfg, max, t, Lift(a), n);
        TransferIsCalm(cfg, max, s, Dial(a.w, c));
        StepThen(cfg, max, s, Dial(a.w, c), n);
      } else {
        LiftedOn(cfg, max, s, a);
        WaitingDelivers(cfg, max, Apply(cfg, max, s, Lift(a)), n);
        StepThen(cfg, max, s, Lift(a), n);
      }
    }
  }

  // ---------- from any reachable state ----------

  lemma BootFirst(cfg: R.Config, max: nat, s: State)
    requires max >= 1 && Inv(cfg, max, s) && !s.net.recv.up
    ensures var boot := Net(N.Internal(R.Boot({})));
            && Enabled(cfg, max, s, boot)
            && var t := Apply(cfg, max, s, boot);
               Inv(cfg, max, t) && t.net.recv.up && t.snd == s.snd && FilesKept(s.net, t.net) && Calm(s, t, {})
  {
    var boot := N.Internal(R.Boot({}));
    D.Booting(cfg, s.net);
    NetStep(cfg, max, s, boot);
    TransferIsCalm(cfg, max, s, Net(boot));
    hide Enabled, Apply, Inv, N.Enabled, N.Apply, Calm;
    StepKeepsInv(cfg, max, s, Net(boot));
  }

  lemma NotStrandedDelivers(cfg: R.Config, max: nat, s: State, n: Name)
    requires max >= 1 && Inv(cfg, max, s) && H.Alive(s.snd) && !T.Stranded(s.snd, n)
    requires n in s.net.outbox && n in s.net.produced && Sendable(Request(n, s.net.produced[n]), cfg.maxSize)
    ensures Deliverable(cfg, max, s, n)
  {
    hide Enabled, Apply, Inv, N.Inv, S.Inv, Calm, Sendable, ConnsOk, Deliverable, T.Stranded, H.Alive, H.Handed;
    var boot := Net(N.Internal(R.Boot({})));
    if !s.net.recv.up { BootFirst(cfg, max, s); }
    var t := if s.net.recv.up then s else Apply(cfg, max, s, boot);
    IsThere(cfg, max, t, n);
    NetInv(cfg, max, t);
    NotOpen(t);
    WaitingDelivers(cfg, max, t, n);
    if !s.net.recv.up { StepThen(cfg, max, s, boot, n); }
  }

  /** What the pipeline does in a step of the whole system without restart. */
  lemma StrandedStays(cfg: R.Config, max: nat, s: State, act: Action, n: Name)
    requires S.Inv(max, s.snd) && Enabled(cfg, max, s, act) && !act.Restart? && T.Stranded(s.snd, n)
    ensures T.Stranded(SenderAfter(cfg, max, s, act), n)
  {
    hide N.Enabled, N.Apply, S.Inv, S.Enabled, S.Apply, ValidName, T.Stranded;
    match act
    case Produce(m, payload, modTime) =>
      if ValidName(m) { T.StrandedStep(max, s.snd, S.Appear(m, Info(|payload|, modTime)), n); }
    case Local(a) => T.StrandedStep(max, s.snd, a, n);
    case Exit(w) => T.StrandedStep(max, s.snd, ExitStep(s.snd, w), n);
    case DialFails(w, moved, sorted, wake) => T.StrandedStep(max, s.snd, S.Fail(w, true, moved, sorted, wake), n);
    case PostCommit(w, moved) => T.StrandedStep(max, s.snd, S.Deliver(w, moved), n);
    case TransferFails(w, moved, sorted, wake) => T.StrandedStep(max, s.snd, S.Fail(w, false, moved, sorted, wake), n);
    case _ =>
  }

  lemma {:induction false} StrandedForever(cfg: R.Config, max: nat, s: State, run: seq<Action>, n: Name)
    requires max >= 1 && Inv(cfg, max, s) && Allowed(cfg, max, s, run) && NoRestart(run) && T.Stranded(s.snd, n)
    ensures Inv(cfg, max, Exec(cfg, max, s, run)) && T.Stranded(Exec(cfg, max, s, run).snd, n)
  {
    hide Inv, Enabled, SenderAfter, NetAfter, T.Stranded, S.Inv;
    if run != [] {
      var front, a := run[..|run| - 1], run[|run| - 1];
      StrandedForever(cfg, max, s, front, n);
      var t := Exec(cfg, max, s, front);
      StepKeepsInv(cfg, max, t, a);
      NetInv(cfg, max, t);
      StrandedStays(cfg, max, t, a, n);
    }
  }

  lemma StrandedIsThere(cfg: R.Config, max: nat, s: State, n: Name)
    requires Inv(cfg, max, s) && T.Stranded(s.snd, n)
    ensures !Delivered(s, n)
  {
    hide N.Inv, S.Inv, ConnsOk, ValidName, N.DurablyHeld;
    assert n in Eligible(s.net.outbox);
  }

  /** Delivery stays possible. Take any reachable state of a running sender, after any failures, cuts
      and receiver crashes, and any file in the outbox with a valid name and a size within the limits:
      without restarting the sender, and without stranding or moving any other file, it can still be
      delivered, through scan, queue and worker, durably and exactly, if and only if it is not stranded. */
  lemma DeliverableIff(cfg: R.Config, max: nat, s: State, run: seq<Action>, n: Name)
    requires max >= 1 && Initial(s) && Allowed(cfg, max, s, run)
    requires var t := Exec(cfg, max, s, run);
             && H.Alive(t.snd) && n in t.net.outbox && n in t.net.produced
             && Sendable(Request(n, t.net.produced[n]), cfg.maxSize)
    ensures var t := Exec(cfg, max, s, run);
            Deliverable(cfg, max, t, n) <==> !T.Stranded(t.snd, n)
  {
    hide Inv, Initial, Allowed, Exec, T.Stranded, Delivered, Sendable, H.Alive, Calm;
    var t := Exec(cfg, max, s, run);
    InitialInv(cfg, max, s);
    RunKeepsInv(cfg, max, s, run);
    if T.Stranded(t.snd, n) {
      forall more | Allowed(cfg, max, t, more) && NoRestart(more)
        ensures !Delivered(Exec(cfg, max, t, more), n)
      {
        StrandedForever(cfg, max, t, more, n);
        StrandedIsThere(cfg, max, Exec(cfg, max, t, more), n);
      }
    } else {
      NotStrandedDelivers(cfg, max, t, n);
    }
  }

  // ---------- all files together ----------

  lemma {:induction false} Join(cfg: R.Config, max: nat, s: State, run: seq<Action>, more: seq<Action>)
    requires Allowed(cfg, max, s, run) && Allowed(cfg, max, Exec(cfg, max, s, run), more)
    ensures Allowed(cfg, max, s, run + more)
    ensures Exec(cfg, max, s, run + more) == Exec(cfg, max, Exec(cfg, max, s, run), more)
  {
    hide Enabled, Apply;
    if more == [] {
      assert run + more == run;
    } else {
      Join(cfg, max, s, run, more[..|more| - 1]);
      assert (run + more)[..|run + more| - 1] == run + more[..|more| - 1];
    }
  }

  /** A file that the receiver takes and that is not stranded. */
  ghost predicate Acceptable(cfg: R.Config, s: State, n: Name) {
    && n in s.net.outbox && n in s.net.produced && Sendable(Request(n, s.net.produced[n]), cfg.maxSize)
    && !T.Stranded(s.snd, n)
  }

  /** From s to t every acceptable file was delivered, and none was stranded. */
  ghost predicate Cleared(cfg: R.Config, s: State, t: State) {
    && (forall n :: Acceptable(cfg, s, n) ==> Delivered(t, n))
    && (forall m :: T.Stranded(t.snd, m) ==> T.Stranded(s.snd, m))
    && t.net.outbox <= s.net.outbox && s.net.departed <= t.net.departed
  }

  ghost predicate Clearable(cfg: R.Config, max: nat, s: State) {
    exists run :: Allowed(cfg, max, s, run) && NoRestart(run) && Cleared(cfg, s, Exec(cfg, max, s, run))
  }

  /** What one delivery leaves for the others. */
  lemma OthersWait(cfg: R.Config, max: nat, s: State, t: State, u: State, n: Name)
    requires Delivers(s, t, n) && Cleared(cfg, t, u) && Inv(cfg, max, u)
    ensures Cleared(cfg, s, u)
  {
    hide Inv, T.Stranded, H.Alive, Sendable, N.DurablyHeld;
    forall m | Acceptable(cfg, s, m)
      ensures Delivered(u, m)
    {
      if m == n {
        DepartedIsHeld(cfg, max, u, m);
      } else {
        assert Acceptable(cfg, t, m);
      }
    }
  }

  lemma {:induction false} AllClearable(cfg: R.Config, max: nat, s: State)
    requires max >= 1 && Inv(cfg, max, s) && H.Alive(s.snd)
    ensures Clearable(cfg, max, s)
    decreases |s.net.outbox|
  {
    hide Inv, Enabled, Apply, Allowed, Exec, T.Stranded, H.Alive, Sendable, Delivered, Cleared;
    if n :| Acceptable(cfg, s, n) {
      NotStrandedDelivers(cfg, max, s, n);
      var run :| Allowed(cfg, max, s, run) && NoRestart(run) && Delivers(s, Exec(cfg, max, s, run), n);
      var t := Exec(cfg, max, s, run);
      RunKeepsInv(cfg, max, s, run);
      Fewer(s.net.outbox, n);
      AllClearable(cfg, max, t);
      var more :| Allowed(cfg, max, t, more) && NoRestart(more) && Cleared(cfg, t, Exec(cfg, max, t, more));
      RunKeepsInv(cfg, max, t, more);
      OthersWait(cfg, max, s, t, Exec(cfg, max, t, more), n);
      Join(cfg, max, s, run, more);
      assert NoRestart(run + more);
    } else {
      NoSteps(cfg, max, s);
      NothingToClear(cfg, s);
      assert NoRestart([]);
    }
  }

  lemma Fewer(outbox: set<Name>, n: Name)
    requires n in outbox
    ensures |outbox - {n}| < |outbox|
  {
  }

  lemma NothingToClear(cfg: R.Config, s: State)
    requires forall n :: !Acceptable(cfg, s, n)
    ensures Cleared(cfg, s, s)
  {
    hide Acceptable, T.Stranded, Delivered;
  }

  /** One continuation delivers everything: in every reachable state of a running sender, without a
      restart, every acceptable file of the outbox that is not stranded can be delivered in one go,
      and no further file is stranded on the way. */
  lemma EverythingDeliverable(cfg: R.Config, max: nat, s: State, run: seq<Action>)
    requires max >= 1 && Initial(s) && Allowed(cfg, max, s, run) && H.Alive(Exec(cfg, max, s, run).snd)
    ensures Clearable(cfg, max, Exec(cfg, max, s, run))
  {
    hide Inv, Initial, Allowed, Exec, H.Alive, Clearable;
    InitialInv(cfg, max, s);
    RunKeepsInv(cfg, max, s, run);
    AllClearable(cfg, max, Exec(cfg, max, s, run));
  }

  // ---------- restarts ----------

  /** Every restart cures: take any reachable state, with the sender stopped or not, and any restart of
      it, with whatever files restored, times listed and workers started. Then every acceptable file of
      the outbox can be delivered, each alone and all in one go. */
  lemma DeliverableAfterRestart(cfg: R.Config, max: nat, s: State, run: seq<Action>, act: Action)
    requires max >= 1 && Initial(s) && Allowed(cfg, max, s, run)
    requires act.Restart? && act.count >= 1 && Enabled(cfg, max, Exec(cfg, max, s, run), act)
    ensures var t := Apply(cfg, max, Exec(cfg, max, s, run), act);
            && Clearable(cfg, max, t)
            && forall n :: n in t.net.outbox && n in t.net.produced
                           && Sendable(Request(n, t.net.produced[n]), cfg.maxSize) ==>
                 Acceptable(cfg, t, n) && Deliverable(cfg, max, t, n)
  {
    hide Inv, Initial, Allowed, Exec, Enabled, Apply, T.Stranded, Sendable, H.Alive, Deliverable, Clearable;
    var u := Exec(cfg, max, s, run);
    InitialInv(cfg, max, s);
    RunKeepsInv(cfg, max, s, run);
    StepKeepsInv(cfg, max, u, act);
    var t := Apply(cfg, max, u, act);
    RestartedSender(cfg, max, u, act);
    FreshSender(act.disk, act.count);
    AllClearable(cfg, max, t);
    forall n | n in t.net.outbox && n in t.net.produced && Sendable(Request(n, t.net.produced[n]), cfg.maxSize)
      ensures Deliverable(cfg, max, t, n)
    {
      NotStrandedDelivers(cfg, max, t, n);
    }
  }

  lemma RestartedSender(cfg: R.Config, max: nat, s: State, act: Action)
    requires Enabled(cfg, max, s, act) && act.Restart?
    ensures Apply(cfg, max, s, act).snd == Started(act.disk, act.count)
  {
    hide N.Enabled, N.Apply, S.Enabled, S.Apply;
  }

  lemma FreshSender(disk: Listing, count: nat)
    requires count >= 1
    ensures var t := Started(disk, count); H.Alive(t) && forall n :: !T.Stranded(t, n)
  {
    assert !Started(disk, count).workers[0].Exited?;
  }

  /** A restart is always possible, with any of the departed and quarantined files restored. */
  lemma RestartPossible(cfg: R.Config, max: nat, s: State, restored: set<Name>, count: nat) returns (disk: Listing)
    requires Inv(cfg, max, s) && restored <= s.net.quarantined + s.net.departed
    ensures Enabled(cfg, max, s, Restart(restored, disk, count))
  {
    hide Inv, N.Inv, N.Enabled, N.Apply, Eligible, SizesMatch;
    NetInv(cfg, max, s);
    N.DiskFacts(cfg, s.net);
    RestartedNet(cfg, s.net, restored);
    disk := SomeListing(s.net.outbox + restored, s.net.produced);
  }

  lemma SomeListing(outbox: set<Name>, produced: map<Name, seq<byte>>) returns (disk: Listing)
    requires outbox <= produced.Keys
    ensures disk.Keys == Eligible(outbox) && SizesMatch(disk, produced)
  {
    hide ValidName;
    disk := map n | n in Eligible(outbox) :: Info(|produced[n]|, 0);
  }

  lemma RestartedNet(cfg: R.Config, s: N.State, restored: set<Name>)
    requires restored <= s.quarantined + s.departed
    ensures N.Enabled(cfg, s, N.SenderCrash(restored))
    ensures N.Apply(cfg, s, N.SenderCrash(restored)).outbox == s.outbox + restored
  {
  }
}
