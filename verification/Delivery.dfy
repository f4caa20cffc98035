/** One request on its way through the protocol: from a fresh connection to the commit, the ACK and
    the departure of the source file, and what a rejection after the rename leads to. */
module Delivery {
  import opened Bytes
  import opened Wire
  import opened Disks
  import opened Reception
  import opened Protocol
  import R = ReceiverMachine
  import Dur = Durability

  // ---------- runs ----------

  lemma {:induction false} Prepend(cfg: R.Config, s: State, a: Action, run: seq<Action>)
    requires Enabled(cfg, s, a) && Allowed(cfg, Apply(cfg, s, a), run)
    ensures Allowed(cfg, s, [a] + run) && Exec(cfg, s, [a] + run) == Exec(cfg, Apply(cfg, s, a), run)
  {
    hide Enabled, Apply;
    var all := [a] + run;
    if run == [] {
      assert all[..0] == [] && all == [a];
      NoSteps(cfg, s);
    } else {
      Prepend(cfg, s, a, run[..|run| - 1]);
      assert all[..|all| - 1] == [a] + run[..|run| - 1];
    }
  }

  lemma NoSteps(cfg: R.Config, s: State)
    ensures Allowed(cfg, s, []) && Exec(cfg, s, []) == s
  {
  }

  // ---------- one request on its way ----------

  /** r has been written completely on connection c; the handler is in step with it. */
  ghost predicate Underway(cfg: R.Config, s: State, c: ConnId, r: Request) {
    && c in s.links && c in s.recv.handlers && r.name in s.outbox
    && s.links[c].sender == Waiting && s.links[c].reqs != [] && s.links[c].Last() == r
    && s.links[c].down == [] && !s.links[c].downCut
    && Matches(cfg, s.recv.disk, s.recv.handlers[c], r)
    && s.links[c].up == Left(cfg, s.recv.disk, s.recv.handlers[c], r)
  }

  /** The protocol step in which handler c takes step a. */
  ghost function Via(c: ConnId, a: R.Action): (act: Action) {
    if a.Feed? then Receive(c, |a.chunk|) else Internal(a)
  }

  lemma ReceiveIs(cfg: R.Config, s: State, c: ConnId, chunk: seq<byte>)
    requires c in s.links && chunk <= s.links[c].up && chunk != [] && R.Enabled(cfg, s.recv, R.Feed(c, chunk))
    ensures Enabled(cfg, s, Receive(c, |chunk|))
    ensures var l := s.links[c];
            Apply(cfg, s, Receive(c, |chunk|)) ==
              Put(s, c, l.(up := l.up[|chunk|..])).(recv := R.Apply(cfg, s.recv, R.Feed(c, chunk)))
  {
    hide R.Enabled, R.Apply;
    assert s.links[c].up[..|chunk|] == chunk;
  }

  lemma InternalIs(cfg: R.Config, s: State, a: R.Action)
    requires IsCommitStep(a) && R.Enabled(cfg, s.recv, a)
    ensures Enabled(cfg, s, Internal(a)) && Apply(cfg, s, Internal(a)) == s.(recv := R.Apply(cfg, s.recv, a))
  {
    hide R.Enabled, R.Apply;
  }

  lemma AdvancesBy(cfg: R.Config, s: R.State, c: ConnId, r: Request, a: R.Action, t: R.State)
    requires Advances(cfg, s, c, r, a, t)
    ensures a.Feed? || IsCommitStep(a)
    ensures c in s.handlers && Matches(cfg, s.disk, s.handlers[c], r)
    ensures c in t.handlers && Matches(cfg, t.disk, t.handlers[c], r)
    ensures var before, after := Left(cfg, s.disk, s.handlers[c], r), Left(cfg, t.disk, t.handlers[c], r);
            if a.Feed? then
              && a.c == c && a.chunk != [] && a.chunk <= before && after == before[|a.chunk|..]
              && Rank(t.handlers[c]) == Rank(s.handlers[c])
            else after == before && Rank(t.handlers[c]) == Rank(s.handlers[c]) - 1
  {
    hide Matches, Left, R.Need;
  }

  /** While r is not committed, some step of its handler is possible and brings it closer. */
  lemma StepUnderway(cfg: R.Config, s: State, c: ConnId, r: Request) returns (a: R.Action)
    requires Underway(cfg, s, c, r) && Sendable(r, cfg.maxSize) && !s.recv.handlers[c].Committed?
    ensures a.Feed? || IsCommitStep(a)
    ensures Enabled(cfg, s, Via(c, a))
    ensures var t := Apply(cfg, s, Via(c, a));
            && Underway(cfg, t, c, r) && t.links.Keys == s.links.Keys && t.outbox == s.outbox
              && t.produced == s.produced
            && if a.Feed? then
                 Rank(t.recv.handlers[c]) == Rank(s.recv.handlers[c]) && |t.links[c].up| < |s.links[c].up|
               else Rank(t.recv.handlers[c]) == Rank(s.recv.handlers[c]) - 1
  {
    hide R.Enabled, R.Apply, Enabled, Apply, Advances, Matches, Left, Sendable;
    a := NextStep(cfg, s.recv, c, r);
    AdvancesBy(cfg, s.recv, c, r, a, R.Apply(cfg, s.recv, a));
    if a.Feed? { ReceiveIs(cfg, s, c, a.chunk); } else { InternalIs(cfg, s, a); }
  }

  /** After the commit: the ACK is sent, read, and the source file moved. */
  lemma Replying(cfg: R.Config, s: State, c: ConnId, r: Request)
    requires Underway(cfg, s, c, r) && s.recv.handlers[c].Committed?
    ensures Enabled(cfg, s, SendAck(c))
    ensures var t := Apply(cfg, s, SendAck(c));
            && t.links.Keys == s.links.Keys && t.outbox == s.outbox
            && Enabled(cfg, t, ReadReply(c))
            && var u := Apply(cfg, t, ReadReply(c));
               && u.links.Keys == s.links.Keys && u.links[c].sender.Acked?
               && u.outbox == s.outbox && u.departed == s.departed && u.produced == s.produced
               && u.links[c].reqs != [] && u.links[c].Last() == r && Enabled(cfg, u, PostCommit(c, true))
               && var v := Apply(cfg, u, PostCommit(c, true));
                  && v.departed == s.departed + {r.name} && v.outbox == s.outbox - {r.name}
                  && v.produced == s.produced
  {
    hide Matches, Left, R.Need, R.Complete, ParseHeader;
  }

  lemma Sending(cfg: R.Config, s: State, c: ConnId, n: Name)
    requires s.recv.up && c !in s.links && c !in s.recv.handlers && n in s.outbox && n in s.produced
    requires ValidName(n) && |s.produced[n]| < INT64_LIMIT
    ensures Enabled(cfg, s, Dial(c))
    ensures var t := Apply(cfg, s, Dial(c));
            && t.links.Keys == s.links.Keys + {c} && t.outbox == s.outbox && t.produced == s.produced
              && t.links[c].sender.Between?
            && Enabled(cfg, t, Begin(c, n))
            && var u, k := Apply(cfg, t, Begin(c, n)), |Frame(cfg.sha, Request(n, s.produced[n]))|;
               && u.links.Keys == t.links.Keys && u.outbox == s.outbox && Enabled(cfg, u, Write(c, k))
               && var v := Apply(cfg, u, Write(c, k));
                  c in v.recv.handlers && v.recv.handlers[c] == R.Reading([]) &&
                  Underway(cfg, v, c, Request(n, s.produced[n])) && v.links.Keys == t.links.Keys && v.outbox == s.outbox
  {
    hide ValidName, Frame, Digest, Enabled, Apply;
    var r := Request(n, s.produced[n]);
    var f := Frame(cfg.sha, r);
    DialIs(cfg, s, c);
    var t := Apply(cfg, s, Dial(c));
    BeginIs(cfg, t, c, n);
    var u := Apply(cfg, t, Begin(c, n));
    assert [] + f == f && f[..|f|] == f && f[|f|..] == [] && f[0..] == f && [] + [r] == [r];
    WriteIs(cfg, u, c, |f|);
  }

  lemma DialIs(cfg: R.Config, s: State, c: ConnId)
    requires s.recv.up && c !in s.links && c !in s.recv.handlers
    ensures Enabled(cfg, s, Dial(c))
    ensures Apply(cfg, s, Dial(c)) ==
            Put(s, c, Link([], 0, 0, [], false, [], false, Between)).(recv := R.Move(s.recv, c, R.Reading([])))
  {
    hide R.Need, R.Complete, ParseHeader;
  }

  lemma BeginIs(cfg: R.Config, s: State, c: ConnId, n: Name)
    requires c in s.links && s.links[c].sender.Between? && n in s.outbox && n in s.produced
    requires ValidName(n) && |s.produced[n]| < INT64_LIMIT
    ensures Enabled(cfg, s, Begin(c, n))
    ensures var l, r := s.links[c], Request(n, s.produced[n]);
            Apply(cfg, s, Begin(c, n)) == Put(s, c, l.(reqs := l.reqs + [r], sender := Writing(Frame(cfg.sha, r))))
  {
    hide ValidName, Frame;
  }

  lemma WriteIs(cfg: R.Config, s: State, c: ConnId, k: nat)
    requires c in s.links && s.links[c].sender.Writing? && 0 < k <= |s.links[c].sender.rest|
    ensures Enabled(cfg, s, Write(c, k)) && Apply(cfg, s, Write(c, k)) == Put(s, c, Wrote(s.links[c], k))
  {
    hide Wrote;
  }

  lemma Booting(cfg: R.Config, s: State)
    requires !s.recv.up
    ensures Enabled(cfg, s, Internal(R.Boot({})))
    ensures var t := Apply(cfg, s, Internal(R.Boot({})));
            t.recv.up && t.recv.handlers == s.recv.handlers && t == s.(recv := t.recv)
  {
    hide TmpNames;
  }

  // ---------- a rejected file that is durable ----------

  lemma {:induction false} Join(cfg: R.Config, s: State, run: seq<Action>, more: seq<Action>)
    requires Allowed(cfg, s, run) && Allowed(cfg, Exec(cfg, s, run), more)
    ensures Allowed(cfg, s, run + more) && Exec(cfg, s, run + more) == Exec(cfg, Exec(cfg, s, run), more)
  {
    hide Enabled, Apply;
    if more == [] {
      assert run + more == run;
    } else {
      Join(cfg, s, run, more[..|more| - 1]);
      assert (run + more)[..|run + more| - 1] == run + more[..|more| - 1];
    }
  }

  /** The handler alone can bring r to any later phase. */
  lemma {:induction false} Bring(cfg: R.Config, s: State, c: ConnId, r: Request, rank: nat) returns (run: seq<Action>)
    requires Underway(cfg, s, c, r) && Sendable(r, cfg.maxSize) && rank <= Rank(s.recv.handlers[c])
    ensures Allowed(cfg, s, run)
    ensures Underway(cfg, Exec(cfg, s, run), c, r) && Rank(Exec(cfg, s, run).recv.handlers[c]) == rank
    decreases Rank(s.recv.handlers[c]), |s.links[c].up|
  {
    hide Enabled, Apply, Allowed, Exec, Sendable, Matches, Left;
    if Rank(s.recv.handlers[c]) == rank {
      NoSteps(cfg, s);
      run := [];
    } else {
      var a := StepUnderway(cfg, s, c, r);
      var rest := Bring(cfg, Apply(cfg, s, Via(c, a)), c, r, rank);
      Prepend(cfg, s, Via(c, a), rest);
      run := [Via(c, a)] + rest;
    }
  }

  /** The outcome of a crash in which the pending rename of n survives. */
  ghost function Surviving(d: Disk, n: Name, i: Inode): (e: Disk) {
    d.(names := d.durable[n := i], durable := d.durable[n := i], pending := {})
  }

  lemma Renaming(cfg: R.Config, s: State, c: ConnId)
    requires c in s.recv.handlers && s.recv.handlers[c].Closed?
    ensures Enabled(cfg, s, Internal(R.Rename(c)))
    ensures var p := s.recv.handlers[c];
            Apply(cfg, s, Internal(R.Rename(c))) ==
              s.(recv := R.Move(s.recv, c, R.Renamed(p.name)).(disk := s.recv.disk.Rename(p.tmp, p.ino, p.name)))
  {
    Dur.CommitSteps(cfg, s.recv, c);
    InternalIs(cfg, s, R.Rename(c));
    hide Enabled, Apply, R.Enabled, R.Apply;
  }

  lemma Rejecting(cfg: R.Config, s: State, c: ConnId, msg: seq<byte>)
    requires c in s.links && c in s.recv.handlers && s.recv.handlers[c].Renamed?
    ensures var exit := HandlerExits(c, true, msg, |EncodeNack(msg)|);
            && Enabled(cfg, s, exit)
            && Apply(cfg, s, exit) ==
                 Put(s, c, s.links[c].Reply(EncodeNack(msg))).(recv := s.recv.(handlers := s.recv.handlers - {c}))
  {
    ExitIs(cfg, s.recv, c, true);
    hide EncodeNack, R.Enabled, R.Apply;
    assert EncodeNack(msg)[..|EncodeNack(msg)|] == EncodeNack(msg);
  }

  lemma Crashing(cfg: R.Config, s: State, n: Name, i: Inode)
    requires (n, i) in s.recv.disk.pending
    ensures var e := Surviving(s.recv.disk, n, i);
            && Enabled(cfg, s, Internal(R.Crash(e)))
            && Apply(cfg, s, Internal(R.Crash(e))) ==
                 s.(recv := s.recv.(disk := e, handlers := map[], leaked := {}, up := false))
  {
    assert s.recv.disk.CrashesTo(Surviving(s.recv.disk, n, i));
    hide Disk.CrashesTo, Surviving;
  }

  /** Directory sync fails after the rename: the handler rejects and ends. Then the machine stops and
      the rename happens to survive. */
  lemma RejectAndCrash(cfg: R.Config, s: State, c: ConnId, r: Request, msg: seq<byte>)
    requires Underway(cfg, s, c, r) && s.recv.handlers[c].Closed?
    ensures Enabled(cfg, s, Internal(R.Rename(c)))
    ensures var t, exit := Apply(cfg, s, Internal(R.Rename(c))), HandlerExits(c, true, msg, |EncodeNack(msg)|);
            && Enabled(cfg, t, exit)
            && var u := Apply(cfg, t, exit);
               var crash := Internal(R.Crash(Surviving(u.recv.disk, r.name, s.recv.handlers[c].ino)));
               Enabled(cfg, u, crash) && Rejected(Apply(cfg, u, crash), c, r, msg)
  {
    hide Enabled, Apply, Left, EncodeNack;
    var p, nack := s.recv.handlers[c], EncodeNack(msg);
    Renaming(cfg, s, c);
    var t := Apply(cfg, s, Internal(R.Rename(c)));
    Rejecting(cfg, t, c, msg);
    var u := Apply(cfg, t, HandlerExits(c, true, msg, |nack|));
    Crashing(cfg, u, r.name, p.ino);
    assert [] + nack == nack;
  }

  /** The sender of r is about to read the rejection msg; the file is on stable storage all the same. */
  ghost predicate Rejected(s: State, c: ConnId, r: Request, msg: seq<byte>) {
    && c in s.links && s.links[c].sender.Waiting? && s.links[c].reqs != [] && s.links[c].Last() == r
    && s.links[c].down == EncodeNack(msg)
    && r.name in s.outbox && r.name in s.recv.disk.durable
  }

  lemma Producing(cfg: R.Config, s: State, n: Name, p: seq<byte>)
    requires n !in s.produced
    ensures Enabled(cfg, s, Produce(n, p))
    ensures Apply(cfg, s, Produce(n, p)) == s.(produced := s.produced[n := p], outbox := s.outbox + {n})
  {
  }

  /** A rejection does not mean that the file was not committed: for every acceptable new file and
      every message there is a run from the start at whose end the sender finds exactly that
      rejection for the file, while the receiver holds the file durably with the produced bytes. */
  lemma RejectedButDurable(cfg: R.Config, s: State, n: Name, p: seq<byte>, msg: seq<byte>)
      returns (run: seq<Action>, c: ConnId)
    requires Initial(s) && n !in s.produced && Sendable(Request(n, p), cfg.maxSize)
    ensures Allowed(cfg, s, run)
    ensures var t := Exec(cfg, s, run);
            && Rejected(t, c, Request(n, p), msg) && DurablyHeld(t, n)
            && ParseResponse(t.links[c].down) == Some((Some(Nack(Truncated(msg))), |t.links[c].down|))
  {
    hide Enabled, Apply, Allowed, Exec, Sendable, Underway, Inv, ParseResponse, EncodeNack, DurablyHeld;
    var r := Request(n, p);
    NotStarted(s);
    Booting(cfg, s);
    var s1 := Apply(cfg, s, Internal(R.Boot({})));
    Producing(cfg, s1, n, p);
    var s2 := Apply(cfg, s1, Produce(n, p));
    c := FreshNat(s2.links.Keys, 0);
    var s5, run1 := Sent(cfg, s2, c, n);
    var s6, run2 := RejectedRun(cfg, s5, c, r, msg);
    Join(cfg, s2, run1, run2);
    Prepend(cfg, s1, Produce(n, p), run1 + run2);
    Prepend(cfg, s, Internal(R.Boot({})), [Produce(n, p)] + (run1 + run2));
    run := [Internal(R.Boot({}))] + ([Produce(n, p)] + (run1 + run2));
    RunKeepsInv(cfg, s, run);
    DurableMeansHeld(cfg, s6, n);
    ResponseRoundTrip(msg, []);
    assert EncodeNack(msg) + [] == EncodeNack(msg);
  }

  lemma NotStarted(s: State)
    requires Initial(s)
    ensures !s.recv.up && s.recv.handlers == map[] && s.links == map[]
  {
    hide ContentOk, SenderDiskOk;
  }

  lemma Sent(cfg: R.Config, s: State, c: ConnId, n: Name) returns (t: State, run: seq<Action>)
    requires s.recv.up && c !in s.links && c !in s.recv.handlers && n in s.outbox && n in s.produced
    requires Sendable(Request(n, s.produced[n]), cfg.maxSize)
    ensures Allowed(cfg, s, run) && t == Exec(cfg, s, run)
    ensures Underway(cfg, t, c, Request(n, s.produced[n])) && t.recv.handlers[c] == R.Reading([])
  {
    Sending(cfg, s, c, n);
    hide Enabled, Apply, Allowed, Exec, Underway, Frame;
    var k := |Frame(cfg.sha, Request(n, s.produced[n]))|;
    var s1 := Apply(cfg, s, Dial(c));
    var s2 := Apply(cfg, s1, Begin(c, n));
    t := Apply(cfg, s2, Write(c, k));
    NoSteps(cfg, t);
    Prepend(cfg, s2, Write(c, k), []);
    Prepend(cfg, s1, Begin(c, n), [Write(c, k)] + []);
    Prepend(cfg, s, Dial(c), [Begin(c, n)] + ([Write(c, k)] + []));
    run := [Dial(c)] + ([Begin(c, n)] + ([Write(c, k)] + []));
  }

  lemma RejectedRun(cfg: R.Config, s: State, c: ConnId, r: Request, msg: seq<byte>) returns (t: State, run: seq<Action>)
    requires Underway(cfg, s, c, r) && Sendable(r, cfg.maxSize) && s.recv.handlers[c].Reading?
    ensures Allowed(cfg, s, run) && t == Exec(cfg, s, run) && Rejected(t, c, r, msg)
  {
    hide Enabled, Apply, Allowed, Exec, Matches, Left, Rejected, Sendable;
    var run1 := Bring(cfg, s, c, r, 2);
    var s1 := Exec(cfg, s, run1);
    RejectAndCrash(cfg, s1, c, r, msg);
    var exit := HandlerExits(c, true, msg, |EncodeNack(msg)|);
    var s2 := Apply(cfg, s1, Internal(R.Rename(c)));
    var s3 := Apply(cfg, s2, exit);
    var crash := Internal(R.Crash(Surviving(s3.recv.disk, r.name, s1.recv.handlers[c].ino)));
    t := Apply(cfg, s3, crash);
    NoSteps(cfg, t);
    Prepend(cfg, s3, crash, []);
    Prepend(cfg, s2, exit, [crash] + []);
    Prepend(cfg, s1, Internal(R.Rename(c)), [exit] + ([crash] + []));
    Join(cfg, s, run1, [Internal(R.Rename(c))] + ([exit] + ([crash] + [])));
    run := run1 + ([Internal(R.Rename(c))] + ([exit] + ([crash] + [])));
  }
}
