/** The connection loop refines the receiver machine: what any connection does to the directory, with
    whatever failures, is what some run of one handler of the machine does. */
module Refinement {
  import opened Bytes
  import opened Wire
  import opened Disks
  import opened Receiver
  import opened Listener
  import opened Reception
  import R = ReceiverMachine
  import D = Durability

  /** The machine after a turn that did e: the directory is as after e, and the handler waits for the
      next header if the turn went on, or has ended. */
  ghost predicate TurnDone(s: R.State, c: ConnId, e: Effect, t: R.State) {
    && t.disk == AfterTurn(s.disk, e)
    && t.handlers - {c} == s.handlers - {c}
    && if GoesOn(e) then c in t.handlers && t.handlers[c] == R.Reading([]) else c !in t.handlers
  }

  // ---------- reading the header ----------

  lemma HeaderFed(cfg: R.Config, s: R.State, c: ConnId, name: Name, size: uint64, buf: seq<byte>)
    returns (run: seq<R.Action>)
    requires c in s.handlers && s.handlers[c] == R.Reading(buf) && buf <= EncodeHeader(name, size)
    requires ValidName(name)
    ensures R.Allowed(cfg, s, run) && R.Exec(cfg, s, run) == R.Move(s, c, R.Reading(EncodeHeader(name, size)))
    decreases |EncodeHeader(name, size)| - |buf|
  {
    hide R.Enabled, R.Apply, R.Allowed, R.Exec, EncodeHeader, ValidName;
    var h := EncodeHeader(name, size);
    if buf == h {
      D.NoSteps(cfg, s);
      run := [];
      assert s.handlers[c := R.Reading(h)] == s.handlers;
    } else {
      HeaderPrefixAsksForMore(name, size, cfg.maxSize, buf);
      var chunk := h[|buf|..ParseHeader(buf, cfg.maxSize).total];
      hide ParseHeader;
      assert buf + chunk <= h;
      FeedIs(cfg, s, c, chunk);
      var t := R.Move(s, c, R.Reading(buf + chunk));
      assert R.Apply(cfg, s, R.Feed(c, chunk)) == t;
      var rest := HeaderFed(cfg, t, c, name, size, buf + chunk);
      D.Prepend(cfg, s, R.Feed(c, chunk), rest);
      run := [R.Feed(c, chunk)] + rest;
      assert t.handlers[c := R.Reading(h)] == s.handlers[c := R.Reading(h)];
    }
  }

  // ---------- staging and payload ----------

  /** s with handler c at phase p and directory d. */
  ghost function At(s: R.State, c: ConnId, p: R.Phase, d: Disk): (t: R.State) {
    R.Move(s, c, p).(disk := d)
  }

  lemma AtAgain(s: R.State, c: ConnId, p: R.Phase, d: Disk, q: R.Phase, e: Disk)
    ensures At(At(s, c, p, d), c, q, e) == At(s, c, q, e)
  {
    assert s.handlers[c := p][c := q] == s.handlers[c := q];
  }

  /** The handler has staged the first bytes of a payload. */
  lemma PayloadStaged(
    cfg: R.Config, s: R.State, c: ConnId, name: Name, size: uint64, tmp: Name, ino: Inode, data: seq<byte>)
    returns (run: seq<R.Action>)
    requires c in s.handlers && s.handlers[c] == R.Reading([]) && ValidName(name) && WithinLimit(size, cfg.maxSize)
    requires IsTmp(tmp) && tmp !in s.disk.staging && ino !in s.disk.files
    requires |data| <= if size < INT64_LIMIT then size else 0
    ensures R.Allowed(cfg, s, run)
    ensures R.Exec(cfg, s, run) ==
            At(s, c, R.Body(name, size, tmp, ino, []), s.disk.Create(tmp, ino).Append(ino, data))
  {
    hide R.Enabled, R.Apply, R.Allowed, R.Exec, EncodeHeader, ValidName, IsTmp, ParseHeader;
    var h, d := EncodeHeader(name, size), s.disk.Create(tmp, ino);
    run := HeaderFed(cfg, s, c, name, size, []);
    var t := R.Move(s, c, R.Reading(h));
    HeaderRoundTrip(name, size, cfg.maxSize, []);
    assert h + [] == h;
    StageIs(cfg, t, c, tmp, ino);
    R.OneMoreStep(cfg, s, run, R.Stage(c, tmp, ino));
    run := run + [R.Stage(c, tmp, ino)];
    var u := R.Exec(cfg, s, run);
    AtAgain(s, c, R.Reading(h), s.disk, R.Body(name, size, tmp, ino, []), d);
    if data == [] {
      assert d.Append(ino, []) == d by { AppendNothing(s.disk, tmp, ino); }
    } else {
      FeedIs(cfg, u, c, data);
      R.OneMoreStep(cfg, s, run, R.Feed(c, data));
      run := run + [R.Feed(c, data)];
    }
  }

  lemma AppendNothing(d: Disk, tmp: Name, ino: Inode)
    ensures d.Create(tmp, ino).Append(ino, []) == d.Create(tmp, ino)
  {
    var e := d.Create(tmp, ino);
    assert e.Data(ino) + [] == [];
    assert e.files[ino := File([], false)] == e.files;
  }

  lemma ExitAt(cfg: R.Config, s: R.State, c: ConnId, removed: bool)
    requires c in s.handlers
    ensures R.Enabled(cfg, s, R.Exit(c, removed))
    ensures var t, p := R.Apply(cfg, s, R.Exit(c, removed)), s.handlers[c];
            && t.handlers == s.handlers - {c}
            && t.disk == if p.Owns() && removed then s.disk.Remove(p.tmp) else s.disk
  {
    hide ParseHeader, R.Need, R.Complete;
  }

  lemma DroppedTurn(cfg: R.Config, s: R.State, c: ConnId, e: Effect) returns (run: seq<R.Action>)
    requires c in s.handlers && s.handlers[c] == R.Reading([]) && e.Dropped? && Possible(cfg.maxSize, s.disk, e)
    ensures R.Allowed(cfg, s, run) && TurnDone(s, c, e, R.Exec(cfg, s, run))
  {
    hide R.Enabled, R.Apply, R.Allowed, R.Exec, ValidName, IsTmp;
    run := PayloadStaged(cfg, s, c, e.name, e.size, e.tmp, e.ino, e.data);
    var t := R.Exec(cfg, s, run);
    ExitAt(cfg, t, c, e.removed);
    R.OneMoreStep(cfg, s, run, R.Exit(c, e.removed));
    run := run + [R.Exit(c, e.removed)];
  }

  // ---------- the hash trailer and the barrier ----------

  lemma TrailerFed(cfg: R.Config, s: R.State, c: ConnId, r: Request, tmp: Name, ino: Inode)
    requires s.disk.Data(ino) == r.payload && |r.payload| < INT64_LIMIT
    requires c in s.handlers && s.handlers[c] == R.Body(r.name, |r.payload|, tmp, ino, [])
    ensures var a := R.Feed(c, Digest(cfg.sha, r.payload));
            && R.Enabled(cfg, s, a)
            && var t := R.Apply(cfg, s, a);
               && t == R.Move(s, c, R.Body(r.name, |r.payload|, tmp, ino, Digest(cfg.sha, r.payload)))
               && R.Enabled(cfg, t, R.Verify(c))
               && var u := R.Apply(cfg, t, R.Verify(c));
                  u.handlers == s.handlers[c := R.Verified(r.name, tmp, ino)] && u.disk == s.disk
  {
    hide Digest, ParseHeader, ValidName;
    var d := Digest(cfg.sha, r.payload);
    FeedIs(cfg, s, c, d);
    assert [] + d == d;
    assert s.handlers[c := R.Body(r.name, |r.payload|, tmp, ino, d)][c := R.Verified(r.name, tmp, ino)]
        == s.handlers[c := R.Verified(r.name, tmp, ino)];
  }

  lemma Verified(cfg: R.Config, s: R.State, c: ConnId, r: Request, tmp: Name, ino: Inode)
    returns (run: seq<R.Action>)
    requires c in s.handlers && s.handlers[c] == R.Reading([]) && Sendable(r, cfg.maxSize)
    requires IsTmp(tmp) && tmp !in s.disk.staging && ino !in s.disk.files
    ensures R.Allowed(cfg, s, run)
    ensures var t := R.Exec(cfg, s, run);
            && t.handlers == s.handlers[c := R.Verified(r.name, tmp, ino)]
            && t.disk == s.disk.Create(tmp, ino).Append(ino, r.payload)
  {
    hide R.Enabled, R.Apply, R.Allowed, R.Exec, ValidName, IsTmp, Digest;
    run := PayloadStaged(cfg, s, c, r.name, |r.payload|, tmp, ino, r.payload);
    var t := R.Exec(cfg, s, run);
    assert [] + r.payload == r.payload;
    TrailerFed(cfg, t, c, r, tmp, ino);
    R.OneMoreStep(cfg, s, run, R.Feed(c, Digest(cfg.sha, r.payload)));
    run := run + [R.Feed(c, Digest(cfg.sha, r.payload))];
    R.OneMoreStep(cfg, s, run, R.Verify(c));
    run := run + [R.Verify(c)];
    assert s.handlers[c := R.Body(r.name, |r.payload|, tmp, ino, [])][c := R.Verified(r.name, tmp, ino)]
        == s.handlers[c := R.Verified(r.name, tmp, ino)];
  }

  lemma SyncSteps(cfg: R.Config, s: R.State, c: ConnId)
    requires c in s.handlers && s.handlers[c].Verified?
    ensures R.Enabled(cfg, s, R.FileSync(c))
    ensures var p, t := s.handlers[c], R.Apply(cfg, s, R.FileSync(c));
            && t.handlers == s.handlers[c := R.Synced(p.name, p.tmp, p.ino)] && t.disk == s.disk.FileSync(p.ino)
            && R.Enabled(cfg, t, R.Close(c))
            && var u := R.Apply(cfg, t, R.Close(c));
               u.handlers == s.handlers[c := R.Closed(p.name, p.tmp, p.ino)] && u.disk == s.disk.FileSync(p.ino)
  {
    hide ParseHeader, R.Need, R.Complete;
    var p := s.handlers[c];
    assert s.handlers[c := R.Synced(p.name, p.tmp, p.ino)][c := R.Closed(p.name, p.tmp, p.ino)]
        == s.handlers[c := R.Closed(p.name, p.tmp, p.ino)];
  }

  /** How many of its four steps the barrier takes before it ends with err. */
  ghost function Steps(err: Option<CommitError>): (k: nat) {
    match err
    case Some(SyncFailed) => 0
    case Some(CloseFailed) => 1
    case Some(RenameFailed) => 2
    case Some(DirOpenFailed) => 3
    case Some(DirSyncFailed) => 3
    case _ => 4
  }

  /** The barrier's first k steps. */
  lemma Climb(cfg: R.Config, s: R.State, c: ConnId, k: nat) returns (run: seq<R.Action>)
    requires c in s.handlers && s.handlers[c].Verified? && k <= 4
    ensures R.Allowed(cfg, s, run)
    ensures var p, t := s.handlers[c], R.Exec(cfg, s, run);
            && t.handlers == s.handlers[c :=
                 if k == 0 then p else if k == 1 then R.Synced(p.name, p.tmp, p.ino)
                 else if k == 2 then R.Closed(p.name, p.tmp, p.ino)
                 else if k == 3 then R.Renamed(p.name) else R.Committed(p.name)]
            && t.disk ==
                 if k == 0 then s.disk else if k <= 2 then s.disk.FileSync(p.ino)
                 else if k == 3 then s.disk.FileSync(p.ino).Rename(p.tmp, p.ino, p.name)
                 else Barrier(s.disk, p.tmp, p.ino, p.name)
  {
    hide R.Enabled, R.Apply, R.Allowed, R.Exec;
    var p := s.handlers[c];
    D.NoSteps(cfg, s);
    run := [];
    assert s.handlers[c := p] == s.handlers;
    if k >= 1 {
      SyncSteps(cfg, s, c);
      R.OneMoreStep(cfg, s, run, R.FileSync(c));
      run := run + [R.FileSync(c)];
    }
    if k >= 2 {
      R.OneMoreStep(cfg, s, run, R.Close(c));
      run := run + [R.Close(c)];
    }
    if k >= 3 {
      var u := R.Exec(cfg, s, run);
      D.CommitSteps(cfg, u, c);
      R.OneMoreStep(cfg, s, run, R.Rename(c));
      run := run + [R.Rename(c)];
      assert u.handlers[c := R.Renamed(p.name)] == s.handlers[c := R.Renamed(p.name)];
      assert u.handlers[c := R.Committed(p.name)] == s.handlers[c := R.Committed(p.name)];
    }
    if k == 4 {
      R.OneMoreStep(cfg, s, run, R.DirSync(c));
      run := run + [R.DirSync(c)];
    }
  }

  /** CommitBarrier, with each of its failures. */
  lemma BarrierIsMachineRun(
    cfg: R.Config, s: R.State, c: ConnId, err: Option<CommitError>, removed: bool) returns (run: seq<R.Action>)
    requires c in s.handlers && s.handlers[c].Verified?
    ensures R.Allowed(cfg, s, run)
    ensures var p, t := s.handlers[c], R.Exec(cfg, s, run);
            && t.disk == BarrierEffect(s.disk, p.tmp, p.ino, p.name, err, removed)
            && t.handlers == if err.None? then s.handlers[c := R.Reading([])] else s.handlers - {c}
  {
    hide R.Enabled, R.Apply, R.Allowed, R.Exec;
    var p := s.handlers[c];
    run := Climb(cfg, s, c, Steps(err));
    var t := R.Exec(cfg, s, run);
    if err.None? {
      D.AckStep(cfg, t, c);
      R.OneMoreStep(cfg, s, run, R.Ack(c));
      run := run + [R.Ack(c)];
      assert s.handlers[c := R.Committed(p.name)][c := R.Reading([])] == s.handlers[c := R.Reading([])];
    } else {
      ExitAt(cfg, t, c, removed);
      R.OneMoreStep(cfg, s, run, R.Exit(c, removed));
      run := run + [R.Exit(c, removed)];
      assert t.handlers - {c} == s.handlers - {c};
    }
  }

  lemma BarredTurn(cfg: R.Config, s: R.State, c: ConnId, e: Effect) returns (run: seq<R.Action>)
    requires c in s.handlers && s.handlers[c] == R.Reading([]) && e.Barred? && Possible(cfg.maxSize, s.disk, e)
    ensures R.Allowed(cfg, s, run) && TurnDone(s, c, e, R.Exec(cfg, s, run))
  {
    hide R.Allowed, R.Exec, ValidName, IsTmp, Sendable, BarrierEffect;
    var first := Verified(cfg, s, c, e.r, e.tmp, e.ino);
    var t := R.Exec(cfg, s, first);
    var rest := BarrierIsMachineRun(cfg, t, c, e.err, e.removed);
    D.Join(cfg, s, first, rest);
    run := first + rest;
    assert t.handlers - {c} == s.handlers - {c};
  }

  // ---------- turns and connections ----------

  /** One turn of the connection loop is a run of one handler. */
  lemma TurnIsMachineRun(cfg: R.Config, s: R.State, c: ConnId, e: Effect) returns (run: seq<R.Action>)
    requires c in s.handlers && s.handlers[c] == R.Reading([]) && Possible(cfg.maxSize, s.disk, e)
    ensures R.Allowed(cfg, s, run) && TurnDone(s, c, e, R.Exec(cfg, s, run))
  {
    hide R.Enabled, R.Apply, R.Allowed, R.Exec, Possible;
    match e
    case Untouched =>
      D.NoSteps(cfg, s);
      ExitAt(cfg, s, c, true);
      R.OneMoreStep(cfg, s, [], R.Exit(c, true));
      run := [] + [R.Exit(c, true)];
    case Dropped(_, _, _, _, _, _) => run := DroppedTurn(cfg, s, c, e);
    case Barred(_, _, _, _, _) => run := BarredTurn(cfg, s, c, e);
  }

  /** A whole connection is a run of one handler: the directory that HandleConnection leaves, after any
      turns and whatever failure ended them, is the one that the run leaves. */
  lemma {:induction false} ConnectionIsMachineRun(cfg: R.Config, s: R.State, c: ConnId, es: seq<Effect>)
    returns (run: seq<R.Action>)
    requires s.up && c !in s.handlers && PossibleAll(cfg.maxSize, s.disk, es)
    ensures R.Allowed(cfg, s, run)
    ensures var t := R.Exec(cfg, s, run);
            && Turns(cfg.maxSize, s.disk, es, t.disk) && t.handlers - {c} == s.handlers
            && (es == [] || GoesOn(es[|es| - 1]) ==> c in t.handlers && t.handlers[c] == R.Reading([]))
  {
    hide R.Enabled, R.Apply, R.Allowed, R.Exec, AfterTurn, Possible, GoesOn;
    if es == [] {
      D.NoSteps(cfg, s);
      Accepting(cfg, s, c);
      R.OneMoreStep(cfg, s, [], R.Accept(c));
      run := [] + [R.Accept(c)];
    } else {
      var front := es[..|es| - 1];
      var first := ConnectionIsMachineRun(cfg, s, c, front);
      var t := R.Exec(cfg, s, first);
      var rest := TurnIsMachineRun(cfg, t, c, es[|es| - 1]);
      D.Join(cfg, s, first, rest);
      run := first + rest;
    }
  }

  lemma Accepting(cfg: R.Config, s: R.State, c: ConnId)
    requires s.up && c !in s.handlers
    ensures R.Enabled(cfg, s, R.Accept(c))
    ensures var t := R.Apply(cfg, s, R.Accept(c));
            t.disk == s.disk && t.handlers == s.handlers[c := R.Reading([])] && t.handlers - {c} == s.handlers
  {
    hide ParseHeader, R.Need, R.Complete;
  }

  /** What BootCleanup leaves, failed removals included, is what the machine's boot leaves, from where
      every connection may follow. */
  lemma BootIsMachineStep(cfg: R.Config, s: R.State, stuck: set<Name>, c: ConnId, es: seq<Effect>)
    returns (run: seq<R.Action>)
    requires !s.up && s.handlers == map[] && stuck <= TmpNames(s.disk.staging)
    requires PossibleAll(cfg.maxSize, s.disk.Cleaned(stuck), es)
    ensures R.Allowed(cfg, s, [R.Boot(stuck)]) && R.Exec(cfg, s, [R.Boot(stuck)]).disk == s.disk.Cleaned(stuck)
    ensures R.Allowed(cfg, s, run) && Turns(cfg.maxSize, s.disk.Cleaned(stuck), es, R.Exec(cfg, s, run).disk)
  {
    BootIs(cfg, s, stuck);
    hide R.Enabled, R.Apply, R.Allowed, R.Exec, PossibleAll, Turns;
    var t := R.Apply(cfg, s, R.Boot(stuck));
    D.NoSteps(cfg, t);
    D.Prepend(cfg, s, R.Boot(stuck), []);
    assert [R.Boot(stuck)] + [] == [R.Boot(stuck)];
    var rest := ConnectionIsMachineRun(cfg, t, c, es);
    D.Prepend(cfg, s, R.Boot(stuck), rest);
    run := [R.Boot(stuck)] + rest;
  }

  lemma BootIs(cfg: R.Config, s: R.State, stuck: set<Name>)
    requires !s.up && stuck <= TmpNames(s.disk.staging)
    ensures R.Enabled(cfg, s, R.Boot(stuck))
    ensures R.Apply(cfg, s, R.Boot(stuck)) == s.(disk := s.disk.Cleaned(stuck), leaked := stuck, up := true)
  {
    hide ParseHeader, R.Need, R.Complete, TmpNames;
  }
}
