/** What a commit is worth over whole runs of the receiver: where a name leads after any further
    steps, crashes and restarts, and which payload it holds. */
module Durability {
  import opened Bytes
  import opened Wire
  import opened Disks
  import opened ReceiverMachine
  import opened Reception

  /** n leads to inode i in some layer of the directory: as seen, on stable storage, or pending. */
  ghost predicate Leads(d: Disk, n: Name, i: Inode) {
    (n in d.names && d.names[n] == i) || (n in d.durable && d.durable[n] == i) || (n, i) in d.pending
  }

  /** n leads to i and nowhere else, on stable storage too. */
  ghost predicate SettledOn(d: Disk, n: Name, i: Inode) {
    n in d.names && n in d.durable && forall j :: Leads(d, n, j) ==> j == i
  }

  /** Some handler is about to give the name n to its staged file i. */
  ghost predicate Renames(s: State, a: Action, n: Name, i: Inode) {
    a.Rename? && a.c in s.handlers && s.handlers[a.c].Closed? && s.handlers[a.c].name == n && s.handlers[a.c].ino == i
  }

  ghost predicate RenamedAt(cfg: Config, s: State, run: seq<Action>, k: int, n: Name, i: Inode) {
    0 <= k < |run| && Allowed(cfg, s, run[..k]) && Renames(Exec(cfg, s, run[..k]), run[k], n, i)
  }

  /** n was renamed to i at step k, and i is on stable storage with the bytes it had then. */
  ghost predicate CameFrom(cfg: Config, s: State, run: seq<Action>, k: int, n: Name, i: Inode)
    requires Allowed(cfg, s, run)
  {
    && RenamedAt(cfg, s, run, k, n, i)
    && SyncedFile(Exec(cfg, s, run).disk, i)
    && Exec(cfg, s, run[..k]).disk.Data(i) == Exec(cfg, s, run).disk.Data(i)
  }

  lemma RenamedEarlier(cfg: Config, s: State, run: seq<Action>, a: Action, k: int, n: Name, i: Inode)
    ensures k < |run| ==> (RenamedAt(cfg, s, run, k, n, i) <==> RenamedAt(cfg, s, run + [a], k, n, i))
    ensures Allowed(cfg, s, run) ==>
              (RenamedAt(cfg, s, run + [a], |run|, n, i) <==> Renames(Exec(cfg, s, run), a, n, i))
  {
    hide Renames, Allowed, Exec;
    if 0 <= k < |run| {
      assert (run + [a])[..k] == run[..k];
    }
    assert (run + [a])[..|run|] == run;
  }

  lemma StepLeads(cfg: Config, s: State, a: Action, n: Name, i: Inode)
    requires Enabled(cfg, s, a) && Leads(Apply(cfg, s, a).disk, n, i)
    ensures Leads(s.disk, n, i) || Renames(s, a, n, i)
  {
    if a.Crash? {
      CrashLeads(s.disk, a.after, n, i);
    } else if a.DirSync? {
      DirSyncIs(cfg, s, a.c);
      hide Enabled, Apply;
    } else if !a.Rename? {
      NamesKept(cfg, s, a);
      hide Enabled, Apply;
    }
    hide ParseHeader, Digest, Fed, Staged, Exited, Need, Complete, IsTmp, TmpNames, Disk.CrashesTo;
  }

  lemma CrashLeads(d: Disk, after: Disk, n: Name, i: Inode)
    requires d.CrashesTo(after) && Leads(after, n, i)
    ensures Leads(d, n, i)
  {
  }

  /** A name leads only where it led before or where a rename made it lead. */
  lemma {:induction false} OnlyRenamesLead(cfg: Config, s: State, run: seq<Action>, n: Name, i: Inode)
    requires Allowed(cfg, s, run) && Leads(Exec(cfg, s, run).disk, n, i)
    ensures Leads(s.disk, n, i) || exists k :: RenamedAt(cfg, s, run, k, n, i)
  {
    hide Leads, Enabled, Apply, RenamedAt, Renames;
    if run != [] {
      var front, a := run[..|run| - 1], run[|run| - 1];
      assert front + [a] == run;
      StepLeads(cfg, Exec(cfg, s, front), a, n, i);
      RenamedEarlier(cfg, s, front, a, 0, n, i);
      if Leads(Exec(cfg, s, front).disk, n, i) {
        OnlyRenamesLead(cfg, s, front, n, i);
        if !Leads(s.disk, n, i) {
          var k :| RenamedAt(cfg, s, front, k, n, i);
          assert k < |front| by { Before(cfg, s, front, k, n, i); }
          RenamedEarlier(cfg, s, front, a, k, n, i);
        }
      }
    }
  }

  lemma Before(cfg: Config, s: State, run: seq<Action>, k: int, n: Name, i: Inode)
    requires RenamedAt(cfg, s, run, k, n, i)
    ensures 0 <= k < |run| && Allowed(cfg, s, run[..k])
  {
    hide Renames;
  }

  ghost predicate SyncedFile(d: Disk, i: Inode) {
    i in d.files && d.files[i].synced
  }

  lemma SyncedStep(cfg: Config, s: State, a: Action, i: Inode)
    requires Inv(s) && Enabled(cfg, s, a) && SyncedFile(s.disk, i)
    ensures SyncedFile(Apply(cfg, s, a).disk, i) && Apply(cfg, s, a).disk.Data(i) == s.disk.Data(i)
  {
    if a.Feed? || a.FileSync? {
      OwnFileStep(cfg, s, a, i);
    } else {
      OtherFiles(cfg, s, a, i);
    }
    hide Inv, Enabled, Apply;
  }

  lemma OwnFileStep(cfg: Config, s: State, a: Action, i: Inode)
    requires Inv(s) && Enabled(cfg, s, a) && SyncedFile(s.disk, i) && (a.Feed? || a.FileSync?)
    ensures SyncedFile(Apply(cfg, s, a).disk, i) && Apply(cfg, s, a).disk.Data(i) == s.disk.Data(i)
  {
    assert PhaseOk(s, s.handlers[a.c]);
    hide ParseHeader, Digest, ValidName, DirectoriesGood, HandlersOk, NoSharing, StagingAccounted;
  }

  lemma OtherFiles(cfg: Config, s: State, a: Action, i: Inode)
    requires Enabled(cfg, s, a) && SyncedFile(s.disk, i) && !a.Feed? && !a.FileSync?
    ensures SyncedFile(Apply(cfg, s, a).disk, i) && Apply(cfg, s, a).disk.Data(i) == s.disk.Data(i)
  {
    hide ParseHeader, Digest, Need, Complete, IsTmp, TmpNames, Fed;
  }

  /** A file that was synced keeps its bytes for good. */
  lemma {:induction false} SyncedStays(cfg: Config, s: State, run: seq<Action>, i: Inode)
    requires Inv(s) && Allowed(cfg, s, run) && SyncedFile(s.disk, i)
    ensures SyncedFile(Exec(cfg, s, run).disk, i) && Exec(cfg, s, run).disk.Data(i) == s.disk.Data(i)
  {
    hide Inv, Enabled, Apply, SyncedFile;
    if run != [] {
      var front := run[..|run| - 1];
      SyncedStays(cfg, s, front, i);
      RunKeepsInv(cfg, s, front);
      SyncedStep(cfg, Exec(cfg, s, front), run[|run| - 1], i);
    }
  }

  /** The state after a prefix of a run, and the rest of the run from there. */
  lemma {:induction false} Resume(cfg: Config, s: State, run: seq<Action>, k: nat)
    requires Allowed(cfg, s, run) && k <= |run|
    ensures Allowed(cfg, s, run[..k]) && Allowed(cfg, Exec(cfg, s, run[..k]), run[k..])
    ensures Exec(cfg, Exec(cfg, s, run[..k]), run[k..]) == Exec(cfg, s, run)
  {
    hide Enabled, Apply;
    if k == |run| {
      assert run[..k] == run && run[k..] == [];
    } else {
      var front := run[..|run| - 1];
      Resume(cfg, s, front, k);
      assert front[..k] == run[..k] && run[k..][..|run[k..]| - 1] == front[k..];
    }
  }

  /** The staged file of a rename is on stable storage by then, so it keeps its bytes. */
  lemma RenamedFileStays(cfg: Config, s: State, run: seq<Action>, k: int, n: Name, i: Inode)
    requires Inv(s) && Allowed(cfg, s, run) && RenamedAt(cfg, s, run, k, n, i)
    ensures CameFrom(cfg, s, run, k, n, i)
  {
    Resume(cfg, s, run, k);
    var t := Exec(cfg, s, run[..k]);
    RunKeepsInv(cfg, s, run[..k]);
    ClosedIsSynced(t, run[k].c);
    hide Inv, Allowed, Exec, SyncedFile;
    SyncedStays(cfg, t, run[k..], i);
  }

  lemma ClosedIsSynced(s: State, c: ConnId)
    requires Inv(s) && c in s.handlers && s.handlers[c].Closed?
    ensures SyncedFile(s.disk, s.handlers[c].ino)
    ensures Request(s.handlers[c].name, s.disk.Data(s.handlers[c].ino)) in s.verified
  {
    hide ValidName;
    assert PhaseOk(s, s.handlers[c]);
  }

  /** A directory sync settles every name: it leads where the running system saw it lead. */
  lemma DirSyncSettles(cfg: Config, s: State, c: ConnId, n: Name)
    requires Inv(s) && Enabled(cfg, s, DirSync(c)) && n in s.disk.names
    ensures SettledOn(Apply(cfg, s, DirSync(c)).disk, n, s.disk.names[n])
  {
    DirSyncIs(cfg, s, c);
    DurableInNames(s);
    hide Inv, Enabled, Apply;
  }

  lemma DirSyncIs(cfg: Config, s: State, c: ConnId)
    requires Enabled(cfg, s, DirSync(c))
    ensures Apply(cfg, s, DirSync(c)).disk == s.disk.DirSync()
  {
    hide ParseHeader, Need, Complete;
  }

  lemma SettledFile(s: State, n: Name, i: Inode)
    requires Inv(s) && SettledOn(s.disk, n, i)
    ensures SyncedFile(s.disk, i) && s.disk.durable[n] == i
  {
    hide ValidName;
    assert Leads(s.disk, n, s.disk.durable[n]);
    assert GoodEntry(s, n, s.disk.durable[n]);
  }

  /** The committed mapping survives. Once n is settled on i, as it is after every directory sync (an
      ACK may find it renamed again), it stays on stable storage over every run, crashes, kills and boots
      included: it leads to i with i's bytes, or to a file that some later rename of n put there,
      with the bytes that file had then. Without such a rename it stays settled on i. */
  lemma CommitSurvives(cfg: Config, s: State, run: seq<Action>, n: Name, i: Inode)
    requires Inv(s) && Allowed(cfg, s, run) && SettledOn(s.disk, n, i)
    ensures var d := Exec(cfg, s, run).disk;
            && n in d.durable && n in d.names && SyncedFile(d, i) && d.Data(i) == s.disk.Data(i)
            && (d.durable[n] == i || exists k :: CameFrom(cfg, s, run, k, n, d.durable[n]))
            && ((forall k, j :: !RenamedAt(cfg, s, run, k, n, j)) ==> SettledOn(d, n, i))
  {
    hide Inv, Allowed, Exec, SyncedFile, RenamedAt, Leads, CameFrom;
    var d := Exec(cfg, s, run).disk;
    SettledFile(s, n, i);
    SyncedStays(cfg, s, run, i);
    StaysDurable(cfg, s, run, n);
    RunKeepsInv(cfg, s, run);
    DurableInNames(Exec(cfg, s, run));
    DurableLeads(d, n);
    EndsAt(cfg, s, run, n, i, d.durable[n]);
    forall j | Leads(d, n, j) && j != i
      ensures exists k :: RenamedAt(cfg, s, run, k, n, j)
    {
      EndsAt(cfg, s, run, n, i, j);
      var k :| CameFrom(cfg, s, run, k, n, j);
      assert RenamedAt(cfg, s, run, k, n, j) by { CameByRename(cfg, s, run, k, n, j); }
    }
  }

  lemma CameByRename(cfg: Config, s: State, run: seq<Action>, k: int, n: Name, i: Inode)
    requires Allowed(cfg, s, run) && CameFrom(cfg, s, run, k, n, i)
    ensures RenamedAt(cfg, s, run, k, n, i)
  {
    hide RenamedAt;
  }

  lemma EndsAt(cfg: Config, s: State, run: seq<Action>, n: Name, i: Inode, j: Inode)
    requires Inv(s) && Allowed(cfg, s, run) && SettledOn(s.disk, n, i) && Leads(Exec(cfg, s, run).disk, n, j)
    ensures j == i || exists k :: CameFrom(cfg, s, run, k, n, j)
  {
    hide Inv, Allowed, Exec, RenamedAt, Leads, CameFrom;
    if j != i {
      OnlyRenamesLead(cfg, s, run, n, j);
      var k :| RenamedAt(cfg, s, run, k, n, j);
      RenamedFileStays(cfg, s, run, k, n, j);
    }
  }

  lemma DurableLeads(d: Disk, n: Name)
    requires n in d.durable
    ensures Leads(d, n, d.durable[n])
  {
  }

  lemma {:induction false} StaysDurable(cfg: Config, s: State, run: seq<Action>, n: Name)
    requires Inv(s) && Allowed(cfg, s, run) && n in s.disk.durable
    ensures n in Exec(cfg, s, run).disk.durable
  {
    hide Inv, Enabled, Apply;
    if run != [] {
      var front := run[..|run| - 1];
      StaysDurable(cfg, s, front, n);
      RunKeepsInv(cfg, s, front);
      DurableInNames(Exec(cfg, s, front));
      DurableGrows(cfg, Exec(cfg, s, front), run[|run| - 1]);
    }
  }

  // ---------- a commit in progress ----------

  ghost predicate CrashFree(run: seq<Action>) {
    forall k :: 0 <= k < |run| ==> !run[k].Crash?
  }

  lemma StepNames(cfg: Config, s: State, a: Action, n: Name)
    requires Enabled(cfg, s, a) && !a.Crash? && n in s.disk.names
    ensures var d := Apply(cfg, s, a).disk;
            n in d.names && (d.names[n] == s.disk.names[n] || Renames(s, a, n, d.names[n]))
  {
    if !a.Rename? && !a.DirSync? { NamesKept(cfg, s, a); }
    hide ParseHeader, Digest, Fed, Staged, Exited, Need, Complete, IsTmp, TmpNames, Disk.CrashesTo;
  }

  lemma {:induction false} NamesFollow(cfg: Config, s: State, run: seq<Action>, n: Name, i: Inode)
    requires Allowed(cfg, s, run) && CrashFree(run) && n in s.disk.names && s.disk.names[n] == i
    ensures var d := Exec(cfg, s, run).disk;
            n in d.names && (d.names[n] == i || exists k :: RenamedAt(cfg, s, run, k, n, d.names[n]))
  {
    hide Enabled, Apply, RenamedAt, Renames;
    if run != [] {
      var front, a := run[..|run| - 1], run[|run| - 1];
      assert front + [a] == run;
      var d, e := Exec(cfg, s, front).disk, Exec(cfg, s, run).disk;
      NamesFollow(cfg, s, front, n, i);
      StepNames(cfg, Exec(cfg, s, front), a, n);
      RenamedEarlier(cfg, s, front, a, 0, n, e.names[n]);
      if e.names[n] != i && e.names[n] == d.names[n] {
        var k :| RenamedAt(cfg, s, front, k, n, d.names[n]);
        Before(cfg, s, front, k, n, d.names[n]);
        RenamedEarlier(cfg, s, front, a, k, n, d.names[n]);
      }
    }
  }

  /** A rename that put i under n is settled by the next directory sync, whoever makes it, if the
      machine does not stop before: on i, or on the file of a rename of n that came in between. */
  lemma CommitLands(cfg: Config, s: State, run: seq<Action>, c: ConnId, n: Name, i: Inode)
    requires Inv(s) && Allowed(cfg, s, run) && CrashFree(run) && n in s.disk.names && s.disk.names[n] == i
    requires Enabled(cfg, Exec(cfg, s, run), DirSync(c))
    ensures var t := Exec(cfg, s, run);
            && n in t.disk.names
            && SettledOn(Apply(cfg, t, DirSync(c)).disk, n, t.disk.names[n])
            && (t.disk.names[n] == i || exists k :: RenamedAt(cfg, s, run, k, n, t.disk.names[n]))
  {
    hide Inv, Enabled, Apply, Allowed, Exec, RenamedAt, SettledOn;
    NamesFollow(cfg, s, run, n, i);
    RunKeepsInv(cfg, s, run);
    DirSyncSettles(cfg, Exec(cfg, s, run), c, n);
  }

  // ---------- a delayed handler and an acknowledged payload ----------

  ghost function DurablePayload(d: Disk, n: Name): (p: Option<seq<byte>>) {
    if n in d.durable then Some(d.Data(d.durable[n])) else None
  }

  /** A run in which n is renamed to no other file than i. */
  ghost predicate OnlyFile(cfg: Config, s: State, run: seq<Action>, n: Name, i: Inode) {
    Allowed(cfg, s, run) && forall k, j :: RenamedAt(cfg, s, run, k, n, j) ==> j == i
  }

  lemma SameBytesKept(cfg: Config, s: State, c: ConnId, n: Name, i: Inode, run: seq<Action>)
    requires Inv(s) && c in s.handlers && s.handlers[c].Closed? && SettledOn(s.disk, n, i)
    requires OnlyFile(cfg, s, run, n, s.handlers[c].ino) && s.disk.Data(s.handlers[c].ino) == s.disk.Data(i)
    ensures DurablePayload(Exec(cfg, s, run).disk, n) == Some(s.disk.Data(i))
  {
    CommitSurvives(cfg, s, run, n, i);
    hide Inv, Allowed, Exec, RenamedAt, SettledOn, CameFrom;
    var j := Exec(cfg, s, run).disk.durable[n];
    if j != i {
      var k :| CameFrom(cfg, s, run, k, n, j);
      CameByRename(cfg, s, run, k, n, j);
      ClosedIsSynced(s, c);
      SyncedStays(cfg, s, run, j);
    }
  }

  lemma NoSteps(cfg: Config, s: State)
    ensures Allowed(cfg, s, []) && Exec(cfg, s, []) == s
  {
  }

  lemma CommitSteps(cfg: Config, s: State, c: ConnId)
    requires c in s.handlers && s.handlers[c].Closed?
    ensures var p := s.handlers[c];
            && Enabled(cfg, s, Rename(c))
            && var t := Apply(cfg, s, Rename(c));
               && t == Move(s, c, Renamed(p.name)).(disk := s.disk.Rename(p.tmp, p.ino, p.name))
               && Enabled(cfg, t, DirSync(c))
               && Apply(cfg, t, DirSync(c)) == Move(s, c, Committed(p.name))
                 .(disk := s.disk.Rename(p.tmp, p.ino, p.name).DirSync())
  {
    hide ParseHeader, Need, Complete;
    var p := s.handlers[c];
    assert s.handlers[c := Renamed(p.name)][c := Committed(p.name)] == s.handlers[c := Committed(p.name)];
  }

  /** The delayed handler's own two steps replace the payload. */
  lemma DelayedRun(cfg: Config, s: State, c: ConnId, n: Name)
    requires c in s.handlers && s.handlers[c].Closed? && s.handlers[c].name == n
    ensures OnlyFile(cfg, s, [Rename(c), DirSync(c)], n, s.handlers[c].ino)
    ensures DurablePayload(Exec(cfg, s, [Rename(c), DirSync(c)]).disk, n) == Some(s.disk.Data(s.handlers[c].ino))
  {
    hide Enabled, Apply, Allowed, Exec, RenamedAt;
    var i := s.handlers[c].ino;
    CommitSteps(cfg, s, c);
    NoSteps(cfg, s);
    OneMoreStep(cfg, s, [], Rename(c));
    OneMoreStep(cfg, s, [] + [Rename(c)], DirSync(c));
    var run := [] + [Rename(c)] + [DirSync(c)];
    assert run == [Rename(c), DirSync(c)];
    forall k, j | RenamedAt(cfg, s, run, k, n, j)
      ensures j == i
    {
      Before(cfg, s, run, k, n, j);
      RenamedByRename(cfg, s, run, k, n, j);
      assert k == 0 && run[..0] == [];
    }
  }

  lemma RenamedByRename(cfg: Config, s: State, run: seq<Action>, k: int, n: Name, i: Inode)
    requires RenamedAt(cfg, s, run, k, n, i)
    ensures 0 <= k < |run| && run[k].Rename? && Allowed(cfg, s, run[..k])
    ensures Renames(Exec(cfg, s, run[..k]), run[k], n, i)
  {
  }

  /** The last rename wins. Take a payload that is settled under n, acknowledged or not, and a handler
      that was delayed before its own rename to n. The payload is what n durably holds after every
      continuation that renames n to no third file, crashes included, if and only if the delayed
      handler staged the very same bytes. */
  lemma DelayedCommit(cfg: Config, s: State, c: ConnId, n: Name, i: Inode)
    requires Inv(s) && SettledOn(s.disk, n, i)
    requires c in s.handlers && s.handlers[c].Closed? && s.handlers[c].name == n
    ensures (forall run :: OnlyFile(cfg, s, run, n, s.handlers[c].ino) ==>
              DurablePayload(Exec(cfg, s, run).disk, n) == Some(s.disk.Data(i)))
            <==> s.disk.Data(s.handlers[c].ino) == s.disk.Data(i)
  {
    hide Inv, SettledOn, RenamedAt, Allowed, Exec, DurablePayload;
    DelayedRun(cfg, s, c, n);
    if s.disk.Data(s.handlers[c].ino) == s.disk.Data(i) {
      forall run | OnlyFile(cfg, s, run, n, s.handlers[c].ino)
        ensures DurablePayload(Exec(cfg, s, run).disk, n) == Some(s.disk.Data(i))
      {
        SameBytesKept(cfg, s, c, n, i, run);
      }
    }
  }

  // ---------- an acknowledged payload overwritten ----------

  lemma {:induction false} Prepend(cfg: Config, s: State, a: Action, run: seq<Action>)
    requires Enabled(cfg, s, a) && Allowed(cfg, Apply(cfg, s, a), run)
    ensures Allowed(cfg, s, [a] + run) && Exec(cfg, s, [a] + run) == Exec(cfg, Apply(cfg, s, a), run)
  {
    hide Enabled, Apply;
    var all := [a] + run;
    if run == [] {
      assert all[..0] == [] && all == [a];
      NoSteps(cfg, s);
    } else {
      Prepend(cfg, s, a, run[..|run| - 1]);
      assert all[..|all| - 1] == [a] + run[..|run| - 1];
    }
  }

  lemma {:induction false} Join(cfg: Config, s: State, run: seq<Action>, more: seq<Action>)
    requires Allowed(cfg, s, run) && Allowed(cfg, Exec(cfg, s, run), more)
    ensures Allowed(cfg, s, run + more) && Exec(cfg, s, run + more) == Exec(cfg, Exec(cfg, s, run), more)
  {
    hide Enabled, Apply;
    if more == [] {
      assert run + more == run;
    } else {
      Join(cfg, s, run, more[..|more| - 1]);
      assert (run + more)[..|run + more| - 1] == run + more[..|more| - 1];
    }
  }

  /** From s to t only connection c has moved; the others stand where they stood. */
  ghost predicate OthersKept(s: State, t: State, c: ConnId) {
    forall x :: x != c ==> (x in t.handlers <==> x in s.handlers) && PhaseKept(s, t, x)
  }

  lemma StepOthers(cfg: Config, s: State, a: Action)
    requires Inv(s) && Enabled(cfg, s, a) && a.OfHandler()
    ensures OthersKept(s, Apply(cfg, s, a), a.c)
  {
    hide Inv, Enabled, Apply;
    OtherPhases(cfg, s, a);
    var t := Apply(cfg, s, a);
    forall x | x != a.c
      ensures (x in t.handlers <==> x in s.handlers) && PhaseKept(s, t, x)
    {
      assert x in s.handlers - {a.c} <==> x in t.handlers - {a.c};
      OthersUntouched(cfg, s, a, x);
    }
  }

  /** Handler c alone can bring its request to any later phase. */
  lemma {:induction false} Serve(cfg: Config, s: State, c: ConnId, r: Request, rank: nat) returns (run: seq<Action>)
    requires Inv(s) && s.up && c in s.handlers && Matches(cfg, s.disk, s.handlers[c], r) && Sendable(r, cfg.maxSize)
    requires rank <= Rank(s.handlers[c])
    ensures Allowed(cfg, s, run)
    ensures var t := Exec(cfg, s, run);
            && Inv(t) && t.up && OthersKept(s, t, c)
            && c in t.handlers && Matches(cfg, t.disk, t.handlers[c], r) && Rank(t.handlers[c]) == rank
    decreases Rank(s.handlers[c]), |Left(cfg, s.disk, s.handlers[c], r)|
  {
    hide Inv, Enabled, Apply, Allowed, Exec, Matches, Left, Sendable;
    if Rank(s.handlers[c]) == rank {
      NoSteps(cfg, s);
      run := [];
    } else {
      var a := NextStep(cfg, s, c, r);
      var t := Apply(cfg, s, a);
      StepKeepsInv(cfg, s, a);
      StepOthers(cfg, s, a);
      StaysUp(cfg, s, a);
      var rest := Serve(cfg, t, c, r, rank);
      Prepend(cfg, s, a, rest);
      run := [a] + rest;
    }
  }

  lemma StaysUp(cfg: Config, s: State, a: Action)
    requires Enabled(cfg, s, a) && a.OfHandler()
    ensures Apply(cfg, s, a).up == s.up
  {
    hide ParseHeader, Need, Complete;
  }

  lemma Admit(cfg: Config, s: State, c: ConnId, r: Request)
    requires Inv(s) && s.up && c !in s.handlers
    ensures Enabled(cfg, s, Accept(c))
    ensures var t := Apply(cfg, s, Accept(c));
            && Inv(t) && t.up && c in t.handlers && OthersKept(s, t, c)
            && Matches(cfg, t.disk, t.handlers[c], r) && Rank(t.handlers[c]) == 6
  {
    AcceptKeepsInv(s, c);
    hide Inv, Frame, ParseHeader, Need, Complete;
  }

  /** Two handlers stand before their renames to one name. The second commits and acknowledges; then
      the first commits. */
  lemma TwoCommits(cfg: Config, s: State, c: ConnId, d: ConnId, n: Name) returns (run: seq<Action>)
    requires c != d && c in s.handlers && s.handlers[c].Closed? && s.handlers[c].name == n
    requires d in s.handlers && s.handlers[d].Closed? && s.handlers[d].name == n
    ensures run == [Rename(d), DirSync(d), Ack(d), Rename(c), DirSync(c)] && Allowed(cfg, s, run)
        && Allowed(cfg, s, run[..3])
    ensures DurablePayload(Exec(cfg, s, run[..3]).disk, n) == Some(s.disk.Data(s.handlers[d].ino))
    ensures DurablePayload(Exec(cfg, s, run).disk, n) == Some(s.disk.Data(s.handlers[c].ino))
  {
    hide Enabled, Apply, Allowed, Exec;
    NoSteps(cfg, s);
    CommitSteps(cfg, s, d);
    var t := Apply(cfg, Apply(cfg, s, Rename(d)), DirSync(d));
    AckStep(cfg, t, d);
    var u := Apply(cfg, t, Ack(d));
    CommitSteps(cfg, u, c);
    var first := [] + [Rename(d)] + [DirSync(d)] + [Ack(d)];
    OneMoreStep(cfg, s, [], Rename(d));
    OneMoreStep(cfg, s, [] + [Rename(d)], DirSync(d));
    OneMoreStep(cfg, s, [] + [Rename(d)] + [DirSync(d)], Ack(d));
    OneMoreStep(cfg, s, first, Rename(c));
    OneMoreStep(cfg, s, first + [Rename(c)], DirSync(c));
    run := first + [Rename(c)] + [DirSync(c)];
    assert run[..3] == first;
  }

  lemma AckStep(cfg: Config, s: State, c: ConnId)
    requires c in s.handlers && s.handlers[c].Committed?
    ensures Enabled(cfg, s, Ack(c)) && Apply(cfg, s, Ack(c)) == Move(s, c, Reading([]))
  {
    hide ParseHeader, Need, Complete;
  }

  /** Without the rule that names are not reused, an acknowledged payload can be lost: for any two
      payloads of one name there is a run from the start in which the second is acknowledged and
      durable, and then replaced by the first. */
  lemma AnAckIsOverwritten(cfg: Config, s: State, n: Name, p: seq<byte>, q: seq<byte>)
      returns (run: seq<Action>, k: nat)
    requires Initial(s) && Sendable(Request(n, p), cfg.maxSize) && Sendable(Request(n, q), cfg.maxSize)
    ensures 0 < k < |run| && run[k - 1].Ack? && Allowed(cfg, s, run) && Allowed(cfg, s, run[..k])
    ensures DurablePayload(Exec(cfg, s, run[..k]).disk, n) == Some(q)
    ensures DurablePayload(Exec(cfg, s, run).disk, n) == Some(p)
  {
    InitialInv(s);
    hide Inv, Enabled, Apply, Allowed, Exec, Initial, Sendable, DurablePayload, Matches;
    var u, before := TwoStaged(cfg, s, n, p, q);
    var tail := TwoCommits(cfg, u, 1, 2, n);
    Join(cfg, s, before, tail);
    Join(cfg, s, before, tail[..3]);
    run, k := before + tail, |before| + 3;
    assert run[..k] == before + tail[..3];
  }

  lemma TwoStaged(cfg: Config, s: State, n: Name, p: seq<byte>, q: seq<byte>) returns (u: State, run: seq<Action>)
    requires Initial(s) && Inv(s) && Sendable(Request(n, p), cfg.maxSize) && Sendable(Request(n, q), cfg.maxSize)
    ensures Allowed(cfg, s, run) && u == Exec(cfg, s, run)
    ensures 1 in u.handlers && u.handlers[1].Closed? && u.handlers[1].name == n && u.disk.Data(u.handlers[1].ino) == p
    ensures 2 in u.handlers && u.handlers[2].Closed? && u.handlers[2].name == n && u.disk.Data(u.handlers[2].ino) == q
  {
    var a, b := Request(n, p), Request(n, q);
    BootUp(cfg, s);
    hide Inv, Enabled, Apply, Allowed, Exec, Initial, Sendable, Left, ValidName, Frame, Digest;
    var s1 := Apply(cfg, s, Boot({}));
    Admit(cfg, s1, 1, a);
    var s2 := Apply(cfg, s1, Accept(1));
    var run1 := Serve(cfg, s2, 1, a, 2);
    var s3 := Exec(cfg, s2, run1);
    Admit(cfg, s3, 2, b);
    var s4 := Apply(cfg, s3, Accept(2));
    var run2 := Serve(cfg, s4, 2, b, 2);
    u := Exec(cfg, s4, run2);
    Prepend(cfg, s3, Accept(2), run2);
    Join(cfg, s2, run1, [Accept(2)] + run2);
    Prepend(cfg, s1, Accept(1), run1 + ([Accept(2)] + run2));
    Prepend(cfg, s, Boot({}), [Accept(1)] + (run1 + ([Accept(2)] + run2)));
    run := [Boot({})] + ([Accept(1)] + (run1 + ([Accept(2)] + run2)));
  }

  lemma BootUp(cfg: Config, s: State)
    requires Initial(s) && Inv(s)
    ensures Enabled(cfg, s, Boot({}))
    ensures var t := Apply(cfg, s, Boot({})); Inv(t) && t.up && t.handlers == map[]
  {
    BootKeepsInv(s, {});
    hide Inv, ParseHeader, Need, Complete;
  }

  // ---------- rejections after the rename ----------

  ghost predicate NoStageAfter(run: seq<Action>, k: int, c: ConnId) {
    forall j :: 0 <= j < |run| && k < j ==> !(run[j].Stage? && run[j].c == c)
  }

  /** The handler is not between staging and rename. */
  ghost predicate PastRename(s: State, c: ConnId) {
    c in s.handlers ==> s.handlers[c].Reading? || s.handlers[c].Renamed? || s.handlers[c].Committed?
  }

  lemma StepPastRename(cfg: Config, s: State, a: Action, c: ConnId)
    requires Enabled(cfg, s, a)
    requires (PastRename(s, c) && !(a.Stage? && a.c == c)) || a == Rename(c)
    ensures PastRename(Apply(cfg, s, a), c)
  {
    if a.OfHandler() && a.c != c {
      OtherPhases(cfg, s, a);
      hide Apply, Enabled;
      assert c in Apply(cfg, s, a).handlers ==> c in Apply(cfg, s, a).handlers - {a.c};
    } else {
      hide ParseHeader, Complete, IsTmp, TmpNames, Disk.CrashesTo;
    }
  }

  lemma {:induction false} RenamedSince(cfg: Config, s: State, run: seq<Action>, k: int, c: ConnId)
    requires Allowed(cfg, s, run) && 0 <= k < |run| && run[k] == Rename(c) && NoStageAfter(run, k, c)
    ensures PastRename(Exec(cfg, s, run), c)
  {
    hide Enabled, Apply, PastRename;
    var front, a := run[..|run| - 1], run[|run| - 1];
    if k < |run| - 1 { RenamedSince(cfg, s, front, k, c); }
    StepPastRename(cfg, Exec(cfg, s, front), a, c);
  }

  lemma SeenLeads(s: State, n: Name)
    requires n in s.disk.names
    ensures Leads(s.disk, n, s.disk.names[n])
  {
  }

  lemma FreshLeadsNowhere(s: State, n: Name, i: Inode)
    requires Initial(s) && n !in s.disk.names
    ensures !Leads(s.disk, n, i)
  {
    hide ValidName, Contents;
  }

  /** Every request that was ever renamed to n is the one that handler c has in hand. */
  ghost predicate OnlyRequest(cfg: Config, s: State, run: seq<Action>, c: ConnId, n: Name) {
    forall k, i :: RenamedAt(cfg, s, run, k, n, i) ==> run[k] == Rename(c) && NoStageAfter(run, k, c)
  }

  /** What a handler that gives up, for whatever reason, leaves under a name that is new and that no
      other request was renamed to: the name is visible afterwards if and only if the handler stood
      after the rename. The rejection it sends then does not mean that the file is not there. */
  lemma ExitLeavesNameIff(cfg: Config, s: State, run: seq<Action>, c: ConnId, removed: bool)
    requires Initial(s) && Allowed(cfg, s, run)
    requires var t := Exec(cfg, s, run);
             c in t.handlers && !t.handlers[c].Reading? && t.handlers[c].name !in s.disk.names
             && OnlyRequest(cfg, s, run, c, t.handlers[c].name)
    ensures var t := Exec(cfg, s, run);
            t.handlers[c].name in Exited(t, c, t.handlers[c], removed).disk.names <==>
              t.handlers[c].Renamed? || t.handlers[c].Committed?
  {
    hide Inv, Initial, Allowed, Exec, Leads, RenamedAt, Exited;
    var t := Exec(cfg, s, run);
    var n := t.handlers[c].name;
    InitialInv(s);
    RunKeepsInv(cfg, s, run);
    RenamedIsSeen(t, c);
    if n in t.disk.names {
      var i := t.disk.names[n];
      SeenLeads(t, n);
      FreshLeadsNowhere(s, n, i);
      OnlyRenamesLead(cfg, s, run, n, i);
      var k :| RenamedAt(cfg, s, run, k, n, i);
      Before(cfg, s, run, k, n, i);
      RenamedSince(cfg, s, run, k, c);
    }
  }

  lemma RenamedIsSeen(s: State, c: ConnId)
    requires Inv(s) && c in s.handlers
    ensures s.handlers[c].Renamed? || s.handlers[c].Committed? ==> s.handlers[c].name in s.disk.names
  {
    hide ValidName;
    assert PhaseOk(s, s.handlers[c]);
  }

  // ---------- what an ACK is worth ----------

  /** Step j is the rename by which handler c committed the request that it last staged, for n. */
  ghost predicate MadeBy(cfg: Config, s: State, run: seq<Action>, j: int, c: ConnId, n: Name) {
    0 <= j < |run| && run[j] == Rename(c) && NoStageAfter(run, j, c) && exists i :: RenamedAt(cfg, s, run, j, n, i)
  }

  /** n was renamed to i at step j or later. */
  ghost predicate RenamedFrom(cfg: Config, s: State, run: seq<Action>, j: int, n: Name, i: Inode) {
    exists k :: j <= k && RenamedAt(cfg, s, run, k, n, i)
  }

  /** n is on stable storage and leads only to files of renames at step j or later. */
  ghost predicate LedFrom(cfg: Config, s: State, run: seq<Action>, j: int, n: Name)
    requires Allowed(cfg, s, run)
  {
    var d := Exec(cfg, s, run).disk;
    n in d.durable && forall i :: Leads(d, n, i) ==> RenamedFrom(cfg, s, run, j, n, i)
  }

  lemma StillRenamedFrom(cfg: Config, s: State, run: seq<Action>, a: Action, j: int, n: Name, i: Inode)
    requires RenamedFrom(cfg, s, run, j, n, i)
    ensures RenamedFrom(cfg, s, run + [a], j, n, i)
  {
    hide RenamedAt;
    var k :| j <= k && RenamedAt(cfg, s, run, k, n, i);
    Before(cfg, s, run, k, n, i);
    RenamedEarlier(cfg, s, run, a, k, n, i);
  }

  lemma LastRenamedFrom(cfg: Config, s: State, run: seq<Action>, a: Action, j: int, n: Name, i: Inode)
    requires Allowed(cfg, s, run) && Renames(Exec(cfg, s, run), a, n, i) && j <= |run|
    ensures RenamedFrom(cfg, s, run + [a], j, n, i)
  {
    hide RenamedAt, Renames, Allowed, Exec;
    RenamedEarlier(cfg, s, run, a, 0, n, i);
    assert RenamedAt(cfg, s, run + [a], |run|, n, i);
  }

  lemma StillMadeBy(cfg: Config, s: State, run: seq<Action>, a: Action, j: int, c: ConnId, n: Name)
    requires MadeBy(cfg, s, run, j, c, n) && !(a.Stage? && a.c == c)
    ensures MadeBy(cfg, s, run + [a], j, c, n)
  {
    hide RenamedAt;
    var i :| RenamedAt(cfg, s, run, j, n, i);
    RenamedEarlier(cfg, s, run, a, j, n, i);
  }

  lemma StepLedFrom(cfg: Config, s: State, run: seq<Action>, a: Action, j: int, n: Name)
    requires Inv(s) && Allowed(cfg, s, run) && Enabled(cfg, Exec(cfg, s, run), a) && j <= |run|
    requires LedFrom(cfg, s, run, j, n)
    ensures Allowed(cfg, s, run + [a]) && LedFrom(cfg, s, run + [a], j, n)
  {
    hide Inv, Enabled, Apply, Leads, Renames, RenamedFrom;
    OneMoreStep(cfg, s, run, a);
    var t := Exec(cfg, s, run);
    RunKeepsInv(cfg, s, run);
    DurableInNames(t);
    DurableGrows(cfg, t, a);
    forall i | Leads(Apply(cfg, t, a).disk, n, i)
      ensures RenamedFrom(cfg, s, run + [a], j, n, i)
    {
      StepLeads(cfg, t, a, n, i);
      if Leads(t.disk, n, i) {
        StillRenamedFrom(cfg, s, run, a, j, n, i);
      } else {
        LastRenamedFrom(cfg, s, run, a, j, n, i);
      }
    }
  }

  /** How a handler comes to stand after the rename, or after the directory sync. */
  lemma CameToRenamed(cfg: Config, s: State, a: Action, c: ConnId, n: Name)
    requires Enabled(cfg, s, a) && c in Apply(cfg, s, a).handlers
    ensures Apply(cfg, s, a).handlers[c] == Renamed(n) ==>
              if a == Rename(c) then
                && c in s.handlers && s.handlers[c].Closed? && Renames(s, a, n, s.handlers[c].ino)
                && n in Apply(cfg, s, a).disk.names && Apply(cfg, s, a).disk.names[n] == s.handlers[c].ino
              else c in s.handlers && s.handlers[c] == Renamed(n) && !a.Crash? && !(a.Stage? && a.c == c)
    ensures Apply(cfg, s, a).handlers[c] == Committed(n) ==>
              c in s.handlers && !(a.Stage? && a.c == c)
              && s.handlers[c] == if a == DirSync(c) then Renamed(n) else Committed(n)
  {
    if a.OfHandler() && a.c != c {
      OtherPhases(cfg, s, a);
      hide Apply, Enabled;
      assert c in Apply(cfg, s, a).handlers - {a.c};
      assert (Apply(cfg, s, a).handlers - {a.c})[c] == (s.handlers - {a.c})[c];
    } else {
      hide ParseHeader, Complete, IsTmp, TmpNames, Disk.CrashesTo, Need;
    }
  }

  /** While a handler stands after its rename, the name leads the running system to its file, or to
      that of a later rename. */
  lemma {:induction false} RenamedTrace(cfg: Config, s: State, run: seq<Action>, c: ConnId, n: Name) returns (j: int)
    requires s.handlers == map[] && Allowed(cfg, s, run)
    requires c in Exec(cfg, s, run).handlers && Exec(cfg, s, run).handlers[c] == Renamed(n)
    ensures MadeBy(cfg, s, run, j, c, n) && n in Exec(cfg, s, run).disk.names
    ensures RenamedFrom(cfg, s, run, j, n, Exec(cfg, s, run).disk.names[n])
  {
    hide Enabled, Apply, RenamedAt, RenamedFrom, Renames, MadeBy;
    var front, a := run[..|run| - 1], run[|run| - 1];
    assert run == front + [a];
    var t := Exec(cfg, s, front);
    CameToRenamed(cfg, t, a, c, n);
    if a == Rename(c) {
      j := |front|;
      NowMadeBy(cfg, s, front, c, n, t.handlers[c].ino);
      LastRenamedFrom(cfg, s, front, a, j, n, t.handlers[c].ino);
    } else {
      j := RenamedTrace(cfg, s, front, c, n);
      StillMadeBy(cfg, s, front, a, j, c, n);
      MadeBefore(cfg, s, front, j, c, n);
      StepNames(cfg, t, a, n);
      var i := Apply(cfg, t, a).disk.names[n];
      if i == t.disk.names[n] {
        StillRenamedFrom(cfg, s, front, a, j, n, i);
      } else {
        LastRenamedFrom(cfg, s, front, a, j, n, i);
      }
    }
  }

  lemma NowMadeBy(cfg: Config, s: State, run: seq<Action>, c: ConnId, n: Name, i: Inode)
    requires Allowed(cfg, s, run) && Renames(Exec(cfg, s, run), Rename(c), n, i)
    ensures MadeBy(cfg, s, run + [Rename(c)], |run|, c, n)
  {
    hide RenamedAt, Renames, Allowed, Exec;
    RenamedEarlier(cfg, s, run, Rename(c), 0, n, i);
  }

  lemma MadeBefore(cfg: Config, s: State, run: seq<Action>, j: int, c: ConnId, n: Name)
    requires MadeBy(cfg, s, run, j, c, n)
    ensures 0 <= j < |run|
  {
    hide RenamedAt;
  }

  lemma {:induction false} CommittedTrace(cfg: Config, s: State, run: seq<Action>, c: ConnId, n: Name) returns (j: int)
    requires Initial(s) && Inv(s) && Allowed(cfg, s, run)
    requires c in Exec(cfg, s, run).handlers && Exec(cfg, s, run).handlers[c] == Committed(n)
    ensures MadeBy(cfg, s, run, j, c, n) && LedFrom(cfg, s, run, j, n)
  {
    hide Enabled, Apply, RenamedFrom, MadeBy, LedFrom, Inv;
    var front, a := run[..|run| - 1], run[|run| - 1];
    assert run == front + [a];
    var t := Exec(cfg, s, front);
    CameToRenamed(cfg, t, a, c, n);
    if a == DirSync(c) {
      j := RenamedTrace(cfg, s, front, c, n);
      SyncLedFrom(cfg, s, front, c, j, n);
    } else {
      j := CommittedTrace(cfg, s, front, c, n);
      MadeBefore(cfg, s, front, j, c, n);
      StepLedFrom(cfg, s, front, a, j, n);
    }
    StillMadeBy(cfg, s, front, a, j, c, n);
  }

  lemma SyncLedFrom(cfg: Config, s: State, run: seq<Action>, c: ConnId, j: int, n: Name)
    requires Inv(s) && Allowed(cfg, s, run) && Enabled(cfg, Exec(cfg, s, run), DirSync(c))
    requires n in Exec(cfg, s, run).disk.names
    requires RenamedFrom(cfg, s, run, j, n, Exec(cfg, s, run).disk.names[n])
    ensures Allowed(cfg, s, run + [DirSync(c)]) && LedFrom(cfg, s, run + [DirSync(c)], j, n)
  {
    hide Inv, Enabled, Apply, Leads, RenamedFrom;
    RunKeepsInv(cfg, s, run);
    OneMoreStep(cfg, s, run, DirSync(c));
    DirSyncSettles(cfg, Exec(cfg, s, run), c, n);
    StillRenamedFrom(cfg, s, run, DirSync(c), j, n, Exec(cfg, s, run).disk.names[n]);
  }

  lemma {:induction false} RunLedFrom(cfg: Config, s: State, run: seq<Action>, more: seq<Action>, j: int, n: Name)
    requires Inv(s) && Allowed(cfg, s, run) && Allowed(cfg, s, run + more) && j <= |run| && LedFrom(cfg, s, run, j, n)
    ensures LedFrom(cfg, s, run + more, j, n)
  {
    hide Enabled, Apply, LedFrom, Inv;
    if more == [] {
      assert run + more == run;
    } else {
      var front, a := more[..|more| - 1], more[|more| - 1];
      assert (run + more)[..|run + more| - 1] == run + front && run + more == (run + front) + [a];
      RunLedFrom(cfg, s, run, front, j, n);
      StepLedFrom(cfg, s, run + front, a, j, n);
    }
  }

  /** What an ACK is worth. When a handler is about to write it, that handler itself has renamed the
      request it staged last, at some step j. From then on, over every continuation with crashes, kills
      and boots, its name is on stable storage: on the file of that rename, or on that of a later
      rename of the same name, and with the bytes that this file had when it was renamed. */
  lemma AckSurvives(cfg: Config, s: State, run: seq<Action>, more: seq<Action>, c: ConnId, n: Name)
    requires Initial(s) && Allowed(cfg, s, run) && Allowed(cfg, s, run + more)
    requires c in Exec(cfg, s, run).handlers && Exec(cfg, s, run).handlers[c] == Committed(n)
    ensures var d := Exec(cfg, s, run + more).disk;
            && n in d.durable
            && exists j, k :: j <= k && MadeBy(cfg, s, run, j, c, n) && CameFrom(cfg, s, run + more, k, n, d.durable[n])
  {
    InitialInv(s);
    hide Inv, Initial, Allowed, Exec, MadeBy, CameFrom, RenamedAt, Leads;
    var j := CommittedTrace(cfg, s, run, c, n);
    MadeBefore(cfg, s, run, j, c, n);
    RunLedFrom(cfg, s, run, more, j, n);
    var i := Exec(cfg, s, run + more).disk.durable[n];
    DurableLeads(Exec(cfg, s, run + more).disk, n);
    var k :| j <= k && RenamedAt(cfg, s, run + more, k, n, i);
    RenamedFileStays(cfg, s, run + more, k, n, i);
  }

  /** The file at step j is the acknowledged one: staged by c, verified against its hash. */
  lemma MadeByIsVerified(cfg: Config, s: State, run: seq<Action>, j: int, c: ConnId, n: Name)
    requires Initial(s) && Allowed(cfg, s, run) && MadeBy(cfg, s, run, j, c, n)
    ensures Allowed(cfg, s, run[..j])
    ensures var t := Exec(cfg, s, run[..j]);
            && c in t.handlers && t.handlers[c].Closed? && t.handlers[c].name == n
            && RenamedAt(cfg, s, run, j, n, t.handlers[c].ino)
            && Request(n, t.disk.Data(t.handlers[c].ino)) in t.verified
  {
    InitialInv(s);
    var i :| RenamedAt(cfg, s, run, j, n, i);
    RenamedByRename(cfg, s, run, j, n, i);
    RunKeepsInv(cfg, s, run[..j]);
    ClosedIsSynced(Exec(cfg, s, run[..j]), c);
    hide Inv, Initial, Allowed, Exec;
  }
}
