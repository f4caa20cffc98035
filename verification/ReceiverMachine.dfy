/** The receiver as a state machine: any number of connection handlers, each advancing by one
    system call at a time, over one directory, with crashes and restarts at any step. The bytes
    that arrive are arbitrary: nothing is assumed about the peer. */
module ReceiverMachine {
  import opened Bytes
  import opened Wire
  import opened Disks

  datatype Config = Config(sha: Hash, maxSize: uint64)

  type ConnId = nat

  /** Where a handler stands. tmp and ino are the staging file it owns. */
  datatype Phase =
    | Reading(buf: seq<byte>)
    | Body(name: Name, size: uint64, tmp: Name, ino: Inode, trailer: seq<byte>)
    | Verified(name: Name, tmp: Name, ino: Inode)
    | Synced(name: Name, tmp: Name, ino: Inode)
    | Closed(name: Name, tmp: Name, ino: Inode)
    | Renamed(name: Name)
    | Committed(name: Name)
  {
    predicate Owns() {
      Body? || Verified? || Synced? || Closed?
    }
  }

  /** leaked: staging files whose removal failed. verified: every (name, payload) whose complete
      payload matched its hash trailer, ever. */
  datatype State = State(
    disk: Disk,
    handlers: map<ConnId, Phase>,
    leaked: set<Name>,
    up: bool,
    verified: set<Request>)

  datatype Action =
    | Accept(c: ConnId)
    | Feed(c: ConnId, chunk: seq<byte>)
    | Stage(c: ConnId, tmp: Name, ino: Inode)
    | Verify(c: ConnId)
    | FileSync(c: ConnId)
    | Close(c: ConnId)
    | Rename(c: ConnId)
    | DirSync(c: ConnId)
    | Ack(c: ConnId)
    | Exit(c: ConnId, removed: bool)
    | Kill                          // the process ends, the machine stays up
    | Crash(after: Disk)            // the machine stops
    | Boot(stuck: set<Name>)
  {
    /** A step of the handler of connection c. */
    predicate OfHandler() {
      !Kill? && !Crash? && !Boot?
    }
  }

  /** What the directory holds under each final name. */
  ghost function Contents(d: Disk): (rs: set<Request>) {
    set n | n in d.names :: Request(n, d.Data(d.names[n]))
  }

  /** The server has not started. The directory is as earlier lives of it left it: its final names
      are on stable storage; staging may hold anything. */
  ghost predicate Initial(s: State) {
    && s.handlers == map[] && s.leaked == {} && !s.up
    && s.disk.names == s.disk.durable && s.disk.pending == {} && s.verified == Contents(s.disk)
    && forall n :: n in s.disk.names ==>
         ValidName(n) && s.disk.names[n] in s.disk.files && s.disk.files[s.disk.names[n]].synced
  }

  /** How many bytes the read in progress may still take. */
  function Need(cfg: Config, d: Disk, p: Phase): (n: nat) {
    match p
    case Reading(buf) =>
      var h := ParseHeader(buf, cfg.maxSize);
      if h.More? && h.total > |buf| then h.total - |buf| else 0
    case Body(_, size, _, ino, trailer) =>
      if size >= INT64_LIMIT then 0
      else if |d.Data(ino)| < size then size - |d.Data(ino)|
      else if |trailer| < HASH_SIZE then HASH_SIZE - |trailer| else 0
    case _ => 0
  }

  /** The payload and its trailer are complete and the hash agrees. */
  predicate Complete(cfg: Config, d: Disk, p: Phase) {
    && p.Body?
    && p.size < INT64_LIMIT
    && |d.Data(p.ino)| == p.size
    && p.trailer == cfg.sha(d.Data(p.ino))
  }

  ghost predicate Enabled(cfg: Config, s: State, a: Action) {
    match a
    case Accept(c) => s.up && c !in s.handlers
    case Feed(c, chunk) => c in s.handlers && 0 < |chunk| <= Need(cfg, s.disk, s.handlers[c])
    case Stage(c, tmp, ino) =>
      && c in s.handlers && s.handlers[c].Reading?
      && ParseHeader(s.handlers[c].buf, cfg.maxSize).Header?
      && IsTmp(tmp) && tmp !in s.disk.staging && ino !in s.disk.files
    case Verify(c) => c in s.handlers && Complete(cfg, s.disk, s.handlers[c])
    case FileSync(c) => c in s.handlers && s.handlers[c].Verified?
    case Close(c) => c in s.handlers && s.handlers[c].Synced?
    case Rename(c) => c in s.handlers && s.handlers[c].Closed?
    case DirSync(c) => c in s.handlers && s.handlers[c].Renamed?
    case Ack(c) => c in s.handlers && s.handlers[c].Committed?
    case Exit(c, _) => c in s.handlers
    case Kill => s.up
    case Crash(after) => s.disk.CrashesTo(after)
    case Boot(stuck) => !s.up && stuck <= TmpNames(s.disk.staging)
  }

  function Move(s: State, c: ConnId, p: Phase): (t: State)
    ensures t.disk == s.disk
    ensures t.handlers - {c} == s.handlers - {c}
  {
    s.(handlers := s.handlers[c := p])
  }

  function Fed(s: State, c: ConnId, p: Phase, chunk: seq<byte>): (t: State)
    ensures t.disk.names == s.disk.names && t.disk.durable == s.disk.durable && t.disk.pending == s.disk.pending
    ensures t.handlers - {c} == s.handlers - {c}
  {
    match p
    case Reading(buf) => Move(s, c, Reading(buf + chunk))
    case Body(name, size, tmp, ino, trailer) =>
      if |s.disk.Data(ino)| < size then s.(disk := s.disk.Append(ino, chunk))
      else Move(s, c, Body(name, size, tmp, ino, trailer + chunk))
    case _ => s
  }

  function Staged(s: State, c: ConnId, name: Name, size: uint64, tmp: Name, ino: Inode): (t: State)
    ensures t.disk.names == s.disk.names && t.disk.durable == s.disk.durable && t.disk.pending == s.disk.pending
    ensures t.handlers - {c} == s.handlers - {c}
  {
    Move(s, c, Body(name, size, tmp, ino, [])).(disk := s.disk.Create(tmp, ino))
  }

  function Exited(s: State, c: ConnId, p: Phase, removed: bool): (t: State)
    ensures t.disk.names == s.disk.names && t.disk.durable == s.disk.durable && t.disk.pending == s.disk.pending
    ensures t.handlers - {c} == s.handlers - {c}
  {
    var rest := s.(handlers := s.handlers - {c});
    if !p.Owns() then rest
    else if removed then rest.(disk := s.disk.Remove(p.tmp))
    else rest.(leaked := s.leaked + {p.tmp})
  }

  function Apply(cfg: Config, s: State, a: Action): (t: State)
    requires Enabled(cfg, s, a)
  {
    match a
    case Accept(c) => Move(s, c, Reading([]))
    case Feed(c, chunk) => Fed(s, c, s.handlers[c], chunk)
    case Stage(c, tmp, ino) =>
      var h := ParseHeader(s.handlers[c].buf, cfg.maxSize);
      Staged(s, c, h.name, h.size, tmp, ino)
    case Verify(c) =>
      var p := s.handlers[c];
      Move(s, c, Verified(p.name, p.tmp, p.ino)).(verified := s.verified + {Request(p.name, s.disk.Data(p.ino))})
    case FileSync(c) =>
      var p := s.handlers[c];
      Move(s, c, Synced(p.name, p.tmp, p.ino)).(disk := s.disk.FileSync(p.ino))
    case Close(c) =>
      var p := s.handlers[c];
      Move(s, c, Closed(p.name, p.tmp, p.ino))
    case Rename(c) =>
      var p := s.handlers[c];
      Move(s, c, Renamed(p.name)).(disk := s.disk.Rename(p.tmp, p.ino, p.name))
    case DirSync(c) => Move(s, c, Committed(s.handlers[c].name)).(disk := s.disk.DirSync())
    case Ack(c) => Move(s, c, Reading([]))
    case Exit(c, removed) => Exited(s, c, s.handlers[c], removed)
    case Kill => s.(handlers := map[], leaked := {}, up := false)
    case Crash(after) => s.(disk := after, handlers := map[], leaked := {}, up := false)
    case Boot(stuck) =>
      s.(disk := s.disk.Cleaned(stuck), leaked := stuck, up := true)
  }

  // ---------- the invariant ----------

  /** A directory entry leads to a complete, hash-verified payload that is on stable storage. */
  ghost predicate GoodEntry(s: State, n: Name, i: Inode) {
    i in s.disk.files && s.disk.files[i].synced && Request(n, s.disk.files[i].data) in s.verified && ValidName(n)
  }

  ghost predicate DirectoriesGood(s: State) {
    && (forall n :: n in s.disk.names ==> GoodEntry(s, n, s.disk.names[n]))
    && (forall n :: n in s.disk.durable ==> GoodEntry(s, n, s.disk.durable[n]))
    && (forall e :: e in s.disk.pending ==> GoodEntry(s, e.0, e.1))
    && s.disk.durable.Keys <= s.disk.names.Keys
  }

  ghost predicate OwnsFile(s: State, p: Phase)
    requires p.Owns()
  {
    && p.tmp in s.disk.staging && s.disk.staging[p.tmp] == p.ino && p.ino in s.disk.files
    && IsTmp(p.tmp) && p.tmp !in s.leaked
  }

  ghost predicate PhaseOk(s: State, p: Phase) {
    match p
    case Reading(_) => true
    case Body(name, size, _, ino, trailer) =>
      && OwnsFile(s, p) && ValidName(name) && !s.disk.files[ino].synced
      && |s.disk.Data(ino)| <= size && |trailer| <= HASH_SIZE
      && (trailer != [] ==> |s.disk.Data(ino)| == size)
    case Verified(name, _, ino) =>
      OwnsFile(s, p) && ValidName(name) && Request(name, s.disk.Data(ino)) in s.verified
    case Renamed(name) => name in s.disk.names
    case Committed(name) => name in s.disk.durable
    case _ =>
      OwnsFile(s, p) && GoodEntry(s, p.name, p.ino)
  }

  ghost predicate HandlersOk(s: State) {
    forall c :: c in s.handlers ==> PhaseOk(s, s.handlers[c])
  }

  ghost predicate NoSharing(s: State) {
    forall c, c' :: c in s.handlers && c' in s.handlers && c != c' && s.handlers[c].Owns() && s.handlers[c'].Owns() ==>
      s.handlers[c].tmp != s.handlers[c'].tmp && s.handlers[c].ino != s.handlers[c'].ino
  }

  ghost predicate OwnedBy(s: State, c: ConnId, t: Name) {
    c in s.handlers && s.handlers[c].Owns() && s.handlers[c].tmp == t
  }

  ghost predicate Accounted(s: State, t: Name) {
    t in s.leaked || exists c :: OwnedBy(s, c, t)
  }

  ghost predicate StagingAccounted(s: State) {
    && (s.up ==> forall t :: t in s.disk.staging && IsTmp(t) ==> Accounted(s, t))
    && (forall t :: t in s.leaked ==> t in s.disk.staging && IsTmp(t))
    && (!s.up ==> s.handlers == map[])
  }

  ghost predicate Inv(s: State) {
    DirectoriesGood(s) && HandlersOk(s) && NoSharing(s) && StagingAccounted(s)
  }

  // ---------- preservation ----------

  /** Only the handler of connection c changes, and what is known only grows. */
  ghost predicate OnlyHandler(s: State, t: State, c: ConnId) {
    && (forall x :: x != c ==> (x in t.handlers <==> x in s.handlers))
    && (forall x :: x != c && x in s.handlers ==> t.handlers[x] == s.handlers[x])
    && s.verified <= t.verified
    && s.disk.names.Keys <= t.disk.names.Keys
    && s.disk.durable.Keys <= t.disk.durable.Keys
  }

  /** The staging file of an owning handler is as it was. */
  ghost predicate FileKept(s: State, t: State, p: Phase) {
    p.Owns() && p.ino in s.disk.files && p.tmp in s.disk.staging ==>
      && p.ino in t.disk.files && t.disk.files[p.ino] == s.disk.files[p.ino]
      && p.tmp in t.disk.staging && t.disk.staging[p.tmp] == s.disk.staging[p.tmp]
      && (p.tmp in t.leaked ==> p.tmp in s.leaked)
  }

  lemma PhaseFrame(s: State, t: State, c: ConnId, p: Phase)
    requires PhaseOk(s, p) && OnlyHandler(s, t, c) && FileKept(s, t, p)
    ensures PhaseOk(t, p)
  {
    hide ValidName;
  }

  lemma HandlersFrame(s: State, t: State, c: ConnId)
    requires HandlersOk(s) && OnlyHandler(s, t, c)
    requires forall x :: x != c && x in s.handlers ==> FileKept(s, t, s.handlers[x])
    requires c in t.handlers ==> PhaseOk(t, t.handlers[c])
    ensures HandlersOk(t)
  {
    hide PhaseOk, FileKept;
    forall x | x in t.handlers && x != c
      ensures PhaseOk(t, t.handlers[x])
    {
      PhaseFrame(s, t, c, s.handlers[x]);
    }
  }

  /** Handler c still owns the file it owned, or none. */
  ghost predicate OwnershipKept(s: State, t: State, c: ConnId) {
    c in t.handlers && t.handlers[c].Owns() ==>
      c in s.handlers && s.handlers[c].Owns() && t.handlers[c].tmp == s.handlers[c].tmp
        && t.handlers[c].ino == s.handlers[c].ino
  }

  lemma NoSharingFrame(s: State, t: State, c: ConnId)
    requires NoSharing(s) && OnlyHandler(s, t, c) && OwnershipKept(s, t, c)
    ensures NoSharing(t)
  {
  }

  lemma StagingFrame(s: State, t: State, c: ConnId)
    requires StagingAccounted(s) && OnlyHandler(s, t, c) && s.up == t.up && (c in s.handlers || s.up)
    requires s.leaked <= t.leaked
    requires forall n :: n in t.disk.staging && IsTmp(n) && n !in t.leaked ==> n in s.disk.staging || OwnedBy(t, c, n)
    requires forall n :: n in t.disk.staging && OwnedBy(s, c, n) ==> Accounted(t, n)
    requires forall n :: n in t.leaked ==> n in t.disk.staging && IsTmp(n)
    ensures StagingAccounted(t)
  {
    hide IsTmp;
    forall n | n in t.disk.staging && IsTmp(n) && n !in t.leaked
      ensures Accounted(t, n)
    {
      if !OwnedBy(t, c, n) {
        var x :| OwnedBy(s, x, n);
        assert x != c ==> OwnedBy(t, x, n);
      }
    }
  }

  lemma FilesKept(s: State, t: State, c: ConnId)
    requires HandlersOk(s) && NoSharing(s) && OnlyHandler(s, t, c)
    requires c in s.handlers && s.handlers[c].Owns()
    requires forall i :: i in s.disk.files && i != s.handlers[c].ino ==>
        i in t.disk.files && t.disk.files[i] == s.disk.files[i]
    requires forall n :: n in s.disk.staging && n != s.handlers[c].tmp ==>
        n in t.disk.staging && t.disk.staging[n] == s.disk.staging[n]
    requires t.leaked <= s.leaked + {s.handlers[c].tmp}
    ensures forall x :: x != c && x in s.handlers ==> FileKept(s, t, s.handlers[x])
  {
    hide PhaseOk;
  }

  lemma DirectoriesFrame(s: State, t: State)
    requires DirectoriesGood(s) && s.verified <= t.verified
    requires t.disk.names == s.disk.names && t.disk.durable == s.disk.durable && t.disk.pending == s.disk.pending
    requires forall i :: i in s.disk.files && s.disk.files[i].synced ==>
        i in t.disk.files && t.disk.files[i] == s.disk.files[i]
    ensures DirectoriesGood(t)
  {
    hide ValidName;
  }

  /** A step of one handler that leaves the final names alone. */
  lemma LocalStep(s: State, t: State, c: ConnId)
    requires Inv(s) && OnlyHandler(s, t, c) && OwnershipKept(s, t, c)
    requires c in s.handlers && s.up == t.up && s.leaked == t.leaked && s.disk.staging == t.disk.staging
    requires t.disk.names == s.disk.names && t.disk.durable == s.disk.durable && t.disk.pending == s.disk.pending
    requires t.disk.files.Keys == s.disk.files.Keys
    requires forall i :: i in s.disk.files && t.disk.files[i] != s.disk.files[i] ==>
                s.handlers[c].Owns() && i == s.handlers[c].ino && !s.disk.files[i].synced
    requires c in t.handlers && PhaseOk(t, t.handlers[c])
    requires forall n :: OwnedBy(s, c, n) ==> OwnedBy(t, c, n)
    ensures Inv(t)
  {
    hide PhaseOk, DirectoriesGood, HandlersOk, NoSharing, OwnedBy, IsTmp, FileKept;
    DirectoriesFrame(s, t);
    if s.handlers[c].Owns() {
      FilesKept(s, t, c);
    } else {
      assert t.disk.files == s.disk.files;
      forall x | x != c && x in s.handlers ensures FileKept(s, t, s.handlers[x]) { FileUntouched(s, t, s.handlers[x]); }
    }
    HandlersFrame(s, t, c);
    NoSharingFrame(s, t, c);
    StagingFrame(s, t, c);
  }

  lemma FileUntouched(s: State, t: State, p: Phase)
    requires t.disk.files == s.disk.files && s.disk.staging == t.disk.staging && s.leaked == t.leaked
    ensures FileKept(s, t, p)
  {
  }

  /** A handler moves on with the staging file it has, rewriting that file or not. */
  lemma MoveKeepsInv(s: State, c: ConnId, p: Phase, disk: Disk, verified: set<Request>)
    requires Inv(s) && c in s.handlers && s.verified <= verified
    requires disk == s.disk ||
             (var i := if s.handlers[c].Owns() then s.handlers[c].ino else 0;
              && s.handlers[c].Owns() && i in s.disk.files && !s.disk.files[i].synced && i in disk.files
              && disk == s.disk.(files := s.disk.files[i := disk.files[i]]))
    requires p.Owns() == s.handlers[c].Owns()
    requires p.Owns() ==> p.tmp == s.handlers[c].tmp && p.ino == s.handlers[c].ino
    requires PhaseOk(s.(disk := disk, verified := verified), p)
    ensures Inv(Move(s, c, p).(disk := disk, verified := verified))
  {
    hide PhaseOk, Inv;
    var t := Move(s, c, p).(disk := disk, verified := verified);
    assert PhaseOk(t, p) by { SamePhase(s.(disk := disk, verified := verified), t, p); }
    LocalStep(s, t, c);
  }

  lemma SamePhase(s: State, t: State, p: Phase)
    requires PhaseOk(s, p) && s.disk == t.disk && s.verified == t.verified && s.leaked == t.leaked
    ensures PhaseOk(t, p)
  {
    hide ValidName;
  }

  lemma FeedKeepsInv(cfg: Config, s: State, c: ConnId, chunk: seq<byte>)
    requires Inv(s) && c in s.handlers && 0 < |chunk| <= Need(cfg, s.disk, s.handlers[c])
    ensures Inv(Fed(s, c, s.handlers[c], chunk))
  {
    var p := s.handlers[c];
    assert PhaseOk(s, p);
    hide ParseHeader, ValidName, Inv;
    match p
    case Reading(buf) => MoveKeepsInv(s, c, Reading(buf + chunk), s.disk, s.verified);
    case Body(name, size, tmp, ino, trailer) =>
      if |s.disk.Data(ino)| < size {
        MoveKeepsInv(s, c, p, s.disk.Append(ino, chunk), s.verified);
        assert s.handlers == s.handlers[c := p];
      } else {
        MoveKeepsInv(s, c, Body(name, size, tmp, ino, trailer + chunk), s.disk, s.verified);
      }
    case _ =>
  }

  lemma StageKeepsInv(s: State, c: ConnId, name: Name, size: uint64, tmp: Name, ino: Inode)
    requires Inv(s) && c in s.handlers && s.handlers[c].Reading? && ValidName(name)
    requires IsTmp(tmp) && tmp !in s.disk.staging && ino !in s.disk.files
    ensures Inv(Staged(s, c, name, size, tmp, ino))
  {
    var t := Staged(s, c, name, size, tmp, ino);
    hide ValidName, DirectoriesGood, GoodEntry;
    assert OwnedBy(t, c, tmp);
    DirectoriesFrame(s, t);
    assert PhaseOk(t, t.handlers[c]);
    HandlersFrame(s, t, c);
    StagingFrame(s, t, c);
  }

  lemma AcceptKeepsInv(s: State, c: ConnId)
    requires Inv(s) && s.up && c !in s.handlers
    ensures Inv(Move(s, c, Reading([])))
  {
    var t := Move(s, c, Reading([]));
    hide ValidName;
    DirectoriesFrame(s, t);
    HandlersFrame(s, t, c);
    NoSharingFrame(s, t, c);
    StagingFrame(s, t, c);
  }

  lemma VerifyKeepsInv(s: State, c: ConnId, p: Phase)
    requires Inv(s) && c in s.handlers && s.handlers[c] == p && p.Body?
    ensures Inv(Move(s, c, Verified(p.name, p.tmp, p.ino))
        .(verified := s.verified + {Request(p.name, s.disk.Data(p.ino))}))
  {
    assert PhaseOk(s, p);
    hide ValidName, Inv;
    MoveKeepsInv(s, c, Verified(p.name, p.tmp, p.ino), s.disk, s.verified + {Request(p.name, s.disk.Data(p.ino))});
  }

  lemma FileSyncKeepsInv(s: State, c: ConnId, p: Phase)
    requires Inv(s) && c in s.handlers && s.handlers[c] == p && p.Verified?
    ensures Inv(Move(s, c, Synced(p.name, p.tmp, p.ino)).(disk := s.disk.FileSync(p.ino)))
  {
    assert PhaseOk(s, p);
    hide ValidName, Inv;
    MoveKeepsInv(s, c, Synced(p.name, p.tmp, p.ino), s.disk.FileSync(p.ino), s.verified);
  }

  lemma CloseKeepsInv(s: State, c: ConnId, p: Phase)
    requires Inv(s) && c in s.handlers && s.handlers[c] == p && p.Synced?
    ensures Inv(Move(s, c, Closed(p.name, p.tmp, p.ino)))
  {
    assert PhaseOk(s, p);
    hide ValidName, Inv;
    MoveKeepsInv(s, c, Closed(p.name, p.tmp, p.ino), s.disk, s.verified);
  }

  lemma RenameKeepsInv(s: State, c: ConnId, p: Phase)
    requires Inv(s) && c in s.handlers && s.handlers[c] == p && p.Closed?
    ensures Inv(Move(s, c, Renamed(p.name)).(disk := s.disk.Rename(p.tmp, p.ino, p.name)))
  {
    var t := Move(s, c, Renamed(p.name)).(disk := s.disk.Rename(p.tmp, p.ino, p.name));
    hide ValidName;
    assert PhaseOk(s, p);
    assert DirectoriesGood(t);
    FilesKept(s, t, c);
    HandlersFrame(s, t, c);
    NoSharingFrame(s, t, c);
    StagingFrame(s, t, c);
  }

  lemma DirSyncKeepsInv(s: State, c: ConnId, p: Phase)
    requires Inv(s) && c in s.handlers && s.handlers[c] == p && p.Renamed?
    ensures Inv(Move(s, c, Committed(p.name)).(disk := s.disk.DirSync()))
  {
    var t := Move(s, c, Committed(p.name)).(disk := s.disk.DirSync());
    hide ValidName;
    assert PhaseOk(s, p);
    assert DirectoriesGood(t);
    HandlersFrame(s, t, c);
    NoSharingFrame(s, t, c);
    StagingFrame(s, t, c);
  }

  lemma ExitKeepsInv(s: State, c: ConnId, removed: bool)
    requires Inv(s) && c in s.handlers
    ensures Inv(Exited(s, c, s.handlers[c], removed))
  {
    var t := Exited(s, c, s.handlers[c], removed);
    hide ValidName;
    assert PhaseOk(s, s.handlers[c]);
    DirectoriesFrame(s, t);
    if s.handlers[c].Owns() {
      FilesKept(s, t, c);
    }
    HandlersFrame(s, t, c);
    NoSharingFrame(s, t, c);
    StagingFrame(s, t, c);
  }

  lemma CrashKeepsInv(s: State, after: Disk)
    requires Inv(s) && s.disk.CrashesTo(after)
    ensures Inv(s.(disk := after, handlers := map[], leaked := {}, up := false))
  {
    hide ValidName;
    var t := s.(disk := after, handlers := map[], leaked := {}, up := false);
    forall n | n in after.durable ensures GoodEntry(t, n, after.durable[n]) {
      if (n, after.durable[n]) in s.disk.pending {
        var e := (n, after.durable[n]);
        assert GoodEntry(s, e.0, e.1);
      } else {
        assert GoodEntry(s, n, s.disk.durable[n]);
      }
    }
  }

  lemma KillKeepsInv(s: State)
    requires Inv(s)
    ensures Inv(s.(handlers := map[], leaked := {}, up := false))
  {
    hide ValidName;
    DirectoriesFrame(s, s.(handlers := map[], leaked := {}, up := false));
  }

  lemma BootKeepsInv(s: State, stuck: set<Name>)
    requires Inv(s) && !s.up && stuck <= TmpNames(s.disk.staging)
    ensures Inv(s.(disk := s.disk.Cleaned(stuck), leaked := stuck, up := true))
  {
    hide ValidName;
  }

  lemma StepKeepsInv(cfg: Config, s: State, a: Action)
    requires Inv(s) && Enabled(cfg, s, a)
    ensures Inv(Apply(cfg, s, a))
  {
    hide Inv, Digest, Fed, Staged, Exited;
    match a
    case Accept(c) => AcceptKeepsInv(s, c);
    case Feed(c, chunk) => FeedKeepsInv(cfg, s, c, chunk);
    case Stage(c, tmp, ino) =>
      HeaderCanonical(s.handlers[c].buf, cfg.maxSize);
      var h := ParseHeader(s.handlers[c].buf, cfg.maxSize);
      StageKeepsInv(s, c, h.name, h.size, tmp, ino);
    case Rename(c) => RenameKeepsInv(s, c, s.handlers[c]);
    case DirSync(c) => DirSyncKeepsInv(s, c, s.handlers[c]);
    case Exit(c, removed) => ExitKeepsInv(s, c, removed);
    case Kill => KillKeepsInv(s);
    case Crash(after) => CrashKeepsInv(s, after);
    case Verify(c) => VerifyKeepsInv(s, c, s.handlers[c]);
    case FileSync(c) => FileSyncKeepsInv(s, c, s.handlers[c]);
    case Close(c) => CloseKeepsInv(s, c, s.handlers[c]);
    case Ack(c) => MoveKeepsInv(s, c, Reading([]), s.disk, s.verified);
    case Boot(stuck) => BootKeepsInv(s, stuck);
  }

  // ---------- runs ----------

  ghost predicate Allowed(cfg: Config, s: State, run: seq<Action>)
    decreases |run|, 0
  {
    run == [] ||
    (var front := run[..|run| - 1];
     Allowed(cfg, s, front) && Enabled(cfg, Exec(cfg, s, front), run[|run| - 1]))
  }

  ghost function Exec(cfg: Config, s: State, run: seq<Action>): (t: State)
    requires Allowed(cfg, s, run)
    decreases |run|, 1
  {
    if run == [] then s
    else Apply(cfg, Exec(cfg, s, run[..|run| - 1]), run[|run| - 1])
  }

  lemma OneMoreStep(cfg: Config, s: State, run: seq<Action>, a: Action)
    requires Allowed(cfg, s, run) && Enabled(cfg, Exec(cfg, s, run), a)
    ensures Allowed(cfg, s, run + [a])
    ensures Exec(cfg, s, run + [a]) == Apply(cfg, Exec(cfg, s, run), a)
  {
    assert (run + [a])[..|run|] == run;
  }

  lemma {:induction false} RunKeepsInv(cfg: Config, s: State, run: seq<Action>)
    requires Inv(s) && Allowed(cfg, s, run)
    ensures Inv(Exec(cfg, s, run))
  {
    hide Inv, Enabled, Apply;
    if run != [] {
      RunKeepsInv(cfg, s, run[..|run| - 1]);
      StepKeepsInv(cfg, Exec(cfg, s, run[..|run| - 1]), run[|run| - 1]);
    }
  }

  /** Only a rename, a directory sync and a crash change what the names lead to. */
  lemma NamesKept(cfg: Config, s: State, a: Action)
    requires Enabled(cfg, s, a) && !a.Rename? && !a.DirSync? && !a.Crash?
    ensures var d := Apply(cfg, s, a).disk;
            d.names == s.disk.names && d.durable == s.disk.durable && d.pending == s.disk.pending
  {
    hide ParseHeader, Digest, Move, Fed, Staged, Exited, Need, Complete, IsTmp, TmpNames, Disk.CrashesTo;
  }

  lemma DurableGrows(cfg: Config, s: State, a: Action)
    requires Enabled(cfg, s, a) && s.disk.durable.Keys <= s.disk.names.Keys
    ensures s.disk.durable.Keys <= Apply(cfg, s, a).disk.durable.Keys
  {
    if a.Crash? {
      CrashKeepsDurable(s.disk, a.after);
    } else if !a.Rename? && !a.DirSync? {
      NamesKept(cfg, s, a);
      hide Apply;
    }
    hide ParseHeader, Digest, Move, Fed, Staged, Exited, Need, Complete, IsTmp, TmpNames, Disk.CrashesTo;
  }

  lemma CrashKeepsDurable(d: Disk, after: Disk)
    requires d.CrashesTo(after)
    ensures d.durable.Keys <= after.durable.Keys
  {
  }

  lemma DurableInNames(s: State)
    requires Inv(s)
    ensures s.disk.durable.Keys <= s.disk.names.Keys
  {
  }

  lemma InitialInv(s: State)
    requires Initial(s)
    ensures Inv(s)
  {
    hide ValidName;
  }

  /** r was received completely and its hash trailer matched, in this state, on connection c. */
  ghost predicate ReceivedAt(cfg: Config, s: State, c: ConnId, r: Request) {
    c in s.handlers && Complete(cfg, s.disk, s.handlers[c])
      && r == Request(s.handlers[c].name, s.disk.Data(s.handlers[c].ino))
  }

  ghost predicate ReceivedDuring(cfg: Config, s: State, run: seq<Action>, r: Request)
    requires Allowed(cfg, s, run)
  {
    exists k, c :: 0 <= k <= |run| && Allowed(cfg, s, run[..k]) && ReceivedAt(cfg, Exec(cfg, s, run[..k]), c, r)
  }

  lemma {:induction false} VerifiedWereReceived(cfg: Config, s: State, run: seq<Action>, r: Request)
    requires Initial(s) && Allowed(cfg, s, run) && r in Exec(cfg, s, run).verified
    ensures r in Contents(s.disk) || ReceivedDuring(cfg, s, run, r)
  {
    hide ParseHeader, ValidName, Digest, Complete, Contents;
    if run != [] {
      var front, a := run[..|run| - 1], run[|run| - 1];
      if r in Exec(cfg, s, front).verified {
        VerifiedWereReceived(cfg, s, front, r);
        if r !in Contents(s.disk) {
          var k, c :| 0 <= k <= |front| && Allowed(cfg, s, front[..k])
              && ReceivedAt(cfg, Exec(cfg, s, front[..k]), c, r);
          assert front[..k] == run[..k];
        }
      } else {
        assert ReceivedAt(cfg, Exec(cfg, s, front), a.c, r);
      }
    }
  }

  /** Crash atomicity: stop the machine at any step of any number of concurrent commits, and every
      final name still maps to the payload it durably had or to another one that was received
      completely and verified against its hash; never to a part of a file. */
  lemma CrashAtomicity(cfg: Config, s: State, run: seq<Action>, after: Disk, n: Name)
    requires Initial(s) && Allowed(cfg, s, run)
    requires Exec(cfg, s, run).disk.CrashesTo(after)
    requires n in after.names
    ensures var r := Request(n, after.Data(after.names[n])); r in Contents(s.disk) || ReceivedDuring(cfg, s, run, r)
    ensures var d := Exec(cfg, s, run).disk;
            || (n in d.durable && after.Data(after.names[n]) == d.Data(d.durable[n]))
            || (n, after.names[n]) in d.pending
    ensures ValidName(n) && !IsTmp(n)
  {
    var t := Exec(cfg, s, run);
    InitialInv(s);
    RunKeepsInv(cfg, s, run);
    var u := t.(disk := after, handlers := map[], leaked := {}, up := false);
    CrashKeepsInv(t, after);
    assert GoodEntry(u, n, after.names[n]);
    VerifiedWereReceived(cfg, s, run, Request(n, after.Data(after.names[n])));
    ValidNames(n);
    if n in t.disk.durable { assert GoodEntry(t, n, t.disk.durable[n]); }
  }

  /** Staging ownership, with the removals that failed set apart: while the server runs, the .tmp
      files are exactly those of the handlers between create and rename, no two handlers share a
      file, and none of them can be mistaken for a final name. */
  lemma StagingOwnership(cfg: Config, s: State, run: seq<Action>)
    requires Initial(s) && Allowed(cfg, s, run)
    ensures var t := Exec(cfg, s, run);
            && NoSharing(t)
            && (forall n :: n in t.disk.names ==> !IsTmp(n))
            && (forall f, c :: OwnedBy(t, c, f) ==> f in t.disk.staging && IsTmp(f) && f !in t.leaked)
            && (t.up ==> forall f :: f in t.disk.staging && IsTmp(f) ==>
                  (f !in t.leaked <==> exists c :: OwnedBy(t, c, f)))
  {
    var t := Exec(cfg, s, run);
    InitialInv(s);
    RunKeepsInv(cfg, s, run);
    hide ValidName, Initial;
    forall n | n in t.disk.names
      ensures !IsTmp(n)
    {
      assert GoodEntry(t, n, t.disk.names[n]);
      ValidNames(n);
    }
    forall f, c | OwnedBy(t, c, f)
      ensures f in t.disk.staging && IsTmp(f) && f !in t.leaked
    {
      assert PhaseOk(t, t.handlers[c]);
    }
    forall f | t.up && f in t.disk.staging && IsTmp(f)
      ensures f !in t.leaked <==> exists c :: OwnedBy(t, c, f)
    {
      assert Accounted(t, f);
    }
  }

  ghost predicate RemovalsSucceed(run: seq<Action>) {
    forall k :: 0 <= k < |run| ==> (run[k].Exit? ==> run[k].removed) && (run[k].Boot? ==> run[k].stuck == {})
  }

  lemma {:induction false} NothingLeaks(cfg: Config, s: State, run: seq<Action>)
    requires s.leaked == {} && Allowed(cfg, s, run) && RemovalsSucceed(run)
    ensures Exec(cfg, s, run).leaked == {}
  {
    hide ParseHeader, Need, Complete;
    if run != [] {
      NothingLeaks(cfg, s, run[..|run| - 1]);
      assert run[|run| - 1].Exit? ==> run[|run| - 1].removed;
    }
  }

  /** Every way a handler can end, a crash and a kill included, leaves nothing behind: when removals
      succeed, a running server's .tmp files are exactly those that a live handler owns, so there
      are none once every connection has ended. */
  lemma NothingLeftBehind(cfg: Config, s: State, run: seq<Action>)
    requires Initial(s) && Allowed(cfg, s, run) && RemovalsSucceed(run) && Exec(cfg, s, run).up
    ensures var t := Exec(cfg, s, run);
            && (forall f :: f in t.disk.staging && IsTmp(f) <==> exists c :: OwnedBy(t, c, f))
            && (t.handlers == map[] ==> forall f :: f in t.disk.staging ==> !IsTmp(f))
  {
    NothingLeaks(cfg, s, run);
    StagingOwnership(cfg, s, run);
    hide Exec, Allowed, IsTmp, Initial;
  }
}
