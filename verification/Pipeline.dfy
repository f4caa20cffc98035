/** The sender as a whole: one scanner, the queue as a monitor with its waiters, and any number of
    workers, each step one locked operation or one system call. Files appear and change under it. */
module Pipeline {
  import opened Wire
  import opened Queues
  import opened Scanners
  import opened Bags

  /** disk: the outbox, as far as scans take notice of it (visible files with valid names). pushing:
      files that scanOnce has latched and not yet pushed. gone: names that left the outbox (archived,
      deleted or quarantined). The last three count what became of every push. */
  datatype State = State(
    scan: States,
    pushing: seq<FileItem>,
    q: QState,
    workers: seq<Worker>,
    disk: Listing,
    gone: set<Name>,
    accepted: multiset<Name>,
    succeeded: multiset<Name>,
    quarantined: multiset<Name>)

  datatype Action =
    | Appear(n: Name, info: Info)
    | Change(n: Name, info: Info)
    | ScanDir(l: Listing, stable: seq<FileItem>)
    | PushOne(sorted: seq<FileItem>, wake: nat)
    | Pop(w: nat)
    | Deliver(w: nat, moved: bool)
    | Succeed(w: nat)
    | Fail(w: nat, dialing: bool, moved: bool, sorted: seq<FileItem>, wake: nat)
    | MarkDone(w: nat)
    | Retry(w: nat)
    | Exit(w: nat)
    | Stop

  /** The sender has just started; the outbox may hold anything. */
  ghost predicate Initial(s: State) {
    && s.scan == map[] && s.pushing == [] && s.q == NEW_QUEUE
    && (forall i :: 0 <= i < |s.workers| ==> s.workers[i] == Ready)
    && s.gone == {} && (forall n :: n in s.disk ==> ValidName(n))
    && s.accepted == multiset{} && s.succeeded == multiset{} && s.quarantined == multiset{}
  }

  /** Signal picks a blocked worker whenever there is one. */
  ghost predicate WakesOne(ws: seq<Worker>, wake: nat) {
    AnyBlocked(ws) ==> wake < |ws| && ws[wake].Blocked?
  }

  /** The scan lists files that are there, and every tracked file that is there. */
  ghost predicate FaithfulListing(s: State, l: Listing) {
    && (forall n :: n in l ==> n in s.disk && s.disk[n] == l[n])
    && (forall n :: n in s.scan && n in s.disk ==> n in l)
  }

  predicate IsWorker(s: State, w: nat) {
    w < |s.workers|
  }

  ghost predicate Enabled(max: nat, s: State, a: Action) {
    match a
    case Appear(n, _) => ValidName(n) && n !in s.disk && n !in s.gone
    case Change(n, _) => n in s.disk
    case ScanDir(l, stable) => s.pushing == [] && FaithfulListing(s, l) && HandedOver(s.scan, l, stable)
    case PushOne(sorted, wake) =>
      && s.pushing != []
      && (s.q.Accepts(s.pushing[0]) ==> Resorted(s.q.items + [s.pushing[0]], sorted) && WakesOne(s.workers, wake))
    case Pop(w) => IsWorker(s, w) && (s.workers[w].Ready? || s.workers[w].Signalled?)
    case Deliver(w, moved) => IsWorker(s, w) && s.workers[w].Holding? && (moved ==> s.workers[w].item.name in s.disk)
    case Succeed(w) => IsWorker(s, w) && s.workers[w].Delivered?
    case Fail(w, _, moved, sorted, wake) =>
      && IsWorker(s, w) && s.workers[w].Holding?
      && (moved ==> s.workers[w].item.name in s.disk)
      && (s.q.Requeues(max, s.workers[w].item.name) ==>
            Resorted([s.workers[w].item] + s.q.items, sorted) && WakesOne(s.workers, wake))
    case MarkDone(w) => IsWorker(s, w) && s.workers[w].Recorded?
    case Retry(w) => IsWorker(s, w) && s.workers[w].Backoff?
    case Exit(w) => IsWorker(s, w) && (s.workers[w].Ready? || s.workers[w].Backoff?)
    case Stop => true
  }

  function Place(s: State, w: nat, x: Worker): (t: State)
    requires IsWorker(s, w)
  {
    s.(workers := s.workers[w := x])
  }

  function Leave(s: State, n: Name): (t: State) {
    s.(disk := s.disk - {n}, gone := s.gone + {n})
  }

  function Pushed(s: State, sorted: seq<FileItem>, wake: nat): (t: State)
    requires s.pushing != []
  {
    var item, rest := s.pushing[0], s.(pushing := s.pushing[1..]);
    if s.q.Accepts(item) then
      rest.(q := s.q.Push(item, sorted), workers := Wake(s.workers, wake), accepted := s.accepted + multiset{item.name})
    else rest
  }

  /** Pop, or what a woken waiter does: take the oldest item, leave, or wait. */
  function Popped(s: State, w: nat): (t: State)
    requires IsWorker(s, w)
  {
    if s.q.items != [] then Place(s, w, Holding(s.q.items[0])).(q := s.q.Pop())
    else Place(s, w, if s.q.stopped then Exited else Blocked)
  }

  /** RecordFailure. After a transfer error a quarantined file is still to be marked completed;
      after a dial error it never is. */
  function Failed(max: nat, s: State, w: nat, dialing: bool, moved: bool, sorted: seq<FileItem>, wake: nat): (t: State)
    requires IsWorker(s, w) && s.workers[w].Holding?
  {
    var item := s.workers[w].item;
    var q := s.q.RecordFailure(max, item, sorted);
    if s.q.Quarantines(max, item.name) then
      var t := Place(s, w, if dialing then Backoff else Recorded(item))
          .(q := q, quarantined := s.quarantined + multiset{item.name});
      if moved then Leave(t, item.name) else t
    else
      var t := Place(s, w, if dialing then Backoff else Ready).(q := q);
      if s.q.Requeues(max, item.name) then t.(workers := Wake(t.workers, wake)) else t
  }

  function Apply(max: nat, s: State, a: Action): (t: State)
    requires Enabled(max, s, a)
  {
    match a
    case Appear(n, info) => s.(disk := s.disk[n := info])
    case Change(n, info) => s.(disk := s.disk[n := info])
    case ScanDir(l, stable) => s.(scan := Scanned(s.scan, l), pushing := stable)
    case PushOne(sorted, wake) => Pushed(s, sorted, wake)
    case Pop(w) => Popped(s, w)
    case Deliver(w, moved) =>
      var item := s.workers[w].item;
      var t := Place(s, w, Delivered(item));
      if moved then Leave(t, item.name) else t
    case Succeed(w) =>
      var item := s.workers[w].item;
      Place(s, w, Recorded(item)).(q := s.q.RecordSuccess(item.name), succeeded := s.succeeded + multiset{item.name})
    case Fail(w, dialing, moved, sorted, wake) => Failed(max, s, w, dialing, moved, sorted, wake)
    case MarkDone(w) => Place(s, w, Ready).(scan := s.scan - {s.workers[w].item.name})
    case Retry(w) => Place(s, w, Ready)
    case Exit(w) => Place(s, w, Exited)
    case Stop => s.(q := s.q.Stop(), workers := WakeAll(s.workers))
  }

  // ---------- the invariant ----------

  /** In how many places a name is: waiting to be pushed, queued, in flight, or being completed. */
  ghost function Owners(s: State, n: Name): (k: nat) {
    Copies(s.pushing, n) + Copies(s.q.items, n) + InFlight(s.workers, n) + Finishing(s.workers, n)
  }

  ghost predicate SingleOwner(s: State) {
    forall n :: Owners(s, n) <= 1
  }

  /** An owned name is latched by the scanner, or its file has left the outbox for good. */
  ghost predicate Latched(s: State) {
    forall n :: Owners(s, n) > 0 ==> n in s.gone || (n in s.disk && n in s.scan && s.scan[n].queued)
  }

  ghost predicate QueueExact(max: nat, s: State) {
    Ordered(max, s.q) && s.q.inQueue == Names(s.q.items)
  }

  /** Enough workers have been woken for the items in the queue, if any worker still sleeps. */
  ghost predicate NoLostWakeup(s: State) {
    && (AnyBlocked(s.workers) ==> |s.q.items| <= Signals(s.workers))
    && (s.q.stopped ==> !AnyBlocked(s.workers))
  }

  ghost predicate Conserved(s: State) {
    forall n :: s.accepted[n] == Copies(s.q.items, n) + InFlight(s.workers, n) + s.succeeded[n] + s.quarantined[n]
  }

  /** A name that left the outbox does not come back, and what is tracked is there or left. */
  ghost predicate GoneForGood(s: State) {
    && (forall n :: n in s.gone ==> n !in s.disk)
    && (forall n :: n in s.scan ==> n in s.disk || n in s.gone)
  }

  ghost predicate Inv(max: nat, s: State) {
    SingleOwner(s) && Latched(s) && QueueExact(max, s) && NoLostWakeup(s) && Conserved(s) && GoneForGood(s)
  }

  // ---------- preservation: workers ----------

  /** The counts after worker w moves to phase x, with the rest of the state as it was. */
  lemma PlaceCounts(s: State, w: nat, x: Worker, n: Name)
    requires IsWorker(s, w)
    ensures var t := Place(s, w, x);
            && InFlight(t.workers, n) == InFlight(s.workers, n) - Holds(s.workers[w], n) + Holds(x, n)
            && Finishing(t.workers, n) == Finishing(s.workers, n) - Settles(s.workers[w], n) + Settles(x, n)
            && Holds(s.workers[w], n) + Settles(s.workers[w], n) <= Owners(s, n)
  {
    WorkerUpdate(s.workers, w, x, n);
  }

  /** A worker that is neither blocked before nor after leaves the wakeup balance to its signal. */
  lemma PlaceWakeups(s: State, w: nat, x: Worker)
    requires IsWorker(s, w) && NoLostWakeup(s) && !s.workers[w].Signalled? && !x.Blocked?
    ensures NoLostWakeup(Place(s, w, x))
  {
    SignalsUpdate(s.workers, w, x);
    var t := Place(s, w, x);
    if AnyBlocked(t.workers) {
      var i :| 0 <= i < |t.workers| && t.workers[i].Blocked?;
      assert s.workers[i].Blocked?;
    }
  }

  /** Deliver, Succeed, Complete, Retry, Exit: one worker moves on, the queue's items stay. */
  lemma MoveKeepsInv(max: nat, s: State, w: nat, x: Worker, t: State)
    requires Inv(max, s) && IsWorker(s, w) && !s.workers[w].Signalled? && !x.Blocked?
    requires t.workers == s.workers[w := x] && t.pushing == s.pushing && t.q == s.q.(attempts := t.q.attempts)
    requires QueueExact(max, t) && GoneForGood(t)
    requires forall n :: Holds(x, n) + Settles(x, n) <= Holds(s.workers[w], n) + Settles(s.workers[w], n)
    requires forall n :: t.accepted[n] == s.accepted[n]
    requires forall n ::
               t.succeeded[n] + t.quarantined[n] + Holds(x, n) ==
               s.succeeded[n] + s.quarantined[n] + Holds(s.workers[w], n)
    requires forall n :: Owners(t, n) > 0 && n !in t.gone ==>
               && (n in s.disk ==> n in t.disk) && (n in s.gone ==> n in t.gone)
               && (n in s.scan && s.scan[n].queued ==> n in t.scan && t.scan[n].queued)
    ensures Inv(max, t)
  {
    hide Copies, InFlight, Finishing, Holds, Settles;
    forall n
      ensures Owners(t, n) <= Owners(s, n)
      ensures t.accepted[n] == Copies(t.q.items, n) + InFlight(t.workers, n) + t.succeeded[n] + t.quarantined[n]
    {
      PlaceCounts(s, w, x, n);
    }
    PlaceWakeups(s, w, x);
  }

  lemma DeliverKeepsInv(max: nat, s: State, w: nat, moved: bool)
    requires Inv(max, s) && Enabled(max, s, Deliver(w, moved))
    ensures Inv(max, Apply(max, s, Deliver(w, moved)))
  {
    var t := Apply(max, s, Deliver(w, moved));
    hide Owners, SingleOwner, Latched, NoLostWakeup, Conserved, Ordered, Names;
    MoveKeepsInv(max, s, w, Delivered(s.workers[w].item), t);
  }

  lemma SucceedKeepsInv(max: nat, s: State, w: nat)
    requires Inv(max, s) && Enabled(max, s, Succeed(w))
    ensures Inv(max, Apply(max, s, Succeed(w)))
  {
    var t := Apply(max, s, Succeed(w));
    assert QueueExact(max, t);
    hide Owners, SingleOwner, Latched, NoLostWakeup, Conserved, QueueExact;
    MoveKeepsInv(max, s, w, Recorded(s.workers[w].item), t);
  }

  lemma CompleteKeepsInv(max: nat, s: State, w: nat)
    requires Inv(max, s) && Enabled(max, s, MarkDone(w))
    ensures Inv(max, Apply(max, s, MarkDone(w)))
  {
    var t, m := Apply(max, s, MarkDone(w)), s.workers[w].item.name;
    assert Owners(s, m) <= 1;
    PlaceCounts(s, w, Ready, m);
    assert Owners(t, m) == 0;
    hide Owners, SingleOwner, Latched, NoLostWakeup, Conserved, QueueExact;
    MoveKeepsInv(max, s, w, Ready, t);
  }

  lemma IdleKeepsInv(max: nat, s: State, w: nat, x: Worker)
    requires Inv(max, s) && IsWorker(s, w) && (s.workers[w].Ready? || s.workers[w].Backoff?) && (x.Ready? || x.Exited?)
    ensures Inv(max, Place(s, w, x))
  {
    hide Owners, SingleOwner, Latched, NoLostWakeup, Conserved, Ordered, Names;
    MoveKeepsInv(max, s, w, x, Place(s, w, x));
  }

  /** Steps that worker i takes. */
  ghost predicate Acts(a: Action, i: nat) {
    (a.Pop? || a.Deliver? || a.Succeed? || a.Fail? || a.MarkDone? || a.Retry? || a.Exit?) && a.w == i
  }

  /** A worker that takes no step stands where it stood, except that it may be woken. */
  lemma WorkerAfter(max: nat, s: State, a: Action, i: nat)
    requires Enabled(max, s, a) && IsWorker(s, i)
    ensures var t := Apply(max, s, a);
            && |t.workers| == |s.workers|
            && (!Acts(a, i) ==> t.workers[i] == s.workers[i] || (s.workers[i].Blocked? && t.workers[i].Signalled?))
            && (Acts(a, i) && !a.Exit? && (a.Pop? ==> s.q.items != [] || !s.q.stopped) ==> !t.workers[i].Exited?)
            && (Acts(a, i) && !a.Pop? ==> !t.workers[i].Holding?)
  {
    hide Resorted, Sorted, WakesOne, Wake, WakeAll, FaithfulListing, AnyBlocked, Failed, Pushed;
    match a
    case PushOne(sorted, wake) => PushedWorker(s, sorted, wake, i);
    case Fail(w, dialing, moved, sorted, wake) => FailedWorker(max, s, w, dialing, moved, sorted, wake, i);
    case Stop => WakeAllAt(s.workers, i);
    case _ =>
  }

  lemma PushedWorker(s: State, sorted: seq<FileItem>, wake: nat, i: nat)
    requires s.pushing != [] && IsWorker(s, i)
    ensures var t := Pushed(s, sorted, wake);
            && |t.workers| == |s.workers|
            && (t.workers[i] == s.workers[i] || (s.workers[i].Blocked? && t.workers[i].Signalled?))
  {
    WakeAt(s.workers, wake, i);
    hide Wake;
  }

  lemma FailedWorker(
    max: nat, s: State, w: nat, dialing: bool, moved: bool, sorted: seq<FileItem>, wake: nat, i: nat)
    requires IsWorker(s, w) && s.workers[w].Holding? && IsWorker(s, i)
    ensures var t := Failed(max, s, w, dialing, moved, sorted, wake);
            && |t.workers| == |s.workers|
            && (i != w ==> t.workers[i] == s.workers[i] || (s.workers[i].Blocked? && t.workers[i].Signalled?))
            && (i == w ==> !t.workers[i].Exited? && !t.workers[i].Holding?)
  {
    WakeAt(s.workers[w := if dialing then Backoff else Ready], wake, i);
    hide Wake;
  }

  /** What leaves the outbox and what appears in it. */
  lemma DiskAfter(max: nat, s: State, a: Action)
    requires Enabled(max, s, a)
    ensures var t := Apply(max, s, a);
            t.disk.Keys ==
              match a
              case Appear(n, _) => s.disk.Keys + {n}
              case Deliver(w, moved) => if moved then s.disk.Keys - {s.workers[w].item.name} else s.disk.Keys
              case Fail(w, _, moved, _, _) =>
                if moved && s.q.Quarantines(max, s.workers[w].item.name) then s.disk.Keys - {s.workers[w].item.name}
                  else s.disk.Keys
              case _ => s.disk.Keys
  {
    hide Resorted, WakesOne, Wake, WakeAll, FaithfulListing;
  }

  /** A file's size and time change only when it appears or is changed. */
  lemma InfosStay(max: nat, s: State, a: Action)
    requires Enabled(max, s, a) && !a.Appear? && !a.Change?
    ensures var t := Apply(max, s, a); forall n :: n in t.disk ==> n in s.disk && t.disk[n] == s.disk[n]
  {
    hide Resorted, WakesOne, Wake, WakeAll, FaithfulListing;
  }

  // ---------- preservation: pushing and popping ----------

  /** A name that a worker holds or that waits to be pushed is not queued. */
  lemma NotQueued(max: nat, s: State, n: Name)
    requires Inv(max, s) && Copies(s.pushing, n) + InFlight(s.workers, n) + Finishing(s.workers, n) > 0
    ensures n !in s.q.inQueue && Copies(s.q.items, n) == 0
  {
    assert Owners(s, n) <= 1;
    CopiesMembers(s.q.items, n);
  }

  lemma WakeKeeps(ws: seq<Worker>, wake: nat, n: Name)
    ensures InFlight(Wake(ws, wake), n) == InFlight(ws, n) && Finishing(Wake(ws, wake), n) == Finishing(ws, n)
  {
    if wake < |ws| && ws[wake].Blocked? {
      WorkerUpdate(ws, wake, Signalled, n);
    }
  }

  /** One more item, one more signal. */
  lemma WakeBalance(ws: seq<Worker>, wake: nat, items: nat)
    requires WakesOne(ws, wake) && (AnyBlocked(ws) ==> items <= Signals(ws))
    ensures AnyBlocked(Wake(ws, wake)) ==> AnyBlocked(ws) && items + 1 <= Signals(Wake(ws, wake))
  {
    var r := Wake(ws, wake);
    if AnyBlocked(r) {
      var i :| 0 <= i < |r| && r[i].Blocked?;
      assert ws[i].Blocked?;
      SignalsUpdate(ws, wake, Signalled);
    }
  }

  lemma SortedLength(a: seq<FileItem>, b: seq<FileItem>)
    requires Resorted(a, b)
    ensures |a| == |b|
  {
    assert |multiset(a)| == |a| && |multiset(b)| == |b|;
  }

  lemma PushCounts(s: State, sorted: seq<FileItem>, wake: nat, n: Name)
    requires s.pushing != [] && (s.q.Accepts(s.pushing[0]) ==> Resorted(s.q.items + [s.pushing[0]], sorted))
    ensures var t := Pushed(s, sorted, wake);
            && Owners(t, n) <= Owners(s, n)
            && t.accepted[n] - Copies(t.q.items, n) == s.accepted[n] - Copies(s.q.items, n)
            && InFlight(t.workers, n) == InFlight(s.workers, n)
  {
    var item := s.pushing[0];
    CopiesHead(s.pushing, n);
    if s.q.Accepts(item) {
      CopiesOfSame(s.q.items + [item], sorted, n);
      CopiesAppend(s.q.items, item, n);
      WakeKeeps(s.workers, wake, n);
    }
  }

  lemma PushKeepsQueue(max: nat, s: State, sorted: seq<FileItem>, wake: nat)
    requires QueueExact(max, s) && NoLostWakeup(s) && Enabled(max, s, PushOne(sorted, wake))
    ensures QueueExact(max, Pushed(s, sorted, wake)) && NoLostWakeup(Pushed(s, sorted, wake))
  {
    hide Names, Resorted, Wake, Signals, AnyBlocked, WakesOne, Ordered;
    var item := s.pushing[0];
    if s.q.Accepts(item) {
      PushKeeps(max, s.q, item, sorted);
      SortedLength(s.q.items + [item], sorted);
      WakeBalance(s.workers, wake, |s.q.items|);
    }
  }

  lemma PushKeepsCounts(s: State, sorted: seq<FileItem>, wake: nat)
    requires SingleOwner(s) && Latched(s) && Conserved(s)
    requires s.pushing != [] && (s.q.Accepts(s.pushing[0]) ==> Resorted(s.q.items + [s.pushing[0]], sorted))
    ensures var t := Pushed(s, sorted, wake); SingleOwner(t) && Latched(t) && Conserved(t)
  {
    PushFrame(s, sorted, wake);
    hide Owners, InFlight, Finishing, Copies, Resorted, Wake, Pushed;
    forall n
      ensures Owners(Pushed(s, sorted, wake), n) <= Owners(s, n)
    {
      PushCounts(s, sorted, wake, n);
    }
    forall n
      ensures var t := Pushed(s, sorted, wake);
              t.accepted[n] == Copies(t.q.items, n) + InFlight(t.workers, n) + t.succeeded[n] + t.quarantined[n]
    {
      PushCounts(s, sorted, wake, n);
    }
  }

  /** A push leaves scanner, disk and outcomes alone. */
  lemma PushFrame(s: State, sorted: seq<FileItem>, wake: nat)
    requires s.pushing != []
    ensures var t := Pushed(s, sorted, wake);
            && t.pushing == s.pushing[1..] && t.scan == s.scan && t.disk == s.disk && t.gone == s.gone
            && t.succeeded == s.succeeded && t.quarantined == s.quarantined
  {
  }

  lemma PushKeepsInv(max: nat, s: State, sorted: seq<FileItem>, wake: nat)
    requires Inv(max, s) && Enabled(max, s, PushOne(sorted, wake))
    ensures Inv(max, Pushed(s, sorted, wake))
  {
    PushKeepsQueue(max, s, sorted, wake);
    PushKeepsCounts(s, sorted, wake);
    PushFrame(s, sorted, wake);
    hide SingleOwner, Latched, Conserved, QueueExact, NoLostWakeup, Enabled, Pushed;
  }

  lemma PopCounts(s: State, w: nat, n: Name)
    requires IsWorker(s, w) && (s.workers[w].Ready? || s.workers[w].Signalled?)
    ensures var t := Popped(s, w);
            && Owners(t, n) == Owners(s, n)
            && Copies(t.q.items, n) + InFlight(t.workers, n) == Copies(s.q.items, n) + InFlight(s.workers, n)
  {
    PlaceCounts(s, w, Popped(s, w).workers[w], n);
    if s.q.items != [] { CopiesHead(s.q.items, n); }
  }

  lemma PopWakeups(s: State, w: nat)
    requires NoLostWakeup(s) && IsWorker(s, w) && (s.workers[w].Ready? || s.workers[w].Signalled?)
    ensures NoLostWakeup(Popped(s, w))
  {
    var t := Popped(s, w);
    SignalsUpdate(s.workers, w, t.workers[w]);
    if AnyBlocked(t.workers) && (s.q.items != [] || s.q.stopped) {
      var i :| 0 <= i < |t.workers| && t.workers[i].Blocked?;
      assert s.workers[i].Blocked?;
    }
  }

  lemma PopKeepsInv(max: nat, s: State, w: nat)
    requires Inv(max, s) && IsWorker(s, w) && (s.workers[w].Ready? || s.workers[w].Signalled?)
    ensures Inv(max, Popped(s, w))
  {
    hide InFlight, Finishing, Copies, AnyBlocked, Signals;
    var t := Popped(s, w);
    forall n
      ensures Owners(t, n) == Owners(s, n)
      ensures t.accepted[n] == Copies(t.q.items, n) + InFlight(t.workers, n) + t.succeeded[n] + t.quarantined[n]
    {
      PopCounts(s, w, n);
    }
    PopWakeups(s, w);
    if s.q.items != [] { PopKeepsExact(max, s); }
  }

  lemma PopKeepsExact(max: nat, s: State)
    requires Inv(max, s) && s.q.items != []
    ensures Ordered(max, s.q.Pop()) && s.q.Pop().inQueue == Names(s.q.Pop().items)
  {
    var n := s.q.items[0].name;
    PopKeeps(max, s.q);
    CopiesHead(s.q.items, n);
    assert Owners(s, n) <= 1;
    CopiesMembers(s.q.items[1..], n);
  }

  // ---------- preservation: failures, scans, shutdown ----------

  lemma HeldIsNotQueued(max: nat, s: State, w: nat)
    requires Inv(max, s) && IsWorker(s, w) && s.workers[w].Holding?
    ensures s.workers[w].item.name !in s.q.inQueue
  {
    var n := s.workers[w].item.name;
    PlaceCounts(s, w, Ready, n);
    NotQueued(max, s, n);
  }

  lemma QuarantineKeepsInv(max: nat, s: State, w: nat, dialing: bool, moved: bool)
    requires Inv(max, s) && IsWorker(s, w) && s.workers[w].Holding? && s.q.Quarantines(max, s.workers[w].item.name)
    ensures Inv(max, Failed(max, s, w, dialing, moved, [], 0))
  {
    var item := s.workers[w].item;
    var t := Failed(max, s, w, dialing, moved, [], 0);
    HeldIsNotQueued(max, s, w);
    assert t.q.inQueue == s.q.inQueue;
    hide Owners, SingleOwner, Latched, NoLostWakeup, Conserved, Names;
    MoveKeepsInv(max, s, w, if dialing then Backoff else Recorded(item), t);
  }

  /** A requeued file moves from its worker to the queue. */
  lemma RequeueCounts(s: State, w: nat, x: Worker, sorted: seq<FileItem>, wake: nat, n: Name)
    requires IsWorker(s, w) && s.workers[w].Holding? && (x.Ready? || x.Backoff?)
    requires Resorted([s.workers[w].item] + s.q.items, sorted)
    ensures var ws := Wake(s.workers[w := x], wake);
            && Copies(sorted, n) + InFlight(ws, n) == Copies(s.q.items, n) + InFlight(s.workers, n)
            && Finishing(ws, n) == Finishing(s.workers, n)
  {
    var item := s.workers[w].item;
    PlaceCounts(s, w, x, n);
    WakeKeeps(s.workers[w := x], wake, n);
    CopiesOfSame([item] + s.q.items, sorted, n);
    CopiesHead([item] + s.q.items, n);
    assert ([item] + s.q.items)[1..] == s.q.items;
  }

  lemma RequeueKeepsInv(max: nat, s: State, w: nat, dialing: bool, sorted: seq<FileItem>, wake: nat)
    requires Inv(max, s) && IsWorker(s, w) && s.workers[w].Holding? && s.q.Requeues(max, s.workers[w].item.name)
    requires Resorted([s.workers[w].item] + s.q.items, sorted) && WakesOne(s.workers, wake)
    ensures Inv(max, Failed(max, s, w, dialing, false, sorted, wake))
  {
    hide InFlight, Finishing, Copies, AnyBlocked, Signals, Wake, WakesOne;
    var item, x := s.workers[w].item, if dialing then Backoff else Ready;
    var t := Failed(max, s, w, dialing, false, sorted, wake);
    forall n
      ensures Owners(t, n) == Owners(s, n)
      ensures t.accepted[n] == Copies(t.q.items, n) + InFlight(t.workers, n) + t.succeeded[n] + t.quarantined[n]
    {
      RequeueCounts(s, w, x, sorted, wake, n);
    }
    FailureKeeps(max, s.q, item, sorted);
    RequeueWakeups(s, w, x, wake);
    SortedLength([item] + s.q.items, sorted);
  }

  lemma RequeueWakeups(s: State, w: nat, x: Worker, wake: nat)
    requires NoLostWakeup(s) && IsWorker(s, w) && s.workers[w].Holding? && (x.Ready? || x.Backoff?)
        && WakesOne(s.workers, wake)
    ensures var r := Wake(s.workers[w := x], wake);
            && (AnyBlocked(r) ==> |s.q.items| + 1 <= Signals(r))
            && (s.q.stopped ==> !AnyBlocked(r))
  {
    PlaceWakeups(s, w, x);
    var ws := s.workers[w := x];
    if AnyBlocked(ws) {
      var i :| 0 <= i < |ws| && ws[i].Blocked?;
      assert s.workers[i].Blocked?;
    }
    WakeBalance(ws, wake, |s.q.items|);
  }

  lemma ScanKeepsInv(max: nat, s: State, l: Listing, stable: seq<FileItem>)
    requires Inv(max, s) && s.pushing == [] && FaithfulListing(s, l) && HandedOver(s.scan, l, stable)
    ensures Inv(max, s.(scan := Scanned(s.scan, l), pushing := stable))
  {
    var t := s.(scan := Scanned(s.scan, l), pushing := stable);
    hide InFlight, Finishing, Copies;
    forall n
      ensures Owners(t, n) <= 1
      ensures Owners(t, n) > 0 ==> n in t.gone || (n in t.disk && n in t.scan && t.scan[n].queued)
    {
      assert Copies([], n) == 0 by { NoCopies(n); }
      assert Owners(s, n) <= 1;
      DistinctCopies(stable, n);
      CopiesMembers(stable, n);
      if Copies(stable, n) > 0 {
        var f :| f in stable && f.name == n;
        assert Owners(s, n) == 0;
      }
    }
  }

  lemma NoCopies(n: Name)
    ensures Copies([], n) == 0
  {
  }

  lemma StopKeepsInv(max: nat, s: State)
    requires Inv(max, s)
    ensures Inv(max, s.(q := s.q.Stop(), workers := WakeAll(s.workers)))
  {
    var t := s.(q := s.q.Stop(), workers := WakeAll(s.workers));
    hide InFlight, Finishing, Copies;
    forall n
      ensures Owners(t, n) == Owners(s, n) && InFlight(t.workers, n) == InFlight(s.workers, n)
    {
      WakeAllKeeps(s.workers, n);
    }
    WakeAllWakes(s.workers);
  }

  lemma DiskKeepsInv(max: nat, s: State, n: Name, info: Info)
    requires Inv(max, s) && n !in s.gone
    ensures Inv(max, s.(disk := s.disk[n := info]))
  {
    var t := s.(disk := s.disk[n := info]);
    assert forall m :: Owners(t, m) == Owners(s, m);
  }

  lemma StepKeepsInv(max: nat, s: State, a: Action)
    requires Inv(max, s) && Enabled(max, s, a)
    ensures Inv(max, Apply(max, s, a))
  {
    match a
    case Appear(n, info) => DiskKeepsInv(max, s, n, info);
    case Change(n, info) =>
      assert n !in s.gone;
      DiskKeepsInv(max, s, n, info);
    case ScanDir(l, stable) => ScanKeepsInv(max, s, l, stable);
    case PushOne(sorted, wake) => PushKeepsInv(max, s, sorted, wake);
    case Pop(w) => PopKeepsInv(max, s, w);
    case Deliver(w, moved) => DeliverKeepsInv(max, s, w, moved);
    case Succeed(w) => SucceedKeepsInv(max, s, w);
    case Fail(w, dialing, moved, sorted, wake) => FailKeepsInv(max, s, w, dialing, moved, sorted, wake);
    case MarkDone(w) => CompleteKeepsInv(max, s, w);
    case Retry(w) => IdleKeepsInv(max, s, w, Ready);
    case Exit(w) => IdleKeepsInv(max, s, w, Exited);
    case Stop => StopKeepsInv(max, s);
  }

  lemma FailKeepsInv(max: nat, s: State, w: nat, dialing: bool, moved: bool, sorted: seq<FileItem>, wake: nat)
    requires Inv(max, s) && Enabled(max, s, Fail(w, dialing, moved, sorted, wake))
    ensures Inv(max, Failed(max, s, w, dialing, moved, sorted, wake))
  {
    var n := s.workers[w].item.name;
    if s.q.Quarantines(max, n) {
      QuarantineKeepsInv(max, s, w, dialing, moved);
    } else {
      PlaceCounts(s, w, Ready, n);
      NotQueued(max, s, n);
      RequeueKeepsInv(max, s, w, dialing, sorted, wake);
    }
  }

  // ---------- every run ----------

  ghost predicate Allowed(max: nat, s: State, run: seq<Action>)
    decreases |run|, 0
  {
    run == [] ||
    (var front := run[..|run| - 1];
     Allowed(max, s, front) && Enabled(max, Exec(max, s, front), run[|run| - 1]))
  }

  ghost function Exec(max: nat, s: State, run: seq<Action>): (t: State)
    requires Allowed(max, s, run)
    decreases |run|, 1
  {
    if run == [] then s
    else Apply(max, Exec(max, s, run[..|run| - 1]), run[|run| - 1])
  }

  lemma {:induction false} IdleWorkers(ws: seq<Worker>, n: Name)
    requires forall i :: 0 <= i < |ws| ==> ws[i] == Ready
    ensures InFlight(ws, n) == 0 && Finishing(ws, n) == 0
  {
    if ws != [] { IdleWorkers(ws[..|ws| - 1], n); }
  }

  lemma InitialInv(max: nat, s: State)
    requires max >= 1 && Initial(s)
    ensures Inv(max, s)
  {
    forall n ensures Owners(s, n) == 0 && InFlight(s.workers, n) == 0 { IdleWorkers(s.workers, n); }
  }

  lemma {:induction false} RunKeepsInv(max: nat, s: State, run: seq<Action>)
    requires Inv(max, s) && Allowed(max, s, run)
    ensures Inv(max, Exec(max, s, run))
  {
    hide Inv, Enabled, Apply;
    if run != [] {
      RunKeepsInv(max, s, run[..|run| - 1]);
      StepKeepsInv(max, Exec(max, s, run[..|run| - 1]), run[|run| - 1]);
    }
  }

  /** Single owner: in every reachable state each file name is in at most one place among waiting to
      be pushed, queued, in flight and being completed, and the index names exactly the queued files,
      even across quarantine. */
  lemma OneOwnerEver(max: nat, s: State, run: seq<Action>)
    requires max >= 1 && Initial(s) && Allowed(max, s, run)
    ensures var t := Exec(max, s, run);
            && Distinct(t.pushing) && Distinct(t.q.items) && Names(t.pushing) !! Names(t.q.items)
            && (forall i, f :: 0 <= i < |t.workers| && Carries(t.workers[i], f) ==>
                  f.name !in Names(t.pushing) && f.name !in Names(t.q.items))
            && (forall i, j, f, g ::
                  0 <= i < j < |t.workers| && Carries(t.workers[i], f) && Carries(t.workers[j], g) ==> f.name != g.name)
            && t.q.inQueue == Names(t.q.items)
            && Sorted(t.q.items)
  {
    InitialInv(max, s);
    RunKeepsInv(max, s, run);
    OwnedOnce(Exec(max, s, run));
  }

  lemma OwnedOnce(t: State)
    requires SingleOwner(t)
    ensures Distinct(t.pushing) && Distinct(t.q.items) && Names(t.pushing) !! Names(t.q.items)
    ensures forall i, f :: 0 <= i < |t.workers| && Carries(t.workers[i], f) ==>
              f.name !in Names(t.pushing) && f.name !in Names(t.q.items)
    ensures forall i, j, f, g ::
              0 <= i < j < |t.workers| && Carries(t.workers[i], f) && Carries(t.workers[j], g) ==> f.name != g.name
  {
    hide Copies, InFlight, Finishing, Names;
    forall n
      ensures !(n in Names(t.pushing) && n in Names(t.q.items))
    {
      CopiesMembers(t.pushing, n);
      CopiesMembers(t.q.items, n);
      assert Owners(t, n) <= 1;
    }
    forall i, j | 0 <= i < j < |t.pushing| ensures t.pushing[i].name != t.pushing[j].name {
      assert Owners(t, t.pushing[i].name) <= 1;
      if t.pushing[i].name == t.pushing[j].name { TwoCopies(t.pushing, i, j); }
    }
    forall i, j | 0 <= i < j < |t.q.items| ensures t.q.items[i].name != t.q.items[j].name {
      assert Owners(t, t.q.items[i].name) <= 1;
      if t.q.items[i].name == t.q.items[j].name { TwoCopies(t.q.items, i, j); }
    }
    forall i, f | 0 <= i < |t.workers| && Carries(t.workers[i], f)
      ensures f.name !in Names(t.pushing) && f.name !in Names(t.q.items)
    {
      CarrierOwns(t, i, f);
    }
    forall i, j, f, g | 0 <= i < j < |t.workers| && Carries(t.workers[i], f) && Carries(t.workers[j], g)
      ensures f.name != g.name
    {
      assert Owners(t, f.name) <= 1;
      if f.name == g.name { TwoCarriers(t.workers, i, j, f, g); }
    }
  }

  lemma CarrierOwns(t: State, i: nat, f: FileItem)
    requires i < |t.workers| && Carries(t.workers[i], f)
    ensures Owners(t, f.name) >= 1
    ensures Owners(t, f.name) <= 1 ==> f.name !in Names(t.pushing) && f.name !in Names(t.q.items)
  {
    hide Copies, InFlight, Finishing, Names;
    WorkerUpdate(t.workers, i, t.workers[i], f.name);
    CopiesMembers(t.pushing, f.name);
    CopiesMembers(t.q.items, f.name);
  }

  /** No lost wakeup: whenever a worker sleeps in Pop, at least as many workers are already signalled
      as there are items; after Stop no worker sleeps. */
  lemma NoSleepOverWork(max: nat, s: State, run: seq<Action>)
    requires max >= 1 && Initial(s) && Allowed(max, s, run)
    ensures var t := Exec(max, s, run);
            && ((exists i :: 0 <= i < |t.workers| && t.workers[i].Blocked?) ==> |t.q.items| <= |Woken(t.workers)|)
            && (t.q.stopped ==> forall i :: 0 <= i < |t.workers| ==> !t.workers[i].Blocked?)
  {
    InitialInv(max, s);
    RunKeepsInv(max, s, run);
    SignalsCount(Exec(max, s, run).workers);
    hide Initial, Allowed, Exec, Signals, Woken;
  }

  // ---------- what an item says ----------

  /** f waits to be pushed, is queued, or is with a worker. */
  ghost predicate InHand(s: State, f: FileItem) {
    f in s.pushing || f in s.q.items || exists w :: 0 <= w < |s.workers| && Carries(s.workers[w], f)
  }

  /** A scan that handed f over, with the size and time that it listed. */
  ghost predicate HandsOut(a: Action, f: FileItem) {
    && a.ScanDir? && f in a.stable
    && f.name in a.l && f.size == a.l[f.name].size && f.modTime == a.l[f.name].modTime
  }

  ghost predicate HandsOutName(a: Action, n: Name) {
    a.ScanDir? && n in Names(a.stable)
  }

  lemma InHandOwned(s: State, f: FileItem)
    requires InHand(s, f)
    ensures Owners(s, f.name) > 0
  {
    hide Copies, InFlight, Finishing;
    CopiesMembers(s.pushing, f.name);
    CopiesMembers(s.q.items, f.name);
    if w :| 0 <= w < |s.workers| && Carries(s.workers[w], f) { CarrierOwns(s, w, f); }
  }

  lemma ResortedItems(items: seq<FileItem>, result: seq<FileItem>, f: FileItem)
    requires Resorted(items, result)
    ensures f in result <==> f in items
  {
    assert f in result <==> f in multiset(result);
    assert f in items <==> f in multiset(items);
  }

  lemma ScanInHand(max: nat, s: State, l: Listing, stable: seq<FileItem>, f: FileItem)
    requires Inv(max, s) && Enabled(max, s, ScanDir(l, stable)) && InHand(Apply(max, s, ScanDir(l, stable)), f)
    ensures HandsOut(ScanDir(l, stable), f) || (InHand(s, f) && f.name !in Names(stable))
  {
    if f !in stable {
      assert InHand(s, f);
      InHandOwned(s, f);
      hide Owners, SingleOwner, QueueExact, NoLostWakeup, Conserved;
    }
  }

  lemma CarriedBefore(max: nat, s: State, a: Action, w: nat, f: FileItem)
    requires Enabled(max, s, a) && w < |s.workers| == |Apply(max, s, a).workers|
        && Carries(Apply(max, s, a).workers[w], f)
    ensures Carries(s.workers[w], f) || f in s.q.items
  {
    WorkerAfter(max, s, a, w);
    if a.Fail? && a.w == w { FailedCarries(max, s, w, a.dialing, a.moved, a.sorted, a.wake, f); }
    hide Resorted, Sorted, WakesOne, Wake, WakeAll, FaithfulListing, AnyBlocked, Pushed, Failed, QState.Accepts,
      QState.Requeues, HandedOver;
  }

  lemma FailedCarries(max: nat, s: State, w: nat, dialing: bool, moved: bool, sorted: seq<FileItem>, wake: nat,
      f: FileItem)
    requires IsWorker(s, w) && s.workers[w].Holding?
    ensures var t := Failed(max, s, w, dialing, moved, sorted, wake);
            |t.workers| == |s.workers| && (Carries(t.workers[w], f) ==> Carries(s.workers[w], f))
  {
    WakeAt(s.workers[w := if dialing then Backoff else Ready], wake, w);
    hide Wake;
  }

  lemma StepInHand(max: nat, s: State, a: Action, f: FileItem)
    requires Inv(max, s) && Enabled(max, s, a) && InHand(Apply(max, s, a), f)
    ensures HandsOut(a, f) || (InHand(s, f) && !HandsOutName(a, f.name))
  {
    hide Resorted, Sorted, WakesOne, Wake, WakeAll, FaithfulListing, AnyBlocked, HandedOver, Inv, HandsOut;
    var t := Apply(max, s, a);
    if a.ScanDir? {
      ScanInHand(max, s, a.l, a.stable, f);
    } else if w :| 0 <= w < |t.workers| && Carries(t.workers[w], f) {
      WorkerAfter(max, s, a, 0);
      CarriedBefore(max, s, a, w, f);
    } else {
      if a.PushOne? && s.q.Accepts(s.pushing[0]) { ResortedItems(s.q.items + [s.pushing[0]], a.sorted, f); }
      if a.Fail? && s.q.Requeues(max, s.workers[a.w].item.name) {
        ResortedItems([s.workers[a.w].item] + s.q.items, a.sorted, f);
        assert Carries(s.workers[a.w], s.workers[a.w].item);
      }
    }
  }

  /** Every item waiting to be pushed, queued or with a worker carries the size and the time that a scan
      listed for it, and that scan was the last to hand the name over. */
  lemma {:induction false} ItemsAsListed(max: nat, s: State, run: seq<Action>, f: FileItem)
    requires max >= 1 && Initial(s) && Allowed(max, s, run) && InHand(Exec(max, s, run), f)
    ensures exists k :: 0 <= k < |run| && HandsOut(run[k], f)
              && forall j :: k < j < |run| ==> !HandsOutName(run[j], f.name)
  {
    hide Enabled, Apply, HandsOut, HandsOutName, InHand, Inv;
    if run == [] {
      NothingInHand(s, f);
    } else {
      var front, a := run[..|run| - 1], run[|run| - 1];
      InitialInv(max, s);
      RunKeepsInv(max, s, front);
      StepInHand(max, Exec(max, s, front), a, f);
      if HandsOut(a, f) {
        assert HandsOut(run[|run| - 1], f);
      } else {
        ItemsAsListed(max, s, front, f);
        var k :| 0 <= k < |front| && HandsOut(front[k], f)
          && forall j :: k < j < |front| ==> !HandsOutName(front[j], f.name);
        assert HandsOut(run[k], f) && forall j :: k < j < |front| ==> front[j] == run[j];
      }
    }
  }

  lemma NothingInHand(s: State, f: FileItem)
    requires Initial(s)
    ensures !InHand(s, f)
  {
  }

  /** Conservation: of every name, accepted pushes are queued, in flight, succeeded or quarantined.
      When every worker has exited nothing is in flight: shutdown drops no popped file. */
  lemma PushesConserved(max: nat, s: State, run: seq<Action>, n: Name)
    requires max >= 1 && Initial(s) && Allowed(max, s, run)
    ensures var t := Exec(max, s, run);
            && t.accepted[n] == Copies(t.q.items, n) + InFlight(t.workers, n) + t.succeeded[n] + t.quarantined[n]
            && ((forall i :: 0 <= i < |t.workers| ==> t.workers[i].Exited?) ==>
                  t.accepted[n] == Copies(t.q.items, n) + t.succeeded[n] + t.quarantined[n])
  {
    InitialInv(max, s);
    RunKeepsInv(max, s, run);
    var t := Exec(max, s, run);
    hide Initial, Allowed, Exec;
    if forall i :: 0 <= i < |t.workers| ==> t.workers[i].Exited? {
      NobodyHolds(t.workers, n);
    }
  }
}
