/** How far the sender's work can go on: retries run out, and files leave oldest first. */
module Progress {
  import opened Wire
  import opened Monitor
  import opened Queues
  import opened Bags
  import opened Pipeline

  type Attempts = map<Name, nat>

  /** How many more attempts a file may have. */
  ghost function Remaining(max: nat, at: Attempts, n: Name): (k: nat) {
    var made := if n in at then at[n] else 0;
    if made < max then max - made else 0
  }

  ghost function QueueWork(max: nat, at: Attempts, items: seq<FileItem>): (k: nat) {
    if items == [] then 0
    else QueueWork(max, at, items[..|items| - 1]) + Remaining(max, at, items[|items| - 1].name)
  }

  ghost function WorkerWork(max: nat, at: Attempts, w: Worker): (k: nat) {
    if w.Holding? || w.Delivered? then Remaining(max, at, w.item.name) else 0
  }

  ghost function FlightWork(max: nat, at: Attempts, ws: seq<Worker>): (k: nat) {
    if ws == [] then 0 else FlightWork(max, at, ws[..|ws| - 1]) + WorkerWork(max, at, ws[|ws| - 1])
  }

  /** The attempts left over all queued and in-flight files. */
  ghost function Work(max: nat, s: State): (k: nat) {
    QueueWork(max, s.q.attempts, s.q.items) + FlightWork(max, s.q.attempts, s.workers)
  }

  // ---------- sums ----------

  lemma WorkAppend(max: nat, at: Attempts, a: seq<FileItem>, x: FileItem)
    ensures QueueWork(max, at, a + [x]) == QueueWork(max, at, a) + Remaining(max, at, x.name)
  {
    assert (a + [x])[..|a|] == a;
  }

  lemma {:induction false} WorkConcat(max: nat, at: Attempts, a: seq<FileItem>, b: seq<FileItem>)
    ensures QueueWork(max, at, a + b) == QueueWork(max, at, a) + QueueWork(max, at, b)
  {
    if b == [] {
      assert a + b == a;
    } else {
      var front, x := b[..|b| - 1], b[|b| - 1];
      WorkConcat(max, at, a, front);
      assert a + b == (a + front) + [x];
      WorkAppend(max, at, a + front, x);
    }
  }

  lemma {:induction false} WorkHead(max: nat, at: Attempts, items: seq<FileItem>)
    requires items != []
    ensures QueueWork(max, at, items) == Remaining(max, at, items[0].name) + QueueWork(max, at, items[1..])
  {
    assert items == [items[0]] + items[1..];
    WorkConcat(max, at, [items[0]], items[1..]);
    assert [items[0]][..0] == [];
  }

  lemma {:induction false} WorkWithout(max: nat, at: Attempts, b: seq<FileItem>, k: nat)
    requires k < |b|
    ensures QueueWork(max, at, b) == QueueWork(max, at, b[..k] + b[k + 1..]) + Remaining(max, at, b[k].name)
  {
    assert b == (b[..k] + [b[k]]) + b[k + 1..];
    WorkConcat(max, at, b[..k] + [b[k]], b[k + 1..]);
    WorkAppend(max, at, b[..k], b[k]);
    WorkConcat(max, at, b[..k], b[k + 1..]);
  }

  lemma {:induction false} WorkOfSame(max: nat, at: Attempts, a: seq<FileItem>, b: seq<FileItem>)
    requires multiset(a) == multiset(b)
    ensures QueueWork(max, at, a) == QueueWork(max, at, b)
  {
    if a == [] {
      assert |multiset(b)| == 0;
    } else {
      var i := |a| - 1;
      assert a[i] in multiset(a);
      assert a[i] in b;
      var k :| 0 <= k < |b| && b[k] == a[i];
      Without(a, i, a[i].name);
      Without(b, k, a[i].name);
      WorkWithout(max, at, a, i);
      WorkWithout(max, at, b, k);
      WorkOfSame(max, at, a[..i] + a[i + 1..], b[..k] + b[k + 1..]);
    }
  }

  /** The two counters differ at n at most. */
  ghost predicate SameExcept(at: Attempts, bt: Attempts, n: Name) {
    forall m :: m != n ==> (m in at <==> m in bt) && (m in at ==> at[m] == bt[m])
  }

  lemma {:induction false} QueueWorkElsewhere(max: nat, at: Attempts, bt: Attempts, items: seq<FileItem>, n: Name)
    requires SameExcept(at, bt, n) && Copies(items, n) == 0
    ensures QueueWork(max, at, items) == QueueWork(max, bt, items)
  {
    if items != [] { QueueWorkElsewhere(max, at, bt, items[..|items| - 1], n); }
  }

  lemma {:induction false} FlightWorkElsewhere(max: nat, at: Attempts, bt: Attempts, ws: seq<Worker>, n: Name)
    requires SameExcept(at, bt, n) && InFlight(ws, n) == 0
    ensures FlightWork(max, at, ws) == FlightWork(max, bt, ws)
  {
    if ws != [] { FlightWorkElsewhere(max, at, bt, ws[..|ws| - 1], n); }
  }

  lemma {:induction false} FlightWorkUpdate(max: nat, at: Attempts, ws: seq<Worker>, i: nat, w: Worker)
    requires i < |ws|
    ensures FlightWork(max, at, ws[i := w]) == FlightWork(max, at, ws) - WorkerWork(max, at, ws[i])
        + WorkerWork(max, at, w)
  {
    var front := ws[..|ws| - 1];
    if i < |ws| - 1 {
      FlightWorkUpdate(max, at, front, i, w);
      assert ws[i := w][..|ws| - 1] == front[i := w];
    } else {
      assert ws[i := w][..|ws| - 1] == front;
    }
  }

  lemma {:induction false} FlightWorkWakeAll(max: nat, at: Attempts, ws: seq<Worker>)
    ensures FlightWork(max, at, WakeAll(ws)) == FlightWork(max, at, ws)
  {
    if ws != [] {
      FlightWorkWakeAll(max, at, ws[..|ws| - 1]);
      assert WakeAll(ws)[..|ws| - 1] == WakeAll(ws[..|ws| - 1]);
    }
  }

  lemma FlightWorkWake(max: nat, at: Attempts, ws: seq<Worker>, wake: nat)
    ensures FlightWork(max, at, Wake(ws, wake)) == FlightWork(max, at, ws)
  {
    if wake < |ws| && ws[wake].Blocked? { FlightWorkUpdate(max, at, ws, wake, Signalled); }
  }

  // ---------- one step ----------

  /** Once worker w lets go of its file, the counter of that file concerns nobody else. */
  lemma ReleaseWork(max: nat, s: State, w: nat, x: Worker, bt: Attempts)
    requires Inv(max, s) && IsWorker(s, w) && (s.workers[w].Holding? || s.workers[w].Delivered?)
    requires !x.Holding? && !x.Delivered? && SameExcept(s.q.attempts, bt, s.workers[w].item.name)
    ensures var n := s.workers[w].item.name;
            && QueueWork(max, bt, s.q.items) + FlightWork(max, bt, s.workers[w := x])
              + Remaining(max, s.q.attempts, n) == Work(max, s)
            && 1 <= Remaining(max, s.q.attempts, n)
            && n !in s.q.inQueue
  {
    var n, at, ws := s.workers[w].item.name, s.q.attempts, s.workers[w := x];
    PlaceCounts(s, w, x, n);
    NotQueued(max, s, n);
    assert Owners(s, n) <= 1;
    hide Inv;
    FlightWorkUpdate(max, at, s.workers, w, x);
    FlightWorkElsewhere(max, at, bt, ws, n);
    QueueWorkElsewhere(max, at, bt, s.q.items, n);
  }

  lemma SucceedWork(max: nat, s: State, w: nat)
    requires Inv(max, s) && Enabled(max, s, Succeed(w))
    ensures Work(max, Apply(max, s, Succeed(w))) < Work(max, s)
  {
    ReleaseWork(max, s, w, Recorded(s.workers[w].item), s.q.attempts - {s.workers[w].item.name});
  }

  lemma FailWork(max: nat, s: State, w: nat, dialing: bool, moved: bool, sorted: seq<FileItem>, wake: nat)
    requires Inv(max, s) && Enabled(max, s, Fail(w, dialing, moved, sorted, wake))
    ensures Work(max, Failed(max, s, w, dialing, moved, sorted, wake)) < Work(max, s)
  {
    var item := s.workers[w].item;
    var n, at := item.name, s.q.attempts;
    if s.q.Quarantines(max, n) {
      ReleaseWork(max, s, w, if dialing then Backoff else Recorded(item), at - {n});
    } else {
      var x, bt := if dialing then Backoff else Ready, at[n := s.q.Attempts(n) + 1];
      ReleaseWork(max, s, w, x, bt);
      hide Inv;
      WorkOfSame(max, bt, [item] + s.q.items, sorted);
      WorkHead(max, bt, [item] + s.q.items);
      assert ([item] + s.q.items)[1..] == s.q.items;
      FlightWorkWake(max, bt, s.workers[w := x], wake);
    }
  }

  /** Every finished attempt, successful or not, uses up work; nothing but a push adds any. */
  ghost predicate Finishes(a: Action) {
    a.Succeed? || a.Fail?
  }

  lemma StepWork(max: nat, s: State, a: Action)
    requires Inv(max, s) && Enabled(max, s, a) && !a.PushOne?
    ensures Work(max, Apply(max, s, a)) + (if Finishes(a) then 1 else 0) <= Work(max, s)
  {
    hide Inv;
    match a
    case Succeed(w) => SucceedWork(max, s, w);
    case Fail(w, dialing, moved, sorted, wake) => FailWork(max, s, w, dialing, moved, sorted, wake);
    case Pop(w) =>
      FlightWorkUpdate(max, s.q.attempts, s.workers, w, Popped(s, w).workers[w]);
      if s.q.items != [] { WorkHead(max, s.q.attempts, s.q.items); }
    case Deliver(w, _) => FlightWorkUpdate(max, s.q.attempts, s.workers, w, Delivered(s.workers[w].item));
    case MarkDone(w) => FlightWorkUpdate(max, s.q.attempts, s.workers, w, Ready);
    case Retry(w) => FlightWorkUpdate(max, s.q.attempts, s.workers, w, Ready);
    case Exit(w) => FlightWorkUpdate(max, s.q.attempts, s.workers, w, Exited);
    case Stop => FlightWorkWakeAll(max, s.q.attempts, s.workers);
    case _ =>
  }

  // ---------- runs without pushes ----------

  ghost predicate NoPushes(run: seq<Action>) {
    forall i :: 0 <= i < |run| ==> !run[i].PushOne?
  }

  ghost function Finished(run: seq<Action>): (k: nat) {
    if run == [] then 0 else Finished(run[..|run| - 1]) + if Finishes(run[|run| - 1]) then 1 else 0
  }

  /** Retry termination: without new pushes, the attempts that finish are at most the attempts left
      at the start, whatever fails; when that many have finished, nothing is queued or in flight. */
  lemma {:induction false} RetriesRunOut(max: nat, s: State, run: seq<Action>)
    requires Inv(max, s) && Allowed(max, s, run) && NoPushes(run)
    ensures Finished(run) + Work(max, Exec(max, s, run)) <= Work(max, s)
  {
    hide Inv, Enabled, Apply, Work;
    if run != [] {
      var front := run[..|run| - 1];
      RetriesRunOut(max, s, front);
      RunKeepsInv(max, s, front);
      StepWork(max, Exec(max, s, front), run[|run| - 1]);
    }
  }

  lemma {:induction false} QueueWorkPositive(max: nat, at: Attempts, items: seq<FileItem>)
    requires max >= 1 && forall n :: n in at ==> at[n] < max
    ensures QueueWork(max, at, items) >= |items|
  {
    if items != [] { QueueWorkPositive(max, at, items[..|items| - 1]); }
  }

  lemma {:induction false} FlightWorkPositive(max: nat, at: Attempts, ws: seq<Worker>, n: Name)
    requires max >= 1 && forall m :: m in at ==> at[m] < max
    ensures FlightWork(max, at, ws) >= InFlight(ws, n)
  {
    if ws != [] { FlightWorkPositive(max, at, ws[..|ws| - 1], n); }
  }

  /** No work left means drained. */
  lemma NoWorkMeansDrained(max: nat, s: State, n: Name)
    requires Inv(max, s) && Work(max, s) == 0
    ensures s.q.items == [] && InFlight(s.workers, n) == 0
  {
    QueueWorkPositive(max, s.q.attempts, s.q.items);
    FlightWorkPositive(max, s.q.attempts, s.workers, n);
  }

  // ---------- oldest first ----------

  /** The modification times of the files popped, in order. */
  ghost function Pops(max: nat, s: State, run: seq<Action>): (r: seq<Time>)
    requires Allowed(max, s, run)
  {
    if run == [] then []
    else
      var front, a := run[..|run| - 1], run[|run| - 1];
      var t := Exec(max, s, front);
      if a.Pop? && t.q.items != [] then Pops(max, s, front) + [t.q.items[0].modTime] else Pops(max, s, front)
  }

  /** Nothing queued, or held by the only worker, is older than t. */
  ghost predicate NotBefore(s: State, t: Time) {
    && (forall i :: 0 <= i < |s.q.items| ==> t <= s.q.items[i].modTime)
    && (forall i :: 0 <= i < |s.workers| && s.workers[i].Holding? ==> t <= s.workers[i].item.modTime)
  }

  lemma PopNotBefore(s: State, w: nat, t: Time)
    requires Sorted(s.q.items) && IsWorker(s, w) && |s.workers| == 1 && NotBefore(s, t)
    ensures |Popped(s, w).workers| == 1
    ensures NotBefore(Popped(s, w), if s.q.items != [] then s.q.items[0].modTime else t)
    ensures s.q.items != [] ==> t <= s.q.items[0].modTime
  {
  }

  lemma FailNotBefore(max: nat, s: State, w: nat, dialing: bool, moved: bool, sorted: seq<FileItem>, wake: nat, t: Time)
    requires IsWorker(s, w) && s.workers[w].Holding? && |s.workers| == 1 && NotBefore(s, t)
    requires s.q.Requeues(max, s.workers[w].item.name) ==> Resorted([s.workers[w].item] + s.q.items, sorted)
    ensures var u := Failed(max, s, w, dialing, moved, sorted, wake); |u.workers| == 1 && NotBefore(u, t)
  {
    if s.q.Requeues(max, s.workers[w].item.name) {
      forall i | 0 <= i < |sorted| ensures t <= sorted[i].modTime {
        assert sorted[i] in multiset(sorted);
        assert sorted[i] in [s.workers[w].item] + s.q.items;
      }
    }
  }

  lemma NotBeforeStep(max: nat, s: State, a: Action, t: Time)
    requires Sorted(s.q.items) && Enabled(max, s, a) && !a.PushOne? && NotBefore(s, t) && |s.workers| == 1
    ensures |Apply(max, s, a).workers| == 1
    ensures NotBefore(Apply(max, s, a), if a.Pop? && s.q.items != [] then s.q.items[0].modTime else t)
    ensures a.Pop? && s.q.items != [] ==> t <= s.q.items[0].modTime
  {
    if a.Pop? {
      PopNotBefore(s, a.w, t);
    } else if a.Fail? {
      FailNotBefore(max, s, a.w, a.dialing, a.moved, a.sorted, a.wake, t);
    } else {
      WorkerAfter(max, s, a, 0);
      ItemsStay(max, s, a);
      hide Enabled, Apply;
    }
    hide Resorted, Sorted, Failed, Popped, Wake, WakeAll;
  }

  lemma ItemsStay(max: nat, s: State, a: Action)
    requires Enabled(max, s, a) && !a.PushOne? && !a.Pop? && !a.Fail?
    ensures Apply(max, s, a).q.items == s.q.items
  {
    hide Resorted, Sorted, Wake, WakeAll;
  }

  ghost predicate Nondecreasing(r: seq<Time>) {
    forall i, j :: 0 <= i < j < |r| ==> r[i] <= r[j]
  }

  lemma EmptyNondecreasing()
    ensures Nondecreasing([])
  {
  }

  /** Oldest first over a run: with one worker and no new pushes the files popped, retries included,
      come in order of modification time, whatever fails. */
  lemma {:induction false} OldestFirst(max: nat, s: State, run: seq<Action>)
    requires Inv(max, s) && Allowed(max, s, run) && NoPushes(run) && |s.workers| == 1
    ensures Nondecreasing(Pops(max, s, run))
    ensures |Exec(max, s, run).workers| == 1
    ensures var r := Pops(max, s, run); r != [] ==> NotBefore(Exec(max, s, run), r[|r| - 1])
  {
    hide Apply, Enabled, NotBefore, Nondecreasing, SingleOwner, Latched, NoLostWakeup, Conserved, GoneForGood, Names;
    if run == [] {
      assert Nondecreasing([]) by { EmptyNondecreasing(); }
    } else {
      var front, a := run[..|run| - 1], run[|run| - 1];
      var t, r := Exec(max, s, front), Pops(max, s, front);
      OldestFirst(max, s, front);
      RunKeepsInv(max, s, front);
      assert Sorted(t.q.items);
      OldestFirstStep(max, t, a, r);
    }
  }

  lemma OldestFirstStep(max: nat, t: State, a: Action, r: seq<Time>)
    requires Sorted(t.q.items) && Enabled(max, t, a) && !a.PushOne? && |t.workers| == 1 && Nondecreasing(r)
    requires r != [] ==> NotBefore(t, r[|r| - 1])
    ensures var u, r' := Apply(max, t, a), if a.Pop? && t.q.items != [] then r + [t.q.items[0].modTime] else r;
            && Nondecreasing(r')
            && |u.workers| == 1
            && (r' != [] ==> NotBefore(u, r'[|r'| - 1]))
  {
    if r != [] {
      hide Apply, Enabled, NotBefore;
      NotBeforeStep(max, t, a, r[|r| - 1]);
    } else if a.Pop? && t.q.items != [] {
      assert NotBefore(t, t.q.items[0].modTime);
      hide Apply, Enabled, NotBefore;
      NotBeforeStep(max, t, a, t.q.items[0].modTime);
    } else {
      WorkersStay(max, t, a);
    }
  }

  lemma WorkersStay(max: nat, t: State, a: Action)
    requires Enabled(max, t, a) && t.workers != []
    ensures |Apply(max, t, a).workers| == |t.workers|
  {
    WorkerAfter(max, t, a, 0);
    hide Enabled, Apply;
  }

  // ---------- one file ----------

  /** The attempts left for n, if it is queued or in flight. */
  ghost function WorkOn(max: nat, s: State, n: Name): (k: nat) {
    if Copies(s.q.items, n) + InFlight(s.workers, n) > 0 then Remaining(max, s.q.attempts, n) else 0
  }

  ghost predicate FinishesOn(s: State, a: Action, n: Name) {
    Finishes(a) && IsWorker(s, a.w) && (s.workers[a.w].Holding? || s.workers[a.w].Delivered?)
      && s.workers[a.w].item.name == n
  }

  lemma SucceedWorkOn(max: nat, s: State, w: nat, n: Name)
    requires Inv(max, s) && Enabled(max, s, Succeed(w))
    ensures WorkOn(max, Apply(max, s, Succeed(w)), n) + (if s.workers[w].item.name == n then 1 else 0)
              <= WorkOn(max, s, n)
  {
    PlaceCounts(s, w, Recorded(s.workers[w].item), n);
    assert Owners(s, n) <= 1;
  }

  lemma QuarantineWorkOn(max: nat, s: State, w: nat, dialing: bool, moved: bool, n: Name)
    requires IsWorker(s, w) && s.workers[w].Holding? && s.q.Quarantines(max, s.workers[w].item.name)
    requires Owners(s, n) <= 1 && Ordered(max, s.q)
    ensures WorkOn(max, Failed(max, s, w, dialing, moved, [], 0), n) + (if s.workers[w].item.name == n then 1 else 0)
            <= WorkOn(max, s, n)
  {
    hide Copies, InFlight, Finishing;
    PlaceCounts(s, w, if dialing then Backoff else Recorded(s.workers[w].item), n);
  }

  lemma RequeueWorkOn(max: nat, s: State, w: nat, dialing: bool, sorted: seq<FileItem>, wake: nat, n: Name)
    requires IsWorker(s, w) && s.workers[w].Holding? && s.q.Requeues(max, s.workers[w].item.name)
    requires Resorted([s.workers[w].item] + s.q.items, sorted)
    ensures WorkOn(max, Failed(max, s, w, dialing, false, sorted, wake), n)
              + (if s.workers[w].item.name == n then 1 else 0)
            <= WorkOn(max, s, n)
  {
    hide Copies, InFlight, Finishing, Resorted, Wake;
    PlaceCounts(s, w, Ready, n);
    RequeueCounts(s, w, if dialing then Backoff else Ready, sorted, wake, n);
  }

  lemma FailWorkOn(max: nat, s: State, w: nat, dialing: bool, moved: bool, sorted: seq<FileItem>, wake: nat, n: Name)
    requires Inv(max, s) && Enabled(max, s, Fail(w, dialing, moved, sorted, wake))
    ensures WorkOn(max, Failed(max, s, w, dialing, moved, sorted, wake), n)
              + (if s.workers[w].item.name == n then 1 else 0)
            <= WorkOn(max, s, n)
  {
    var m := s.workers[w].item.name;
    hide Copies, InFlight, Finishing, Resorted, Wake, WorkOn, NoLostWakeup, Conserved, Latched;
    if s.q.Quarantines(max, m) {
      assert Owners(s, n) <= 1;
      QuarantineWorkOn(max, s, w, dialing, moved, n);
    } else {
      PlaceCounts(s, w, Ready, m);
      assert Holds(s.workers[w], m) == 1;
      NotQueued(max, s, m);
      RequeueWorkOn(max, s, w, dialing, sorted, wake, n);
    }
  }

  lemma StepWorkOn(max: nat, s: State, a: Action, n: Name)
    requires Inv(max, s) && Enabled(max, s, a) && !a.PushOne?
    ensures WorkOn(max, Apply(max, s, a), n) + (if FinishesOn(s, a, n) then 1 else 0) <= WorkOn(max, s, n)
  {
    hide Inv, Copies, InFlight, Finishing, Resorted, WakesOne;
    match a
    case Succeed(w) => SucceedWorkOn(max, s, w, n);
    case Fail(w, dialing, moved, sorted, wake) => FailWorkOn(max, s, w, dialing, moved, sorted, wake, n);
    case Pop(w) => PopCounts(s, w, n);
    case Deliver(w, _) => PlaceCounts(s, w, Delivered(s.workers[w].item), n);
    case MarkDone(w) => PlaceCounts(s, w, Ready, n);
    case Retry(w) => PlaceCounts(s, w, Ready, n);
    case Exit(w) => PlaceCounts(s, w, Exited, n);
    case Stop => WakeAllKeeps(s.workers, n);
    case _ =>
  }

  ghost function FinishedOn(max: nat, s: State, run: seq<Action>, n: Name): (k: nat)
    requires Allowed(max, s, run)
  {
    if run == [] then 0
    else
      var front := run[..|run| - 1];
      FinishedOn(max, s, front, n) + if FinishesOn(Exec(max, s, front), run[|run| - 1], n) then 1 else 0
  }

  /** A poison file holds up the others for at most the attempts it has left: without new pushes it
      is tried no more often than that. */
  lemma {:induction false} PoisonRunsOut(max: nat, s: State, run: seq<Action>, n: Name)
    requires Inv(max, s) && Allowed(max, s, run) && NoPushes(run)
    ensures FinishedOn(max, s, run, n) + WorkOn(max, Exec(max, s, run), n) <= WorkOn(max, s, n) <= max
  {
    hide Inv, Enabled, Apply, FinishesOn, Copies, InFlight;
    if run != [] {
      var front := run[..|run| - 1];
      PoisonRunsOut(max, s, front, n);
      RunKeepsInv(max, s, front);
      StepWorkOn(max, Exec(max, s, front), run[|run| - 1], n);
    }
  }
}
