/** Every file that is not stranded can still be handed to a worker: from any state in which the sender
    runs, whatever the other files and workers are in the middle of. */
module Handover {
  import opened Wire
  import opened Queues
  import opened Scanners
  import opened Bags
  import opened Pipeline
  import opened Progress
  import opened Stranding

  // ---------- there is always some sorted order, some scan result, some waiter to wake ----------

  lemma {:induction false} InsertOne(s: seq<FileItem>, x: FileItem) returns (r: seq<FileItem>)
    requires Sorted(s)
    ensures Resorted(s + [x], r)
  {
    if s == [] || x.modTime <= s[0].modTime {
      r := [x] + s;
    } else {
      var rest := InsertOne(s[1..], x);
      assert s == [s[0]] + s[1..];
      LeastFirst(s, x, rest);
      r := [s[0]] + rest;
    }
  }

  lemma LeastFirst(s: seq<FileItem>, x: FileItem, rest: seq<FileItem>)
    requires s != [] && Sorted(s) && s[0].modTime < x.modTime && Resorted(s[1..] + [x], rest)
    ensures Sorted([s[0]] + rest)
  {
    forall i | 0 <= i < |rest| ensures s[0].modTime <= rest[i].modTime {
      assert rest[i] in multiset(rest);
      assert rest[i] in s[1..] + [x];
    }
  }

  lemma {:induction false} SomeSort(s: seq<FileItem>) returns (r: seq<FileItem>)
    ensures Resorted(s, r)
  {
    if s == [] {
      r := [];
    } else {
      var front := SomeSort(s[..|s| - 1]);
      r := InsertOne(front, s[|s| - 1]);
      assert s == s[..|s| - 1] + [s[|s| - 1]];
    }
  }

  lemma {:induction false} SomeStable(states: States, l: Listing) returns (stable: seq<FileItem>)
    ensures Collected(states, l, stable)
    decreases |l|
  {
    if l == map[] {
      NothingCollected(states);
      stable := [];
    } else {
      var n :| n in l;
      var rest := l - {n};
      assert l == rest[n := l[n]] && |rest| < |l|;
      var front := SomeStable(states, rest);
      stable := if Stable(states, n, l[n]) then front + [FileItem(n, l[n].size, l[n].modTime)] else front;
      assert (front + [FileItem(n, l[n].size, l[n].modTime)])[..|front|] == front;
      CollectedMore(states, rest, n, l[n], stable);
    }
  }

  lemma SomeHandOver(states: States, l: Listing) returns (stable: seq<FileItem>)
    ensures HandedOver(states, l, stable)
  {
    var collected := SomeStable(states, l);
    stable := SomeSort(collected);
    HandOver(states, l, collected, stable);
  }

  lemma SomeWake(ws: seq<Worker>) returns (i: nat)
    ensures WakesOne(ws, i)
  {
    if AnyBlocked(ws) {
      var k :| 0 <= k < |ws| && ws[k].Blocked?;
      i := k;
    } else {
      i := 0;
    }
  }

  lemma {:induction false} SomeSignal(ws: seq<Worker>) returns (i: nat)
    requires Signals(ws) > 0
    ensures i < |ws| && ws[i].Signalled?
  {
    if ws[|ws| - 1].Signalled? {
      i := |ws| - 1;
    } else {
      i := SomeSignal(ws[..|ws| - 1]);
    }
  }

  lemma {:induction false} SomeHolder(ws: seq<Worker>, n: Name) returns (i: nat)
    requires InFlight(ws, n) > 0
    ensures i < |ws| && Holds(ws[i], n) == 1
  {
    if Holds(ws[|ws| - 1], n) == 1 {
      i := |ws| - 1;
    } else {
      i := SomeHolder(ws[..|ws| - 1], n);
    }
  }

  lemma {:induction false} SomeSettler(ws: seq<Worker>, n: Name) returns (i: nat)
    requires Finishing(ws, n) > 0
    ensures i < |ws| && Settles(ws[i], n) == 1
  {
    if Settles(ws[|ws| - 1], n) == 1 {
      i := |ws| - 1;
    } else {
      i := SomeSettler(ws[..|ws| - 1], n);
    }
  }

  // ---------- the sender runs, and n is waiting ----------

  ghost predicate Alive(s: State) {
    !s.q.stopped && exists i :: 0 <= i < |s.workers| && !s.workers[i].Exited?
  }

  /** A worker that is neither asleep nor gone, when there is something to do: no wakeup is lost. */
  lemma AwakeWorker(s: State) returns (w: nat)
    requires Alive(s) && NoLostWakeup(s) && s.q.items != []
    ensures IsWorker(s, w) && !s.workers[w].Exited? && !s.workers[w].Blocked?
  {
    var i :| 0 <= i < |s.workers| && !s.workers[i].Exited?;
    if s.workers[i].Blocked? {
      w := SomeSignal(s.workers);
    } else {
      w := i;
    }
  }

  ghost predicate HeldBy(s: State, w: int, n: Name) {
    0 <= w < |s.workers| && s.workers[w].Holding? && s.workers[w].item.name == n
  }

  /** How far n is from a worker's hands. 0 means that a worker has it. */
  ghost function Stage(s: State, n: Name): (k: nat) {
    if Copies(s.q.items, n) > 0 then 1
    else if Copies(s.pushing, n) > 0 then 2
    else if InFlight(s.workers, n) > 0 then if exists w :: HeldBy(s, w, n) then 0 else 5
    else if Finishing(s.workers, n) > 0 then 4
    else 3
  }

  /** Scans until n is handed over, if it is not owned. */
  ghost function ScansNeeded(s: State, n: Name): (k: nat) {
    if n in s.scan && n in s.disk && s.scan[n].info == s.disk[n] && s.scan[n].scans >= 1 then 1 else 2
  }

  /** Steps that a worker has to make before it can pop again. */
  ghost function Weight(w: Worker): (k: nat) {
    if w.Holding? then 2 else if w.Delivered? || w.Recorded? || w.Backoff? then 1 else 0
  }

  ghost function Weights(ws: seq<Worker>): (k: nat) {
    if ws == [] then 0 else Weights(ws[..|ws| - 1]) + Weight(ws[|ws| - 1])
  }

  lemma {:induction false} WeightsUpdate(ws: seq<Worker>, i: nat, w: Worker)
    requires i < |ws|
    ensures Weights(ws[i := w]) == Weights(ws) - Weight(ws[i]) + Weight(w)
  {
    var front := ws[..|ws| - 1];
    if i < |ws| - 1 {
      WeightsUpdate(front, i, w);
      assert ws[i := w][..|ws| - 1] == front[i := w];
    } else {
      assert ws[i := w][..|ws| - 1] == front;
    }
  }

  ghost function First(max: nat, s: State, n: Name): (k: nat) {
    if Stage(s, n) == 3 then ScansNeeded(s, n) else if Stage(s, n) == 2 then |s.pushing|
    else if Stage(s, n) == 1 then Work(max, s) else 0
  }

  ghost function Second(s: State, n: Name): (k: nat) {
    if Stage(s, n) == 3 then |s.pushing| else if Stage(s, n) == 1 then |s.q.items| else 0
  }

  ghost function Third(s: State, n: Name): (k: nat) {
    if Stage(s, n) == 1 then Weights(s.workers) else 0
  }

  /** The workers with an open connection, and those among them that have read an ACK. */
  datatype Conns = Conns(open: set<nat>, acked: set<nat>)
  {
    /** After a step of the pipeline: a failed transfer closes the connection, a delivery answers the ACK. */
    function Next(a: Action): (k: Conns) {
      if a.Fail? && !a.dialing then this.(open := open - {a.w})
      else if a.Deliver? then this.(acked := acked - {a.w})
      else this
    }

    function Size(): (k: nat) {
      |open| + |acked|
    }
  }

  /** Steps that move no file and strand none: an attempt fails after its worker has dialled, and a
      file stays in the outbox after its ACK. */
  ghost predicate Unaided(k: Conns, a: Action) {
    match a
    case ScanDir(_, _) => true
    case PushOne(_, _) => true
    case Pop(_) => true
    case Succeed(_) => true
    case MarkDone(_) => true
    case Retry(_) => true
    case Fail(w, dialing, moved, _, _) => !dialing && !moved && w !in k.acked
    case Deliver(w, moved) => !moved && w in k.acked
    case _ => false
  }

  ghost predicate Closer(max: nat, n: Name, s: State, k: Conns, t: State, j: Conns) {
    || j.Size() < k.Size()
    || (j.Size() == k.Size() &&
        (|| Stage(t, n) < Stage(s, n)
         || (Stage(t, n) == Stage(s, n) &&
             (|| First(max, t, n) < First(max, s, n)
              || (First(max, t, n) == First(max, s, n) &&
                  (|| Second(t, n) < Second(s, n)
                   || (Second(t, n) == Second(s, n) && Third(t, n) < Third(s, n))))))))
  }

  /** n is there, can still be handed over, and is not yet in the hands of a worker that has no
      connection to lose. */
  ghost predicate Waiting(max: nat, s: State, k: Conns, n: Name) {
    && Inv(max, s) && Alive(s) && k.acked <= k.open
    && n in s.disk && !Stranded(s, n)
    && !Handed(s, k, n)
  }

  /** A worker without connection has n in hand, so that it will dial next. */
  ghost predicate Handed(s: State, k: Conns, n: Name) {
    exists w :: HeldBy(s, w, n) && w !in k.open
  }

  ghost predicate Good(max: nat, s: State, k: Conns, n: Name, a: Action) {
    && Enabled(max, s, a) && Unaided(k, a) && !Strands(max, s, a, n) && (a.Pop? ==> s.q.items != [])
    && Closer(max, n, s, k, Apply(max, s, a), k.Next(a))
  }

  // ---------- one step closer, stage by stage ----------

  /** A connected worker holds n: the transfer fails, or the file stays after its ACK. */
  lemma StepHeld(max: nat, s: State, k: Conns, n: Name) returns (a: Action)
    requires Waiting(max, s, k, n) && Stage(s, n) == 0
    ensures Good(max, s, k, n, a)
  {
    hide Stage, InFlight, Finishing, Copies, Inv, Stranded, Wake, WakesOne, Resorted;
    assert exists w :: HeldBy(s, w, n) by { StageZero(s, n); }
    var w :| HeldBy(s, w, n);
    assert w in k.open;
    if w in k.acked {
      a := Deliver(w, false);
    } else {
      var sorted := SomeSort([s.workers[w].item] + s.q.items);
      var wake := SomeWake(s.workers);
      a := Fail(w, false, false, sorted, wake);
    }
  }

  lemma StageZero(s: State, n: Name)
    requires Stage(s, n) == 0
    ensures exists w :: HeldBy(s, w, n)
  {
  }

  lemma MoveOn(s: State, n: Name, w: nat, x: Worker)
    requires IsWorker(s, w) && Copies(s.q.items, n) == 0 && Copies(s.pushing, n) == 0
    ensures var t := Place(s, w, x);
            && InFlight(t.workers, n) == InFlight(s.workers, n) - Holds(s.workers[w], n) + Holds(x, n)
            && Finishing(t.workers, n) == Finishing(s.workers, n) - Settles(s.workers[w], n) + Settles(x, n)
  {
    WorkerUpdate(s.workers, w, x, n);
  }

  /** n was delivered: its success is recorded. */
  lemma StepDelivered(max: nat, s: State, k: Conns, n: Name) returns (a: Action)
    requires Waiting(max, s, k, n) && Stage(s, n) == 5
    ensures Good(max, s, k, n, a)
  {
    assert Owners(s, n) <= 1;
    var w := SomeHolder(s.workers, n);
    assert HeldBy(s, w, n) || s.workers[w].Delivered?;
    MoveOn(s, n, w, Recorded(s.workers[w].item));
    a := Succeed(w);
    hide InFlight, Finishing, Copies, Inv;
    assert Stage(Apply(max, s, a), n) == 4;
  }

  /** The attempt on n is recorded: n is marked completed. */
  lemma StepSettled(max: nat, s: State, k: Conns, n: Name) returns (a: Action)
    requires Waiting(max, s, k, n) && Stage(s, n) == 4
    ensures Good(max, s, k, n, a)
  {
    assert Owners(s, n) <= 1;
    var w := SomeSettler(s.workers, n);
    MoveOn(s, n, w, Ready);
    a := MarkDone(w);
    hide InFlight, Finishing, Copies, Inv;
    assert Stage(Apply(max, s, a), n) == 3;
  }

  /** Nobody owns n: what was latched is pushed, then the directory is scanned. */
  lemma StepUnowned(max: nat, s: State, k: Conns, n: Name) returns (a: Action)
    requires Waiting(max, s, k, n) && Stage(s, n) == 3
    ensures Good(max, s, k, n, a)
  {
    if s.pushing != [] {
      a := StepPush(max, s, k, n);
    } else {
      var stable := SomeHandOver(s.scan, s.disk);
      a := ScanDir(s.disk, stable);
      CopiesMembers(stable, n);
      hide InFlight, Finishing, Copies, Inv;
      var t := Apply(max, s, a);
      if Stable(s.scan, n, s.disk[n]) {
        assert FileItem(n, s.disk[n].size, s.disk[n].modTime) in stable;
        assert Stage(t, n) == 2;
      } else {
        assert n !in Names(stable);
        assert Stage(t, n) == 3 && ScansNeeded(t, n) == 1;
      }
    }
  }

  /** Where n is after the push of the first latched file. */
  lemma PushPlaces(max: nat, s: State, sorted: seq<FileItem>, wake: nat, n: Name)
    requires Inv(max, s) && s.pushing != [] && !s.q.stopped
    requires s.q.Accepts(s.pushing[0]) ==> Resorted(s.q.items + [s.pushing[0]], sorted)
    ensures var t, mine := Pushed(s, sorted, wake), if s.pushing[0].name == n then 1 else 0;
            && Copies(t.q.items, n) == Copies(s.q.items, n) + mine
            && Copies(t.pushing, n) == Copies(s.pushing, n) - mine
            && InFlight(t.workers, n) == InFlight(s.workers, n) && Finishing(t.workers, n) == Finishing(s.workers, n)
  {
    var item := s.pushing[0];
    CopiesHead(s.pushing, n);
    if item.name == n { NotQueued(max, s, n); }
    if s.q.Accepts(item) {
      CopiesOfSame(s.q.items + [item], sorted, n);
      CopiesAppend(s.q.items, item, n);
      WakeKeeps(s.workers, wake, n);
    }
  }

  /** A latched file is pushed. */
  lemma StepPush(max: nat, s: State, k: Conns, n: Name) returns (a: Action)
    requires Waiting(max, s, k, n) && 2 <= Stage(s, n) <= 3 && s.pushing != []
    ensures Good(max, s, k, n, a)
  {
    hide InFlight, Finishing, Copies, Inv, Wake, WakesOne, Resorted, Stranded;
    var sorted := SomeSort(s.q.items + [s.pushing[0]]);
    var wake := SomeWake(s.workers);
    a := PushOne(sorted, wake);
    PushPlaces(max, s, sorted, wake, n);
    PushFrame(s, sorted, wake);
    hide Pushed;
  }

  // ---------- n is queued ----------

  lemma ExactFacts(max: nat, s: State)
    requires Inv(max, s)
    ensures NoLostWakeup(s)
  {
  }

  /** Whatever an awake worker is in the middle of ends without help, so that it comes to pop. */
  lemma StepQueued(max: nat, s: State, k: Conns, n: Name) returns (a: Action)
    requires Waiting(max, s, k, n) && Stage(s, n) == 1
    ensures Good(max, s, k, n, a)
  {
    hide InFlight, Finishing, Copies, Inv, Stranded, Resorted, WakesOne;
    ExactFacts(max, s);
    QueuedSomewhere(s, n);
    var w := AwakeWorker(s);
    match s.workers[w]
    case Holding(item) => a := StepAttempt(max, s, k, n, w);
    case Delivered(_) =>
      a := Succeed(w);
      Unaffected(max, s, a, n, w);
    case Recorded(_) =>
      a := MarkDone(w);
      Unaffected(max, s, a, n, w);
    case Backoff =>
      a := Retry(w);
      Unaffected(max, s, a, n, w);
    case _ =>
      a := Pop(w);
      StepPop(max, s, n, w);
  }

  lemma QueuedSomewhere(s: State, n: Name)
    requires Stage(s, n) == 1
    ensures s.q.items != [] && Copies(s.q.items, n) > 0
  {
  }

  lemma QueuedStage(s: State, n: Name)
    requires Copies(s.q.items, n) > 0
    ensures Stage(s, n) == 1
  {
  }

  /** Steps that leave the queue alone. */
  lemma Unaffected(max: nat, s: State, a: Action, n: Name, w: nat)
    requires Inv(max, s) && Enabled(max, s, a) && Stage(s, n) == 1
    requires (a.Succeed? || a.MarkDone? || a.Retry?) && a.w == w
    ensures var t := Apply(max, s, a);
            && Stage(t, n) == 1 && t.q.items == s.q.items
            && Work(max, t) <= Work(max, s) && Weights(t.workers) <= Weights(s.workers)
            && (Work(max, t) < Work(max, s) || Weights(t.workers) < Weights(s.workers))
  {
    hide InFlight, Finishing, Copies, Inv, Work, Stage;
    StepWork(max, s, a);
    QueuedSomewhere(s, n);
    OneMoves(max, s, a, w);
    WeightsUpdate(s.workers, w, Apply(max, s, a).workers[w]);
    hide Enabled, Apply;
    QueuedStage(Apply(max, s, a), n);
  }

  lemma OneMoves(max: nat, s: State, a: Action, w: nat)
    requires Enabled(max, s, a) && (a.Succeed? || a.MarkDone? || a.Retry?) && a.w == w
    ensures IsWorker(s, w)
    ensures var t := Apply(max, s, a);
            && t.q.items == s.q.items && IsWorker(t, w) && t.workers == s.workers[w := t.workers[w]]
            && Weight(t.workers[w]) <= Weight(s.workers[w])
            && (!a.Succeed? ==> Weight(t.workers[w]) < Weight(s.workers[w]))
  {
  }

  lemma StepPop(max: nat, s: State, n: Name, w: nat)
    requires Inv(max, s) && Enabled(max, s, Pop(w)) && Stage(s, n) == 1
    ensures var t := Apply(max, s, Pop(w));
            Stage(t, n) == 0 ||
            (Stage(t, n) == 1 && |t.q.items| < |s.q.items| && Work(max, t) <= Work(max, s))
  {
    StepWork(max, s, Pop(w));
    QueuedSomewhere(s, n);
    CopiesHead(s.q.items, n);
    var t := Apply(max, s, Pop(w));
    StepKeepsInv(max, s, Pop(w));
    if s.q.items[0].name == n {
      assert HeldBy(t, w, n);
      HolderCounts(t, w, n);
      assert Owners(t, n) <= 1;
    }
  }

  lemma HolderCounts(s: State, w: nat, n: Name)
    requires HeldBy(s, w, n)
    ensures InFlight(s.workers, n) >= 1
  {
    WorkerUpdate(s.workers, w, Ready, n);
  }

  /** An attempt on another file ends: badly, or after its ACK. */
  lemma StepAttempt(max: nat, s: State, k: Conns, n: Name, w: nat) returns (a: Action)
    requires Waiting(max, s, k, n) && Stage(s, n) == 1 && IsWorker(s, w) && s.workers[w].Holding?
    ensures Good(max, s, k, n, a)
  {
    hide InFlight, Finishing, Copies, Inv, Stranded, Work, Stage, Failed, Resorted, WakesOne, Handed, Alive;
    QueuedSomewhere(s, n);
    OtherFile(max, s, n, w);
    if w in k.acked {
      a := Deliver(w, false);
      hide Enabled, Apply;
      AnswersAck(max, s, k, n, w);
    } else {
      var sorted := SomeSort([s.workers[w].item] + s.q.items);
      var wake := SomeWake(s.workers);
      a := Fail(w, false, false, sorted, wake);
      FailWork(max, s, w, false, false, sorted, wake);
      StillQueued(max, s, a, n);
      assert k.open - {w} <= k.open;
      assert w in k.open ==> k.Next(a).Size() < k.Size();
    }
  }

  lemma AnswersAck(max: nat, s: State, k: Conns, n: Name, w: nat)
    requires IsWorker(s, w) && s.workers[w].Holding? && w in k.acked
    ensures Good(max, s, k, n, Deliver(w, false))
  {
    hide Stage, Work;
    assert k.Next(Deliver(w, false)).Size() < k.Size();
  }

  lemma OtherFile(max: nat, s: State, n: Name, w: nat)
    requires Inv(max, s) && IsWorker(s, w) && s.workers[w].Holding? && Copies(s.q.items, n) > 0
    ensures s.workers[w].item.name != n
  {
    HeldIsNotQueued(max, s, w);
    CopiesMembers(s.q.items, n);
  }

  lemma StillQueued(max: nat, s: State, a: Action, n: Name)
    requires Enabled(max, s, a) && a.Fail? && Copies(s.q.items, n) > 0 && s.workers[a.w].item.name != n
    ensures Stage(Apply(max, s, a), n) == 1
  {
    var item := s.workers[a.w].item;
    if s.q.Requeues(max, item.name) {
      CopiesOfSame([item] + s.q.items, a.sorted, n);
      CopiesHead([item] + s.q.items, n);
      assert ([item] + s.q.items)[1..] == s.q.items;
    }
    QueuedStage(Apply(max, s, a), n);
  }

  // ---------- all steps together ----------

  lemma StaysAlive(max: nat, s: State, k: Conns, a: Action)
    requires Alive(s) && Enabled(max, s, a) && Unaided(k, a) && (a.Pop? ==> s.q.items != [])
    ensures Alive(Apply(max, s, a))
  {
    var i :| 0 <= i < |s.workers| && !s.workers[i].Exited?;
    WorkerAfter(max, s, a, i);
    NotStopped(max, s, k, a);
    hide Enabled, Apply;
  }

  lemma NotStopped(max: nat, s: State, k: Conns, a: Action)
    requires Enabled(max, s, a) && Unaided(k, a)
    ensures Apply(max, s, a).q.stopped == s.q.stopped
  {
    hide Resorted, WakesOne, Wake, FaithfulListing, Sorted, HandedOver;
  }

  lemma NoFileMoves(max: nat, s: State, k: Conns, a: Action)
    requires Enabled(max, s, a) && Unaided(k, a)
    ensures Apply(max, s, a).disk.Keys == s.disk.Keys
  {
    DiskAfter(max, s, a);
    hide Enabled, Apply;
  }

  lemma NobodyStranded(max: nat, s: State, k: Conns, a: Action)
    requires Inv(max, s) && Enabled(max, s, a) && Unaided(k, a) && !s.q.stopped
    ensures forall m :: Stranded(Apply(max, s, a), m) ==> Stranded(s, m)
  {
    NoFileMoves(max, s, k, a);
    forall m | Stranded(Apply(max, s, a), m)
      ensures Stranded(s, m)
    {
      assert m in s.disk;
      if !Stranded(s, m) { StrandsIff(max, s, a, m); }
    }
  }

  /** As long as n waits, some unaided step brings it closer to a worker. */
  lemma Approach(max: nat, s: State, k: Conns, n: Name) returns (a: Action)
    requires Waiting(max, s, k, n)
    ensures Good(max, s, k, n, a)
    ensures var t := Apply(max, s, a); Waiting(max, t, k.Next(a), n) || Handed(t, k.Next(a), n)
  {
    hide Good, Inv, Stranded, Enabled, Apply;
    if Stage(s, n) == 0 {
      a := StepHeld(max, s, k, n);
    } else if Stage(s, n) == 1 {
      a := StepQueued(max, s, k, n);
    } else if Stage(s, n) == 5 {
      a := StepDelivered(max, s, k, n);
    } else if Stage(s, n) == 4 {
      a := StepSettled(max, s, k, n);
    } else if Stage(s, n) == 3 {
      a := StepUnowned(max, s, k, n);
    } else {
      a := StepPush(max, s, k, n);
    }
    StillWaiting(max, s, k, n, a);
  }

  lemma StillWaiting(max: nat, s: State, k: Conns, n: Name, a: Action)
    requires Waiting(max, s, k, n) && Good(max, s, k, n, a)
    ensures var t := Apply(max, s, a); Waiting(max, t, k.Next(a), n) || Handed(t, k.Next(a), n)
  {
    hide Closer, Inv, Enabled, Apply, Stranded, Alive, Strands;
    StaysAlive(max, s, k, a);
    NoFileMoves(max, s, k, a);
    StrandsIff(max, s, a, n);
    StepKeepsInv(max, s, a);
  }

  lemma {:induction false} Prepend(max: nat, s: State, a: Action, run: seq<Action>)
    requires Enabled(max, s, a) && Allowed(max, Apply(max, s, a), run)
    ensures Allowed(max, s, [a] + run) && Exec(max, s, [a] + run) == Exec(max, Apply(max, s, a), run)
  {
    hide Enabled, Apply;
    var all := [a] + run;
    if run == [] {
      assert all[..0] == [] && all == [a];
      NoSteps(max, s);
    } else {
      Prepend(max, s, a, run[..|run| - 1]);
      assert all[..|all| - 1] == [a] + run[..|run| - 1];
    }
  }

  /** Some worker can still get n. */
  ghost predicate CanBeHanded(max: nat, s: State, n: Name) {
    exists run, w :: Allowed(max, s, run) && HeldBy(Exec(max, s, run), w, n)
  }

  lemma {:induction false} WaitingIsHanded(max: nat, s: State, k: Conns, n: Name) returns (run: seq<Action>, w: nat)
    requires Waiting(max, s, k, n) || Handed(s, k, n)
    ensures Allowed(max, s, run) && HeldBy(Exec(max, s, run), w, n)
    decreases k.Size(), Stage(s, n), First(max, s, n), Second(s, n), Third(s, n)
  {
    hide Enabled, Apply, Allowed, Exec, Stage, First, Second, Third, Inv, Stranded;
    if Handed(s, k, n) {
      var v :| HeldBy(s, v, n) && v !in k.open;
      NoSteps(max, s);
      run, w := [], v;
    } else {
      var a := Approach(max, s, k, n);
      run, w := WaitingIsHanded(max, Apply(max, s, a), k.Next(a), n);
      Prepend(max, s, a, run);
      run := [a] + run;
    }
  }

  lemma StrandedIsNotHeld(s: State, n: Name, w: int)
    requires Stranded(s, n)
    ensures !HeldBy(s, w, n)
  {
    if HeldBy(s, w, n) { HolderCounts(s, w, n); }
  }

  /** In every reachable state of a running sender, a file in the outbox can still be handed to a
      worker if and only if it is not stranded: nothing else that went wrong, to this file or to
      others, is for good. */
  lemma HandoverIff(max: nat, s: State, run: seq<Action>, n: Name)
    requires max >= 1 && Initial(s) && Allowed(max, s, run)
    requires Alive(Exec(max, s, run)) && n in Exec(max, s, run).disk
    ensures CanBeHanded(max, Exec(max, s, run), n) <==> !Stranded(Exec(max, s, run), n)
  {
    hide Inv, Initial, Allowed, Exec, Stranded;
    var t := Exec(max, s, run);
    InitialInv(max, s);
    RunKeepsInv(max, s, run);
    if Stranded(t, n) {
      forall more, w | Allowed(max, t, more)
        ensures !HeldBy(Exec(max, t, more), w, n)
      {
        StrandedForever(max, t, more, n);
        StrandedIsNotHeld(Exec(max, t, more), n, w);
      }
    } else {
      var more, w := WaitingIsHanded(max, t, Conns({}, {}), n);
    }
  }
}
