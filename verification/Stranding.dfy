/** Files that are in the outbox and will never be handed over again: exactly which steps strand a
    file, runs in which that happens, and that it is for good while the sender runs. */
module Stranding {
  import opened Wire
  import opened Queues
  import opened Scanners
  import opened Bags
  import opened Pipeline

  /** The file is in the outbox, latched as queued, and nobody owns it or will mark it completed. */
  ghost predicate Stranded(s: State, n: Name) {
    n in s.disk && n in s.scan && s.scan[n].queued && Owners(s, n) == 0
  }

  /** The two ways to strand n: a dial error on its last permitted attempt that does not move it to
      .failed (MarkCompleted is called after transfer errors only), and a push that is dropped
      because the queue has been stopped since the scan latched n. */
  ghost predicate Strands(max: nat, s: State, a: Action, n: Name) {
    match a
    case Fail(w, dialing, moved, _, _) =>
      && IsWorker(s, w) && s.workers[w].Holding? && s.workers[w].item.name == n
      && dialing && !moved && s.q.Quarantines(max, n)
    case PushOne(_, _) => s.q.stopped && s.pushing != [] && s.pushing[0].name == n
    case _ => false
  }

  /** Exactly those two steps strand a file that was not stranded before. */
  lemma StrandsIff(max: nat, s: State, a: Action, n: Name)
    requires Inv(max, s) && Enabled(max, s, a) && !Stranded(s, n) && n in s.disk
    ensures Stranded(Apply(max, s, a), n) <==> Strands(max, s, a, n)
  {
    hide InFlight, Finishing, Copies, AnyBlocked, Signals, Wake, WakesOne, Names, NoLostWakeup, Conserved;
    assert Owners(s, n) <= 1;
    match a
    case Fail(w, dialing, moved, sorted, wake) => FailStrandsIff(max, s, w, dialing, moved, sorted, wake, n);
    case PushOne(sorted, wake) => PushStrandsIff(max, s, sorted, wake, n);
    case ScanDir(l, stable) => ScanStrandsNothing(max, s, l, stable, n);
    case _ => OthersStrandNothing(max, s, a, n);
  }

  lemma FailStrandsIff(
    max: nat, s: State, w: nat, dialing: bool, moved: bool, sorted: seq<FileItem>, wake: nat, n: Name)
    requires Inv(max, s) && Enabled(max, s, Fail(w, dialing, moved, sorted, wake)) && !Stranded(s, n) && n in s.disk
    ensures Stranded(Failed(max, s, w, dialing, moved, sorted, wake), n) <==>
              Strands(max, s, Fail(w, dialing, moved, sorted, wake), n)
  {
    hide InFlight, Finishing, Copies, AnyBlocked, Signals, Wake, WakesOne, Names, NoLostWakeup, Conserved;
    var item := s.workers[w].item;
    assert Owners(s, n) <= 1;
    HeldIsNotQueued(max, s, w);
    if s.q.Requeues(max, item.name) {
      RequeueCounts(s, w, if dialing then Backoff else Ready, sorted, wake, n);
    } else {
      PlaceCounts(s, w, if dialing then Backoff else Recorded(item), n);
    }
  }

  lemma PushStrandsIff(max: nat, s: State, sorted: seq<FileItem>, wake: nat, n: Name)
    requires Inv(max, s) && Enabled(max, s, PushOne(sorted, wake)) && !Stranded(s, n) && n in s.disk
    ensures Stranded(Pushed(s, sorted, wake), n) <==> Strands(max, s, PushOne(sorted, wake), n)
  {
    var item := s.pushing[0];
    assert Owners(s, n) <= 1;
    CopiesHead(s.pushing, n);
    if item.name == n { NotQueued(max, s, n); }
    if s.q.Accepts(item) {
      CopiesOfSame(s.q.items + [item], sorted, n);
      CopiesAppend(s.q.items, item, n);
      WakeKeeps(s.workers, wake, n);
    }
    hide InFlight, Finishing, Copies, AnyBlocked, Signals, Wake, WakesOne, Names, NoLostWakeup, Conserved;
  }

  lemma ScanStrandsNothing(max: nat, s: State, l: Listing, stable: seq<FileItem>, n: Name)
    requires Inv(max, s) && s.pushing == [] && FaithfulListing(s, l) && HandedOver(s.scan, l, stable)
    requires !Stranded(s, n) && n in s.disk
    ensures !Stranded(s.(scan := Scanned(s.scan, l), pushing := stable), n)
  {
    hide InFlight, Finishing, Copies, NoLostWakeup, Conserved;
    NoCopies(n);
    CopiesMembers(stable, n);
    if n in l && Stable(s.scan, n, l[n]) {
      assert FileItem(n, l[n].size, l[n].modTime) in stable;
    }
  }

  lemma OthersStrandNothing(max: nat, s: State, a: Action, n: Name)
    requires Inv(max, s) && Enabled(max, s, a) && !a.Fail? && !a.PushOne? && !a.ScanDir?
    requires !Stranded(s, n) && n in s.disk
    ensures !Stranded(Apply(max, s, a), n)
  {
    hide InFlight, Finishing, Copies, AnyBlocked, Signals, Wake, WakesOne, Names, NoLostWakeup, Conserved, Ordered;
    assert Owners(s, n) <= 1;
    match a
    case Pop(w) => PopCounts(s, w, n);
    case Stop => WakeAllKeeps(s.workers, n);
    case Deliver(w, _) => PlaceCounts(s, w, Delivered(s.workers[w].item), n);
    case Succeed(w) => PlaceCounts(s, w, Recorded(s.workers[w].item), n);
    case MarkDone(w) => PlaceCounts(s, w, Ready, n);
    case Retry(w) => PlaceCounts(s, w, Ready, n);
    case Exit(w) => PlaceCounts(s, w, Exited, n);
    case _ =>
  }

  /** One worker, one file on disk, nothing counted but the accepted pushes. */
  ghost function Scene(scan: States, pushing: seq<FileItem>, q: QState, worker: Worker, disk: Listing,
      accepted: multiset<Name>): State {
    State(scan, pushing, q, [worker], disk, {}, accepted, multiset{}, multiset{})
  }

  lemma ScanningSteps(n: Name, info: Info)
    requires ValidName(n)
    ensures var disk, item := map[n := info], FileItem(n, info.size, info.modTime);
            var s0, s1 := Scene(map[], [], NEW_QUEUE, Ready, map[], multiset{}),
                Scene(map[], [], NEW_QUEUE, Ready, disk, multiset{});
            var s2 := Scene(map[n := ScanState(info, 1, false)], [], NEW_QUEUE, Ready, disk, multiset{});
            var s3 := Scene(map[n := ScanState(info, 2, true)], [item], NEW_QUEUE, Ready, disk, multiset{});
            && Enabled(1, s0, Appear(n, info)) && Apply(1, s0, Appear(n, info)) == s1
            && Enabled(1, s1, ScanDir(disk, [])) && Apply(1, s1, ScanDir(disk, [])) == s2
            && Enabled(1, s2, ScanDir(disk, [item])) && Apply(1, s2, ScanDir(disk, [item])) == s3
  {
  }

  lemma OwnerInScene(s: State, n: Name)
    requires |s.workers| == 1
    requires (s.workers[0].Holding? && s.workers[0].item.name == n) || (|s.pushing| == 1 && s.pushing[0].name == n)
    ensures Owners(s, n) > 0
  {
    if |s.pushing| == 1 && s.pushing[0].name == n {
      CopiesMembers(s.pushing, n);
    } else {
      WorkerUpdate(s.workers, 0, Ready, n);
    }
  }

  lemma QueueingSteps(n: Name, info: Info)
    ensures var disk, item, scan := map[n := info], FileItem(n, info.size, info.modTime),
        map[n := ScanState(info, 2, true)];
            var s3 := Scene(scan, [item], NEW_QUEUE, Ready, disk, multiset{});
            var s4 := Scene(scan, [], QState([item], {n}, map[], false), Ready, disk, multiset{n});
            var s5 := Scene(scan, [], NEW_QUEUE, Holding(item), disk, multiset{n});
            && Enabled(1, s3, PushOne([item], 0)) && Apply(1, s3, PushOne([item], 0)) == s4
            && Enabled(1, s4, Pop(0)) && Apply(1, s4, Pop(0)) == s5
            && Enabled(1, s5, Fail(0, true, false, [], 0)) && s5.q.Quarantines(1, n)
  {
    assert [] + [FileItem(n, info.size, info.modTime)] == [FileItem(n, info.size, info.modTime)];
  }

  lemma OneMoreStep(max: nat, s: State, run: seq<Action>, a: Action)
    requires Allowed(max, s, run) && Enabled(max, Exec(max, s, run), a)
    ensures Allowed(max, s, run + [a]) && Exec(max, s, run + [a]) == Apply(max, Exec(max, s, run), a)
  {
    hide Enabled, Apply;
    assert (run + [a])[..|run|] == run;
  }

  lemma NoSteps(max: nat, s: State)
    ensures Allowed(max, s, []) && Exec(max, s, []) == s
  {
  }

  lemma StoppedSteps(n: Name, info: Info)
    ensures var disk, item, scan := map[n := info], FileItem(n, info.size, info.modTime),
        map[n := ScanState(info, 2, true)];
            var s3 := Scene(scan, [item], NEW_QUEUE, Ready, disk, multiset{});
            var s4 := Scene(scan, [item], NEW_QUEUE.Stop(), Ready, disk, multiset{});
            && Enabled(1, s3, Stop) && Apply(1, s3, Stop) == s4
            && Enabled(1, s4, PushOne([], 0)) && s4.q.stopped
  {
    assert WakeAll([Ready]) == [Ready];
  }

  /** A second one, without any failure: the queue is stopped after the scan and before the push. */
  lemma APushIsDropped(n: Name, info: Info)
    requires ValidName(n)
    ensures var s0, item := Scene(map[], [], NEW_QUEUE, Ready, map[], multiset{}), FileItem(n, info.size, info.modTime);
            var run := [Appear(n, info), ScanDir(map[n := info], []), ScanDir(map[n := info], [item]), Stop,
                PushOne([], 0)];
            Initial(s0) && Allowed(1, s0, run) && Stranded(Exec(1, s0, run), n)
  {
    hide Enabled, Apply, Allowed, Exec, Inv, Owners;
    var s := Scene(map[], [], NEW_QUEUE, Ready, map[], multiset{});
    var disk, item := map[n := info], FileItem(n, info.size, info.modTime);
    ScanningSteps(n, info);
    StoppedSteps(n, info);
    NoSteps(1, s);
    var run := [] + [Appear(n, info)];
    OneMoreStep(1, s, [], Appear(n, info));
    OneMoreStep(1, s, run, ScanDir(disk, []));
    OneMoreStep(1, s, run + [ScanDir(disk, [])], ScanDir(disk, [item]));
    run := run + [ScanDir(disk, [])] + [ScanDir(disk, [item])];
    OneMoreStep(1, s, run, Stop);
    OneMoreStep(1, s, run + [Stop], PushOne([], 0));
    InitialInv(1, s);
    RunKeepsInv(1, s, run + [Stop]);
    OwnerInScene(Exec(1, s, run + [Stop]), n);
    StrandsIff(1, Exec(1, s, run + [Stop]), PushOne([], 0), n);
    assert run + [Stop] + [PushOne([], 0)] ==
      [Appear(n, info), ScanDir(disk, []), ScanDir(disk, [item]), Stop, PushOne([], 0)];
  }

  /** A run that strands a file: it appears, two scans agree on it, it is pushed and popped, the dial
      fails with one attempt permitted, and the move to .failed fails too. */
  lemma AFileIsStranded(n: Name, info: Info)
    requires ValidName(n)
    ensures var s0, item := Scene(map[], [], NEW_QUEUE, Ready, map[], multiset{}), FileItem(n, info.size, info.modTime);
            var run := [Appear(n, info), ScanDir(map[n := info], []), ScanDir(map[n := info], [item]),
                PushOne([item], 0), Pop(0),
                        Fail(0, true, false, [], 0)];
            Initial(s0) && Allowed(1, s0, run) && Stranded(Exec(1, s0, run), n)
  {
    hide Enabled, Apply, Allowed, Exec, Inv, Owners;
    var s := Scene(map[], [], NEW_QUEUE, Ready, map[], multiset{});
    var disk, item := map[n := info], FileItem(n, info.size, info.modTime);
    ScanningSteps(n, info);
    QueueingSteps(n, info);
    NoSteps(1, s);
    var run := [] + [Appear(n, info)];
    OneMoreStep(1, s, [], Appear(n, info));
    OneMoreStep(1, s, run, ScanDir(disk, []));
    OneMoreStep(1, s, run + [ScanDir(disk, [])], ScanDir(disk, [item]));
    run := run + [ScanDir(disk, [])] + [ScanDir(disk, [item])];
    OneMoreStep(1, s, run, PushOne([item], 0));
    OneMoreStep(1, s, run + [PushOne([item], 0)], Pop(0));
    run := run + [PushOne([item], 0)] + [Pop(0)];
    OneMoreStep(1, s, run, Fail(0, true, false, [], 0));
    InitialInv(1, s);
    RunKeepsInv(1, s, run);
    OwnerInScene(Exec(1, s, run), n);
    StrandsIff(1, Exec(1, s, run), Fail(0, true, false, [], 0), n);
    assert run + [Fail(0, true, false, [], 0)] ==
      [Appear(n, info), ScanDir(disk, []), ScanDir(disk, [item]), PushOne([item], 0), Pop(0),
        Fail(0, true, false, [], 0)];
  }

  /** Ownership of a name arises in scans only. */
  lemma OwnersStep(max: nat, s: State, a: Action, n: Name)
    requires Inv(max, s) && Enabled(max, s, a) && !a.ScanDir?
    ensures Owners(Apply(max, s, a), n) <= Owners(s, n)
  {
    hide InFlight, Finishing, Copies, AnyBlocked, Signals, Wake, WakesOne, Names, SingleOwner, Latched,
      NoLostWakeup, Conserved;
    match a
    case PushOne(sorted, wake) => PushCounts(s, sorted, wake, n);
    case Pop(w) => PopCounts(s, w, n);
    case Fail(w, dialing, moved, sorted, wake) => FailCounts(max, s, w, dialing, moved, sorted, wake, n);
    case Stop => WakeAllKeeps(s.workers, n);
    case Deliver(w, _) => PlaceCounts(s, w, Delivered(s.workers[w].item), n);
    case Succeed(w) => PlaceCounts(s, w, Recorded(s.workers[w].item), n);
    case MarkDone(w) => PlaceCounts(s, w, Ready, n);
    case Retry(w) => PlaceCounts(s, w, Ready, n);
    case Exit(w) => PlaceCounts(s, w, Exited, n);
    case _ =>
  }

  lemma FailCounts(max: nat, s: State, w: nat, dialing: bool, moved: bool, sorted: seq<FileItem>, wake: nat, n: Name)
    requires IsWorker(s, w) && s.workers[w].Holding?
    requires s.q.Requeues(max, s.workers[w].item.name) ==> Resorted([s.workers[w].item] + s.q.items, sorted)
    ensures Owners(Failed(max, s, w, dialing, moved, sorted, wake), n) <= Owners(s, n)
  {
    hide InFlight, Finishing, Copies, Wake;
    var item := s.workers[w].item;
    if s.q.Requeues(max, item.name) {
      RequeueCounts(s, w, if dialing then Backoff else Ready, sorted, wake, n);
    } else {
      PlaceCounts(s, w, if dialing then Backoff else if s.q.Quarantines(max, item.name) then Recorded(item)
        else Ready, n);
    }
  }

  lemma StrandedStep(max: nat, s: State, a: Action, n: Name)
    requires Inv(max, s) && Enabled(max, s, a) && Stranded(s, n)
    ensures Stranded(Apply(max, s, a), n)
  {
    hide InFlight, Finishing, Copies, AnyBlocked, Signals, Wake, WakesOne, Names, SingleOwner, Latched,
      NoLostWakeup, Conserved;
    if a.ScanDir? {
      NoCopies(n);
      CopiesMembers(a.stable, n);
      assert n !in Names(a.stable) by { NotHandedOver(s.scan, a.l, a.stable, n); }
    } else {
      OwnersStep(max, s, a, n);
      if a.Deliver? || a.Fail? || a.MarkDone? {
        PlaceCounts(s, a.w, Ready, n);
      }
    }
  }

  lemma NotHandedOver(states: States, l: Listing, stable: seq<FileItem>, n: Name)
    requires HandedOver(states, l, stable) && n in states && states[n].queued
    ensures n !in Names(stable)
  {
  }

  /** A stranded file stays in the outbox and is never sent again while the sender runs. */
  lemma {:induction false} StrandedForever(max: nat, s: State, run: seq<Action>, n: Name)
    requires Inv(max, s) && Allowed(max, s, run) && Stranded(s, n)
    ensures Stranded(Exec(max, s, run), n)
  {
    hide Inv, Enabled, Apply, Stranded;
    if run != [] {
      var front := run[..|run| - 1];
      StrandedForever(max, s, front, n);
      RunKeepsInv(max, s, front);
      StrandedStep(max, Exec(max, s, front), run[|run| - 1], n);
    }
  }
}
