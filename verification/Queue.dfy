/** The sender's work queue: the locked operations as functions of its state, the class that
    implements them, and what holds after every sequence of calls. */
module Queues {
  import opened Bytes
  import opened Wire
  import opened Monitor

  datatype FileItem = FileItem(name: Name, size: nat, modTime: Time)

  ghost predicate Sorted(items: seq<FileItem>) {
    forall i, j :: 0 <= i < j < |items| ==> items[i].modTime <= items[j].modTime
  }

  /** sort.Slice is not stable: its result is some sorted permutation. */
  ghost predicate Resorted(items: seq<FileItem>, result: seq<FileItem>) {
    Sorted(result) && multiset(result) == multiset(items)
  }

  function Names(items: seq<FileItem>): (s: set<Name>) {
    set x | x in items :: x.name
  }

  datatype QState = QState(items: seq<FileItem>, inQueue: set<Name>, attempts: map<Name, nat>, stopped: bool)
  {
    function Attempts(n: Name): (k: nat) {
      if n in attempts then attempts[n] else 0
    }

    predicate Accepts(item: FileItem) {
      !stopped && item.name !in inQueue
    }

    /** sorted is what sort.Slice makes of the items with the new one. */
    function Push(item: FileItem, sorted: seq<FileItem>): (q: QState) {
      if Accepts(item) then this.(items := sorted, inQueue := inQueue + {item.name}) else this
    }

    function Pop(): (q: QState)
      requires items != []
    {
      this.(items := items[1..], inQueue := inQueue - {items[0].name})
    }

    function RecordSuccess(n: Name): (q: QState) {
      this.(attempts := attempts - {n})
    }

    /** Whether a failure of n now is its last permitted one. */
    predicate Quarantines(max: nat, n: Name) {
      Attempts(n) + 1 >= max
    }

    predicate Requeues(max: nat, n: Name) {
      !Quarantines(max, n) && n !in inQueue
    }

    function RecordFailure(max: nat, item: FileItem, sorted: seq<FileItem>): (q: QState) {
      var n := item.name;
      if Quarantines(max, n) then this.(attempts := attempts - {n}, inQueue := inQueue - {n})
      else if n in inQueue then this.(attempts := attempts[n := Attempts(n) + 1])
      else this.(attempts := attempts[n := Attempts(n) + 1], items := sorted, inQueue := inQueue + {n})
    }

    function Stop(): (q: QState) {
      this.(stopped := true)
    }
  }

  // ---------- the class ----------

  datatype PopResult = Blocks | Item(item: FileItem) | Closed

  /** The condition variable, as its users drive it: how often it was signalled and broadcast. Whom a
      signal wakes, and when, is the subject of the Pipeline module. */
  class Cond {
    var signals: nat
    var broadcasts: nat

    constructor ()
      ensures signals == 0 && broadcasts == 0
    {
      signals, broadcasts := 0, 0;
    }

    method Signal()
      modifies `signals
      ensures signals == old(signals) + 1
    {
      signals := signals + 1;
    }

    method Broadcast()
      modifies `broadcasts
      ensures broadcasts == old(broadcasts) + 1
    {
      broadcasts := broadcasts + 1;
    }
  }

  class Queue {
    const maxAttempts: nat
    const tracker: Tracker?
    const cond: Cond
    var items: seq<FileItem>
    var inQueue: set<Name>
    var attempts: map<Name, nat>
    var failedCount: nat
    var stopped: bool

    ghost function State(): (q: QState)
      reads this
    {
      QState(items, inQueue, attempts, stopped)
    }

    /** Holds whenever the lock is free: the tracker mirrors the queue's counts, items are oldest
        first, the index names only queued files and every counter is below the limit. */
    ghost predicate Valid()
      reads this, tracker
    {
      && Ordered(maxAttempts, State())
      && (tracker != null ==> tracker.waitingFiles == |items| && tracker.failedFiles == failedCount)
    }

    /** failedDir: for each entry of .failed whether it is a directory; None if it cannot be read. */
    constructor (maxAttempts: int, tracker: Tracker?, failedDir: Option<seq<bool>>)
      modifies tracker
      ensures this.maxAttempts == (if maxAttempts <= 0 then 10 else maxAttempts) && this.tracker == tracker
      ensures State() == QState([], {}, map[], false)
      ensures failedCount == if failedDir.Some? then FilesIn(failedDir.value) else 0
      ensures Valid() && fresh(cond)
    {
      cond := new Cond();
      this.maxAttempts := if maxAttempts <= 0 then 10 else maxAttempts;
      this.tracker := tracker;
      items, inQueue, attempts, failedCount, stopped := [], {}, map[], 0, false;
      new;
      UpdateFailedCount(failedDir);
    }

    method UpdateFailedCount(failedDir: Option<seq<bool>>)
      modifies `failedCount, tracker
      ensures failedCount == if failedDir.Some? then FilesIn(failedDir.value) else old(failedCount)
      ensures tracker != null ==> tracker.waitingFiles == |items| && tracker.failedFiles == failedCount
    {
      if failedDir.Some? {
        var entries, count := failedDir.value, 0;
        for i := 0 to |entries|
          invariant count == FilesIn(entries[..i])
        {
          assert entries[..i + 1][..i] == entries[..i];
          if !entries[i] { count := count + 1; }
        }
        assert entries[..|entries|] == entries;
        failedCount := count;
      }
      Mirror();
    }

    method Mirror()
      modifies tracker
      ensures tracker != null ==> tracker.waitingFiles == |items| && tracker.failedFiles == failedCount
    {
      if tracker != null {
        tracker.SetQueueCounts(|items|, failedCount);
      }
    }

    method Push(item: FileItem)
      requires Valid()
      modifies `items, `inQueue, tracker, cond`signals
      ensures Valid()
      ensures old(stopped) || item.name in old(inQueue) ==>
                items == old(items) && inQueue == old(inQueue) && cond.signals == old(cond.signals)
      ensures !old(stopped) && item.name !in old(inQueue) ==>
                && multiset(items) == multiset(old(items)) + multiset{item}
                && (forall i, j :: 0 <= i < j < |items| ==> items[i].modTime <= items[j].modTime)
                && inQueue == old(inQueue) + {item.name} && cond.signals == old(cond.signals) + 1
      ensures State() == old(State()).Push(item, items)
      ensures old(State()).Accepts(item) ==> Resorted(old(items) + [item], items)
    {
      if stopped || item.name in inQueue {
        return;
      }
      ghost var before := State();
      items := SortByModTime(items + [item]);
      inQueue := inQueue + {item.name};
      PushKeeps(maxAttempts, before, item, items);
      Mirror();
      cond.Signal();
    }

    /** One pass of Pop's wait loop under the lock. */
    method TryPop() returns (r: PopResult)
      requires Valid()
      modifies `items, `inQueue, tracker
      ensures Valid()
      ensures r.Closed? <==> old(stopped) && old(items) == []
      ensures r.Blocks? <==> !old(stopped) && old(items) == []
      ensures !r.Item? ==> State() == old(State())
      ensures r.Item? ==>
                && r.item == old(items)[0] && items == old(items)[1..] && inQueue == old(inQueue) - {r.item.name}
                && State() == old(State()).Pop()
    {
      if items == [] {
        return if stopped then Closed else Blocks;
      }
      ghost var before := State();
      r := Item(items[0]);
      items, inQueue := items[1..], inQueue - {items[0].name};
      PopKeeps(maxAttempts, before);
      Mirror();
    }

    method RecordSuccess(filename: Name)
      requires Valid()
      modifies `attempts
      ensures Valid() && attempts == old(attempts) - {filename}
      ensures State() == old(State()).RecordSuccess(filename)
    {
      attempts := attempts - {filename};
    }

    method RecordFailure(item: FileItem, failedDir: Option<seq<bool>>) returns (quarantined: bool)
      requires Valid()
      modifies `items, `inQueue, `attempts, `failedCount, tracker, cond`signals
      ensures Valid()
      ensures var made := (if item.name in old(attempts) then old(attempts)[item.name] else 0) + 1;
              && quarantined == (made >= maxAttempts)
              && attempts == (if quarantined then old(attempts) - {item.name} else old(attempts)[item.name := made])
              && inQueue == (if quarantined then old(inQueue) - {item.name} else old(inQueue) + {item.name})
      ensures quarantined || item.name in old(inQueue) ==> items == old(items) && cond.signals == old(cond.signals)
      ensures !quarantined && item.name !in old(inQueue) ==>
                && multiset(items) == multiset(old(items)) + multiset{item}
                && (forall i, j :: 0 <= i < j < |items| ==> items[i].modTime <= items[j].modTime)
                && cond.signals == old(cond.signals) + 1
      ensures quarantined == old(State()).Quarantines(maxAttempts, item.name)
      ensures State() == old(State()).RecordFailure(maxAttempts, item, items)
      ensures if old(State()).Requeues(maxAttempts, item.name) then Resorted([item] + old(items), items)
          else items == old(items)
      ensures quarantined && failedDir.Some? ==> failedCount == FilesIn(failedDir.value)
      ensures !quarantined || failedDir.None? ==> failedCount == old(failedCount)
    {
      hide Ordered, Resorted, Names, FilesIn, QState.RecordFailure;
      ghost var before := State();
      var count := (if item.name in attempts then attempts[item.name] else 0) + 1;
      if count >= maxAttempts {
        attempts, inQueue := attempts - {item.name}, inQueue - {item.name};
        FailureIs(maxAttempts, before, item, items);
        FailureKeeps(maxAttempts, before, item, items);
        UpdateFailedCount(failedDir);
        return true;
      }
      attempts := attempts[item.name := count];
      if item.name !in inQueue {
        Requeue(item);
        ResortedMeans([item] + before.items, items);
      }
      FailureIs(maxAttempts, before, item, items);
      assert inQueue == before.inQueue + {item.name};
      assert State() == before.RecordFailure(maxAttempts, item, items);
      FailureKeeps(maxAttempts, before, item, items);
      quarantined := false;
    }

    method Requeue(item: FileItem)
      requires tracker != null ==> tracker.failedFiles == failedCount
      modifies `items, `inQueue, tracker, cond`signals
      ensures Resorted([item] + old(items), items) && inQueue == old(inQueue) + {item.name}
      ensures cond.signals == old(cond.signals) + 1
      ensures tracker != null ==> tracker.waitingFiles == |items| && tracker.failedFiles == failedCount
    {
      items := SortByModTime([item] + items);
      inQueue := inQueue + {item.name};
      Mirror();
      cond.Signal();
    }

    method Stop()
      requires Valid()
      modifies `stopped, cond`broadcasts
      ensures Valid() && stopped && State() == old(State()).Stop()
      ensures cond.broadcasts == old(cond.broadcasts) + 1
    {
      stopped := true;
      cond.Broadcast();
    }
  }

  lemma FailureIs(max: nat, q: QState, item: FileItem, sorted: seq<FileItem>)
    ensures var n, made := item.name, q.Attempts(item.name) + 1;
            q.RecordFailure(max, item, sorted) ==
              if made >= max then q.(attempts := q.attempts - {n}, inQueue := q.inQueue - {n})
              else q.(attempts := q.attempts[n := made], items := if n in q.inQueue then q.items else sorted,
                      inQueue := q.inQueue + {n})
  {
  }

  /** The entries that are not directories. */
  ghost function FilesIn(entries: seq<bool>): (n: nat) {
    if entries == [] then 0
    else FilesIn(entries[..|entries| - 1]) + if entries[|entries| - 1] then 0 else 1
  }

  /** The number of entries that are not directories, by position. */
  lemma {:induction false} FilesInCounts(entries: seq<bool>)
    ensures FilesIn(entries) == |set i | 0 <= i < |entries| && !entries[i]|
  {
    var all := set i | 0 <= i < |entries| && !entries[i];
    if entries != [] {
      var front, k := entries[..|entries| - 1], |entries| - 1;
      FilesInCounts(front);
      var before := set i | 0 <= i < |front| && !front[i];
      assert all == if entries[k] then before else before + {k};
    }
  }

  lemma ResortedMeans(a: seq<FileItem>, b: seq<FileItem>)
    requires Resorted(a, b)
    ensures multiset(b) == multiset(a) && forall i, j :: 0 <= i < j < |b| ==> b[i].modTime <= b[j].modTime
  {
  }

  method SortByModTime(s: seq<FileItem>) returns (r: seq<FileItem>)
    ensures Resorted(s, r)
  {
    r := [];
    for i := 0 to |s|
      invariant Resorted(s[..i], r)
    {
      r := InsertByModTime(r, s[i]);
      assert s[..i + 1] == s[..i] + [s[i]];
    }
    assert s[..|s|] == s;
  }

  method InsertByModTime(s: seq<FileItem>, x: FileItem) returns (r: seq<FileItem>)
    requires Sorted(s)
    ensures Resorted(s + [x], r)
  {
    var k := 0;
    while k < |s| && s[k].modTime <= x.modTime
      invariant 0 <= k <= |s|
      invariant forall i :: 0 <= i < k ==> s[i].modTime <= x.modTime
    {
      k := k + 1;
    }
    r := s[..k] + [x] + s[k..];
    InsertedAt(s, x, k);
  }

  lemma InsertedAt(s: seq<FileItem>, x: FileItem, k: nat)
    requires Sorted(s) && k <= |s| && (forall i :: 0 <= i < k ==> s[i].modTime <= x.modTime)
    requires k < |s| ==> x.modTime < s[k].modTime
    ensures Resorted(s + [x], s[..k] + [x] + s[k..])
  {
    CutSorted(s, x, k);
    hide Sorted;
    InsertedSame(s[..k], s[k..], x);
    SortedAround(s[..k], x, s[k..]);
  }

  lemma CutSorted(s: seq<FileItem>, x: FileItem, k: nat)
    requires Sorted(s) && k <= |s| && (k < |s| ==> x.modTime < s[k].modTime)
    ensures s == s[..k] + s[k..] && Sorted(s[..k]) && Sorted(s[k..])
    ensures forall i :: 0 <= i < |s[k..]| ==> x.modTime <= s[k..][i].modTime
  {
    forall i | 0 <= i < |s[k..]| ensures x.modTime <= s[k..][i].modTime {
      assert s[k..][i] == s[k + i] && s[k].modTime <= s[k + i].modTime;
    }
  }

  lemma InsertedSame(a: seq<FileItem>, b: seq<FileItem>, x: FileItem)
    ensures multiset(a + [x] + b) == multiset((a + b) + [x])
  {
  }

  lemma SortedAround(a: seq<FileItem>, x: FileItem, b: seq<FileItem>)
    requires Sorted(a) && Sorted(b)
    requires (forall i :: 0 <= i < |a| ==> a[i].modTime <= x.modTime)
        && (forall i :: 0 <= i < |b| ==> x.modTime <= b[i].modTime)
    ensures Sorted(a + [x] + b)
  {
    var r := a + [x] + b;
    forall i, j | 0 <= i < j < |r|
      ensures r[i].modTime <= r[j].modTime
    {
      assert r[i] == if i < |a| then a[i] else if i == |a| then x else b[i - |a| - 1];
      assert r[j] == if j < |a| then a[j] else if j == |a| then x else b[j - |a| - 1];
    }
  }

  // ---------- what every call keeps ----------

  ghost predicate Ordered(max: nat, q: QState) {
    && max >= 1
    && Sorted(q.items)
    && q.inQueue <= Names(q.items)
    && forall n :: n in q.attempts ==> 1 <= q.attempts[n] < max
  }

  lemma NamesOfSame(a: seq<FileItem>, b: seq<FileItem>)
    requires multiset(a) == multiset(b)
    ensures Names(a) == Names(b)
  {
    forall x ensures x in a <==> x in b { assert x in a <==> x in multiset(a); }
  }

  lemma PushKeeps(max: nat, q: QState, item: FileItem, sorted: seq<FileItem>)
    requires Ordered(max, q) && (q.Accepts(item) ==> Resorted(q.items + [item], sorted))
    ensures Ordered(max, q.Push(item, sorted))
    ensures q.Accepts(item) ==> Names(sorted) == Names(q.items) + {item.name}
  {
    if q.Accepts(item) {
      NamesOfSame(q.items + [item], sorted);
      assert Names(q.items + [item]) == Names(q.items) + {item.name};
    }
  }

  lemma PopKeeps(max: nat, q: QState)
    requires Ordered(max, q) && q.items != []
    ensures Ordered(max, q.Pop())
    ensures Names(q.items) == Names(q.items[1..]) + {q.items[0].name}
  {
    assert q.items == [q.items[0]] + q.items[1..];
  }

  lemma FailureKeeps(max: nat, q: QState, item: FileItem, sorted: seq<FileItem>)
    requires Ordered(max, q) && (q.Requeues(max, item.name) ==> Resorted([item] + q.items, sorted))
    ensures Ordered(max, q.RecordFailure(max, item, sorted))
    ensures q.Requeues(max, item.name) ==> Names(sorted) == Names(q.items) + {item.name}
  {
    if q.Requeues(max, item.name) {
      NamesOfSame([item] + q.items, sorted);
      assert Names([item] + q.items) == Names(q.items) + {item.name};
    }
  }

  // ---------- arbitrary sequences of calls ----------

  datatype Call =
    | PushCall(item: FileItem, sorted: seq<FileItem>)
    | PopCall
    | SuccessCall(n: Name)
    | FailureCall(item: FileItem, sorted: seq<FileItem>)
    | StopCall

  ghost predicate CallOk(max: nat, q: QState, c: Call) {
    match c
    case PushCall(item, sorted) => q.Accepts(item) ==> Resorted(q.items + [item], sorted)
    case PopCall => q.items != []
    case FailureCall(item, sorted) => q.Requeues(max, item.name) ==> Resorted([item] + q.items, sorted)
    case _ => true
  }

  ghost function Called(max: nat, q: QState, c: Call): (t: QState)
    requires CallOk(max, q, c)
  {
    match c
    case PushCall(item, sorted) => q.Push(item, sorted)
    case PopCall => q.Pop()
    case SuccessCall(n) => q.RecordSuccess(n)
    case FailureCall(item, sorted) => q.RecordFailure(max, item, sorted)
    case StopCall => q.Stop()
  }

  const NEW_QUEUE := QState([], {}, map[], false)

  ghost predicate CallsOk(max: nat, calls: seq<Call>)
    decreases |calls|, 0
  {
    calls == [] ||
    (var front := calls[..|calls| - 1];
     CallsOk(max, front) && CallOk(max, Run(max, front), calls[|calls| - 1]))
  }

  /** The state of a new queue after the calls, in any order, whoever makes them. */
  ghost function Run(max: nat, calls: seq<Call>): (q: QState)
    requires CallsOk(max, calls)
    decreases |calls|, 1
  {
    if calls == [] then NEW_QUEUE
    else Called(max, Run(max, calls[..|calls| - 1]), calls[|calls| - 1])
  }

  lemma CallKeeps(max: nat, q: QState, c: Call)
    requires Ordered(max, q) && CallOk(max, q, c)
    ensures Ordered(max, Called(max, q, c))
  {
    match c
    case PushCall(item, sorted) => PushKeeps(max, q, item, sorted);
    case PopCall => PopKeeps(max, q);
    case FailureCall(item, sorted) => FailureKeeps(max, q, item, sorted);
    case _ =>
  }

  /** After every sequence of calls the items are oldest first, the index names only queued files,
      and every attempt counter lies in 1..max-1. */
  lemma {:induction false} EveryRunOrdered(max: nat, calls: seq<Call>)
    requires max >= 1 && CallsOk(max, calls)
    ensures Ordered(max, Run(max, calls))
  {
    if calls != [] {
      var front := calls[..|calls| - 1];
      EveryRunOrdered(max, front);
      CallKeeps(max, Run(max, front), calls[|calls| - 1]);
    }
  }

  /** The failures of n since its last success. */
  ghost function Streak(calls: seq<Call>, n: Name): (k: nat) {
    if calls == [] then 0
    else
      var k := Streak(calls[..|calls| - 1], n);
      match calls[|calls| - 1]
      case FailureCall(item, _) => if item.name == n then k + 1 else k
      case SuccessCall(m) => if m == n then 0 else k
      case _ => k
  }

  /** k modulo max, by repeated subtraction. */
  ghost function Remainder(k: nat, max: nat): (r: nat)
    requires max >= 1
    ensures r < max
  {
    if k < max then k else Remainder(k - max, max)
  }

  lemma {:induction false} NextRemainder(k: nat, max: nat)
    requires max >= 1
    ensures Remainder(k + 1, max) == if Remainder(k, max) + 1 >= max then 0 else Remainder(k, max) + 1
  {
    if k >= max {
      NextRemainder(k - max, max);
    }
  }

  /** The counter is the number of failures since the last success or quarantine: of a streak of
      failures every max-th one quarantines, and the counter is what remains. */
  lemma {:induction false} AttemptsCountFailures(max: nat, calls: seq<Call>, n: Name)
    requires max >= 1 && CallsOk(max, calls)
    ensures Run(max, calls).Attempts(n) == Remainder(Streak(calls, n), max)
    ensures Run(max, calls).Quarantines(max, n) <==> Remainder(Streak(calls, n) + 1, max) == 0
  {
    hide Remainder, CallOk, Called, Ordered;
    if calls != [] {
      var front, c := calls[..|calls| - 1], calls[|calls| - 1];
      AttemptsCountFailures(max, front, n);
      NextRemainder(Streak(front, n), max);
      CallCounts(max, Run(max, front), c, n);
    }
    NoStreak(max);
    NextRemainder(Streak(calls, n), max);
  }

  lemma NoStreak(max: nat)
    requires max >= 1
    ensures Remainder(0, max) == 0
  {
  }

  /** What one call does to the counter of n. */
  lemma CallCounts(max: nat, q: QState, c: Call, n: Name)
    requires CallOk(max, q, c)
    ensures Called(max, q, c).Attempts(n) ==
              if c.FailureCall? && c.item.name == n then if q.Attempts(n) + 1 >= max then 0 else q.Attempts(n) + 1
              else if c.SuccessCall? && c.n == n then 0 else q.Attempts(n)
  {
  }

  /** No file name twice. */
  ghost predicate Distinct(items: seq<FileItem>) {
    forall i, j :: 0 <= i < j < |items| ==> items[i].name != items[j].name
  }

  /** No failure quarantines a file that is queued. */
  ghost predicate Disciplined(max: nat, calls: seq<Call>)
    requires CallsOk(max, calls)
  {
    forall k :: 0 <= k < |calls| && calls[k].FailureCall? && CallsOk(max, calls[..k]) ==>
      var q := Run(max, calls[..k]); !(q.Quarantines(max, calls[k].item.name) && calls[k].item.name in Names(q.items))
  }

  lemma DistinctMore(a: seq<FileItem>, x: FileItem, b: seq<FileItem>)
    requires Distinct(a) && x.name !in Names(a) && multiset(b) == multiset(a) + multiset{x}
    ensures Distinct(b)
  {
    forall i, j | 0 <= i < j < |b|
      ensures b[i].name != b[j].name
    {
      if b[i] == b[j] {
        TwoPlaces(b, i, j);
        PlacedOnce(a, b[i]);
      } else {
        assert b[i] in multiset(b) && b[j] in multiset(b);
        assert (b[i] in a || b[i] == x) && (b[j] in a || b[j] == x);
      }
    }
  }

  lemma TwoPlaces(b: seq<FileItem>, i: nat, j: nat)
    requires i < j < |b| && b[i] == b[j]
    ensures multiset(b)[b[i]] >= 2
  {
    assert b == b[..i] + [b[i]] + b[i + 1..j] + [b[j]] + b[j + 1..];
  }

  lemma {:induction false} PlacedOnce(a: seq<FileItem>, y: FileItem)
    requires Distinct(a)
    ensures multiset(a)[y] <= 1
  {
    if a != [] {
      var front, last := a[..|a| - 1], a[|a| - 1];
      assert a == front + [last];
      PlacedOnce(front, y);
      if y == last { assert y !in front; }
    }
  }

  lemma DistinctCall(max: nat, q: QState, c: Call)
    requires CallOk(max, q, c) && Ordered(max, q) && Distinct(q.items) && q.inQueue == Names(q.items)
    requires c.FailureCall? ==> !(q.Quarantines(max, c.item.name) && c.item.name in Names(q.items))
    ensures var t := Called(max, q, c); Distinct(t.items) && t.inQueue == Names(t.items)
  {
    match c
    case PushCall(item, sorted) =>
      if q.Accepts(item) {
        DistinctMore(q.items, item, sorted);
        NamesOfSame(q.items + [item], sorted);
        assert Names(q.items + [item]) == Names(q.items) + {item.name};
      }
    case FailureCall(item, sorted) =>
      IndexStaysExactIff(max, q, item, sorted);
      if q.Requeues(max, item.name) { DistinctMore(q.items, item, sorted); }
    case PopCall => assert q.items == [q.items[0]] + q.items[1..];
    case _ =>
  }

  /** The queue's own protection: after every sequence of calls in which no failure quarantines a queued
      file, no name is queued twice and the index names exactly the queued files, however often and
      by whomever it was pushed. */
  lemma {:induction false} NoDuplicates(max: nat, calls: seq<Call>)
    requires max >= 1 && CallsOk(max, calls) && Disciplined(max, calls)
    ensures var q := Run(max, calls); Distinct(q.items) && q.inQueue == Names(q.items)
  {
    hide CallOk, Called, Ordered, Distinct;
    if calls == [] {
      NoneQueued();
    } else {
      var front, c := calls[..|calls| - 1], calls[|calls| - 1];
      forall k | 0 <= k < |front|
        ensures front[..k] == calls[..k] && front[k] == calls[k]
      {
      }
      NoDuplicates(max, front);
      EveryRunOrdered(max, front);
      DistinctCall(max, Run(max, front), c);
    }
  }

  lemma NoneQueued()
    ensures Distinct(NEW_QUEUE.items) && NEW_QUEUE.inQueue == Names(NEW_QUEUE.items)
  {
  }

  /** RecordFailure deletes from the index whenever it quarantines. An index that named exactly the
      queued files still does so afterwards, unless the file that failed was itself queued. */
  lemma IndexStaysExactIff(max: nat, q: QState, item: FileItem, sorted: seq<FileItem>)
    requires q.inQueue == Names(q.items)
    requires q.Requeues(max, item.name) ==> Resorted([item] + q.items, sorted)
    ensures var t := q.RecordFailure(max, item, sorted);
            t.inQueue == Names(t.items) <==> !(q.Quarantines(max, item.name) && item.name in Names(q.items))
  {
    if q.Requeues(max, item.name) {
      NamesOfSame([item] + q.items, sorted);
      assert Names([item] + q.items) == Names(q.items) + {item.name};
    }
  }

  /** Without the discipline of the scanner and the workers the index can drift and a file can be
      queued twice: push, fail without popping, push again, with one attempt permitted. */
  lemma IndexCanDrift(f: FileItem)
    ensures var calls := [PushCall(f, [f]), FailureCall(f, []), PushCall(f, [f, f])];
            && CallsOk(1, calls)
            && Run(1, calls[..2]).inQueue == {} && Run(1, calls[..2]).items == [f]
            && Run(1, calls).items == [f, f]
  {
    hide CallsOk, Run, Called, CallOk;
    var push, fail, again := PushCall(f, [f]), FailureCall(f, []), PushCall(f, [f, f]);
    NoCalls(1);
    DriftingSteps(f);
    OneMoreCall(1, [], push);
    OneMoreCall(1, [] + [push], fail);
    OneMoreCall(1, [] + [push] + [fail], again);
    assert [] + [push] + [fail] + [again] == [push, fail, again] && [push, fail, again][..2] == [] + [push] + [fail];
  }

  /** A state reached with one attempt permitted, in which nothing has failed yet or is remembered. */
  ghost function Fresh(items: seq<FileItem>, inQueue: set<Name>): (q: QState) {
    QState(items, inQueue, map[], false)
  }

  lemma DriftingSteps(f: FileItem)
    ensures var push, fail, again := PushCall(f, [f]), FailureCall(f, []), PushCall(f, [f, f]);
            var once, drifted := Fresh([f], {f.name}), Fresh([f], {});
            && CallOk(1, NEW_QUEUE, push) && Called(1, NEW_QUEUE, push) == once
            && CallOk(1, once, fail) && Called(1, once, fail) == drifted
            && CallOk(1, drifted, again) && Called(1, drifted, again) == Fresh([f, f], {f.name})
  {
    PushedOnce(f);
    FailedUnpopped(f);
    PushedTwice(f);
    hide CallOk, Called;
  }

  lemma PushedOnce(f: FileItem)
    ensures CallOk(1, NEW_QUEUE, PushCall(f, [f])) && Called(1, NEW_QUEUE, PushCall(f, [f])) == Fresh([f], {f.name})
  {
    assert [] + [f] == [f];
  }

  lemma FailedUnpopped(f: FileItem)
    ensures CallOk(1, Fresh([f], {f.name}), FailureCall(f, []))
    ensures Called(1, Fresh([f], {f.name}), FailureCall(f, [])) == Fresh([f], {})
  {
  }

  lemma PushedTwice(f: FileItem)
    ensures CallOk(1, Fresh([f], {}), PushCall(f, [f, f]))
    ensures Called(1, Fresh([f], {}), PushCall(f, [f, f])) == Fresh([f, f], {f.name})
  {
    assert [f] + [f] == [f, f];
  }

  lemma NoCalls(max: nat)
    ensures CallsOk(max, []) && Run(max, []) == NEW_QUEUE
  {
  }

  lemma OneMoreCall(max: nat, calls: seq<Call>, c: Call)
    requires CallsOk(max, calls) && CallOk(max, Run(max, calls), c)
    ensures CallsOk(max, calls + [c]) && Run(max, calls + [c]) == Called(max, Run(max, calls), c)
  {
    assert (calls + [c])[..|calls|] == calls;
  }
}
