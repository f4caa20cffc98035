/** Counting file names in sequences of items and of workers. */
module Bags {
  import opened Wire
  import opened Queues

  /** A worker's place in its loop. Delivered: the receiver acknowledged, RecordSuccess is next.
      Recorded: the attempt is recorded, MarkCompleted is next. */
  datatype Worker =
    | Ready
    | Blocked
    | Signalled
    | Holding(item: FileItem)
    | Delivered(item: FileItem)
    | Recorded(item: FileItem)
    | Backoff
    | Exited

  ghost function Copies(items: seq<FileItem>, n: Name): (k: nat) {
    if items == [] then 0
    else Copies(items[..|items| - 1], n) + if items[|items| - 1].name == n then 1 else 0
  }

  /** 1 if the worker is in the middle of an attempt on n. */
  ghost function Holds(w: Worker, n: Name): (k: nat) {
    if (w.Holding? || w.Delivered?) && w.item.name == n then 1 else 0
  }

  /** 1 if the worker still has to mark n completed. */
  ghost function Settles(w: Worker, n: Name): (k: nat) {
    if w.Recorded? && w.item.name == n then 1 else 0
  }

  ghost function InFlight(ws: seq<Worker>, n: Name): (k: nat) {
    if ws == [] then 0 else InFlight(ws[..|ws| - 1], n) + Holds(ws[|ws| - 1], n)
  }

  ghost function Finishing(ws: seq<Worker>, n: Name): (k: nat) {
    if ws == [] then 0 else Finishing(ws[..|ws| - 1], n) + Settles(ws[|ws| - 1], n)
  }

  ghost function Signals(ws: seq<Worker>): (k: nat) {
    if ws == [] then 0 else Signals(ws[..|ws| - 1]) + if ws[|ws| - 1].Signalled? then 1 else 0
  }

  ghost predicate AnyBlocked(ws: seq<Worker>) {
    exists i :: 0 <= i < |ws| && ws[i].Blocked?
  }

  /** cond.Signal wakes one blocked worker, if there is one. */
  function Wake(ws: seq<Worker>, i: nat): (r: seq<Worker>)
    ensures |r| == |ws|
  {
    if i < |ws| && ws[i].Blocked? then ws[i := Signalled] else ws
  }

  /** cond.Broadcast. */
  function WakeAll(ws: seq<Worker>): (r: seq<Worker>)
    ensures |r| == |ws|
  {
    if ws == [] then []
    else WakeAll(ws[..|ws| - 1]) + [if ws[|ws| - 1].Blocked? then Signalled else ws[|ws| - 1]]
  }

  // ---------- items ----------

  lemma {:induction false} CopiesMembers(items: seq<FileItem>, n: Name)
    ensures Copies(items, n) > 0 <==> n in Names(items)
  {
    if items != [] {
      var front := items[..|items| - 1];
      CopiesMembers(front, n);
      assert items == front + [items[|items| - 1]];
      assert n in Names(items) <==> n in Names(front) || n == items[|items| - 1].name;
    }
  }

  lemma CopiesAppend(a: seq<FileItem>, x: FileItem, n: Name)
    ensures Copies(a + [x], n) == Copies(a, n) + if x.name == n then 1 else 0
  {
    assert (a + [x])[..|a|] == a;
  }

  lemma {:induction false} CopiesConcat(a: seq<FileItem>, b: seq<FileItem>, n: Name)
    ensures Copies(a + b, n) == Copies(a, n) + Copies(b, n)
  {
    if b == [] {
      assert a + b == a;
    } else {
      var front, x := b[..|b| - 1], b[|b| - 1];
      CopiesConcat(a, front, n);
      assert a + b == (a + front) + [x];
      CopiesAppend(a + front, x, n);
    }
  }

  lemma {:induction false} CopiesHead(items: seq<FileItem>, n: Name)
    requires items != []
    ensures Copies(items, n) == Copies(items[1..], n) + if items[0].name == n then 1 else 0
  {
    assert items == [items[0]] + items[1..];
    CopiesConcat([items[0]], items[1..], n);
    assert [items[0]][..0] == [];
  }

  /** Taking one element out of a sequence. */
  lemma {:induction false} Without(b: seq<FileItem>, k: nat, n: Name)
    requires k < |b|
    ensures multiset(b[..k] + b[k + 1..]) == multiset(b) - multiset{b[k]}
    ensures Copies(b, n) == Copies(b[..k] + b[k + 1..], n) + if b[k].name == n then 1 else 0
  {
    var x := b[k];
    assert b == (b[..k] + [x]) + b[k + 1..];
    CopiesConcat(b[..k] + [x], b[k + 1..], n);
    CopiesAppend(b[..k], x, n);
    CopiesConcat(b[..k], b[k + 1..], n);
  }

  /** A permutation has the same names. */
  lemma {:induction false} CopiesOfSame(a: seq<FileItem>, b: seq<FileItem>, n: Name)
    requires multiset(a) == multiset(b)
    ensures Copies(a, n) == Copies(b, n)
  {
    if a == [] {
      assert |multiset(b)| == 0;
    } else {
      var i := |a| - 1;
      assert a[i] in multiset(a);
      assert a[i] in b;
      var k :| 0 <= k < |b| && b[k] == a[i];
      Without(a, i, n);
      Without(b, k, n);
      CopiesOfSame(a[..i] + a[i + 1..], b[..k] + b[k + 1..], n);
    }
  }

  lemma {:induction false} DistinctCopies(items: seq<FileItem>, n: Name)
    requires forall i, j :: 0 <= i < j < |items| ==> items[i].name != items[j].name
    ensures Copies(items, n) <= 1
  {
    if items != [] {
      var front, x := items[..|items| - 1], items[|items| - 1];
      DistinctCopies(front, n);
      if n == x.name {
        CopiesMembers(front, n);
        assert n !in Names(front);
      }
    }
  }

  // ---------- workers ----------

  lemma {:induction false} WorkerUpdate(ws: seq<Worker>, i: nat, w: Worker, n: Name)
    requires i < |ws|
    ensures InFlight(ws[i := w], n) == InFlight(ws, n) - Holds(ws[i], n) + Holds(w, n)
    ensures Finishing(ws[i := w], n) == Finishing(ws, n) - Settles(ws[i], n) + Settles(w, n)
    ensures Holds(ws[i], n) <= InFlight(ws, n) && Settles(ws[i], n) <= Finishing(ws, n)
  {
    var front := ws[..|ws| - 1];
    if i < |ws| - 1 {
      WorkerUpdate(front, i, w, n);
      assert ws[i := w][..|ws| - 1] == front[i := w];
    } else {
      assert ws[i := w][..|ws| - 1] == front;
    }
  }

  lemma {:induction false} SignalsUpdate(ws: seq<Worker>, i: nat, w: Worker)
    requires i < |ws|
    ensures Signals(ws[i := w]) == Signals(ws) - (if ws[i].Signalled? then 1 else 0) + (if w.Signalled? then 1 else 0)
  {
    var front := ws[..|ws| - 1];
    if i < |ws| - 1 {
      SignalsUpdate(front, i, w);
      assert ws[i := w][..|ws| - 1] == front[i := w];
    } else {
      assert ws[i := w][..|ws| - 1] == front;
    }
  }

  lemma {:induction false} WakeAllKeeps(ws: seq<Worker>, n: Name)
    ensures InFlight(WakeAll(ws), n) == InFlight(ws, n) && Finishing(WakeAll(ws), n) == Finishing(ws, n)
  {
    if ws != [] {
      WakeAllKeeps(ws[..|ws| - 1], n);
      assert WakeAll(ws)[..|ws| - 1] == WakeAll(ws[..|ws| - 1]);
    }
  }

  lemma WakeAt(ws: seq<Worker>, wake: nat, i: nat)
    requires i < |ws|
    ensures Wake(ws, wake)[i] == ws[i] || (ws[i].Blocked? && Wake(ws, wake)[i].Signalled?)
  {
  }

  lemma {:induction false} WakeAllAt(ws: seq<Worker>, i: nat)
    requires i < |ws|
    ensures WakeAll(ws)[i] == ws[i] || (ws[i].Blocked? && WakeAll(ws)[i].Signalled?)
  {
    if i < |ws| - 1 { WakeAllAt(ws[..|ws| - 1], i); }
  }

  lemma {:induction false} WakeAllWakes(ws: seq<Worker>)
    ensures !AnyBlocked(WakeAll(ws))
  {
    if ws != [] {
      WakeAllWakes(ws[..|ws| - 1]);
    }
  }

  lemma {:induction false} NobodyHolds(ws: seq<Worker>, n: Name)
    requires forall i :: 0 <= i < |ws| ==> !ws[i].Holding? && !ws[i].Delivered?
    ensures InFlight(ws, n) == 0
  {
    if ws != [] {
      NobodyHolds(ws[..|ws| - 1], n);
    }
  }

  lemma {:induction false} TwoCopies(items: seq<FileItem>, i: nat, j: nat)
    requires i < j < |items| && items[i].name == items[j].name
    ensures Copies(items, items[i].name) >= 2
  {
    var front := items[..|items| - 1];
    if j < |items| - 1 {
      TwoCopies(front, i, j);
    } else {
      CopiesMembers(front, items[i].name);
      assert front[i] in front;
    }
  }

  /** The worker is in the middle of an attempt on f, or still has to mark it completed. */
  ghost predicate Carries(w: Worker, f: FileItem) {
    (w.Holding? || w.Delivered? || w.Recorded?) && w.item == f
  }

  lemma {:induction false} TwoCarriers(ws: seq<Worker>, i: nat, j: nat, f: FileItem, g: FileItem)
    requires i < j < |ws| && Carries(ws[i], f) && Carries(ws[j], g) && f.name == g.name
    ensures InFlight(ws, f.name) + Finishing(ws, f.name) >= 2
  {
    var front := ws[..|ws| - 1];
    if j < |ws| - 1 {
      TwoCarriers(front, i, j, f, g);
    } else {
      WorkerUpdate(front, i, front[i], f.name);
    }
  }

  ghost function Woken(ws: seq<Worker>): (s: set<int>) {
    set i | 0 <= i < |ws| && ws[i].Signalled?
  }

  lemma {:induction false} SignalsCount(ws: seq<Worker>)
    ensures Signals(ws) == |Woken(ws)|
  {
    if ws != [] {
      var k := |ws| - 1;
      var front := ws[..k];
      SignalsCount(front);
      assert Woken(ws) == Woken(front) + if ws[k].Signalled? then {k} else {};
    }
  }
}
