/** The tracker's five-minute error window and the counts it mirrors from the queue. */
module Monitor {

  /** Nanoseconds on the monotonic clock. */
  type Time = int

  const WINDOW: Time := 5 * 60 * 1_000_000_000

  /** The timestamps after the cutoff, in order. */
  ghost function After(s: seq<Time>, cutoff: Time): (r: seq<Time>) {
    if s == [] then []
    else
      var front := After(s[..|s| - 1], cutoff);
      if s[|s| - 1] > cutoff then front + [s[|s| - 1]] else front
  }

  ghost function Later(s: seq<Time>, cutoff: Time): (r: set<int>) {
    set i | 0 <= i < |s| && s[i] > cutoff
  }

  lemma {:induction false} AfterCounts(s: seq<Time>, cutoff: Time)
    ensures |After(s, cutoff)| == |Later(s, cutoff)|
  {
    if s != [] {
      var k := |s| - 1;
      AfterCounts(s[..k], cutoff);
      assert Later(s, cutoff) == Later(s[..k], cutoff) + if s[k] > cutoff then {k} else {};
    }
  }

  class Tracker {
    var errorsTotal: nat
    var recentErrors: seq<Time>
    var waitingFiles: int
    var failedFiles: int

    constructor ()
      ensures errorsTotal == 0 && recentErrors == [] && waitingFiles == 0 && failedFiles == 0
    {
      errorsTotal, recentErrors, waitingFiles, failedFiles := 0, [], 0, 0;
    }

    method RecordError(now: Time)
      modifies `errorsTotal, `recentErrors
      ensures errorsTotal == old(errorsTotal) + 1
      ensures recentErrors == old(recentErrors) + [now]
    {
      errorsTotal, recentErrors := errorsTotal + 1, recentErrors + [now];
    }

    method SetQueueCounts(waiting: int, failed: int)
      modifies `waitingFiles, `failedFiles
      ensures waitingFiles == waiting && failedFiles == failed
    {
      waitingFiles, failedFiles := waiting, failed;
    }

    method PruneErrors(cutoff: Time) returns (count: nat)
      modifies `recentErrors
      ensures recentErrors == After(old(recentErrors), cutoff) && count == |recentErrors|
    {
      var active: seq<Time> := [];
      var i := 0;
      while i < |recentErrors|
        invariant 0 <= i <= |recentErrors| && recentErrors == old(recentErrors)
        invariant active == After(recentErrors[..i], cutoff)
      {
        assert recentErrors[..i + 1][..i] == recentErrors[..i];
        if recentErrors[i] > cutoff {
          active := active + [recentErrors[i]];
        }
        i := i + 1;
      }
      assert recentErrors[..i] == recentErrors;
      recentErrors := active;
      count := |active|;
    }

    /** The part of Evaluate that counts errors. */
    method RecentErrorCount(now: Time) returns (count: nat)
      modifies `recentErrors
      ensures recentErrors == After(old(recentErrors), now - 300_000_000_000) && count == |recentErrors|
      ensures count == |Later(old(recentErrors), now - 300_000_000_000)|
    {
      AfterCounts(recentErrors, now - WINDOW);
      count := PruneErrors(now - WINDOW);
    }
  }

  // ---------- the pruned list against the whole history ----------

  datatype Event = Failure(at: Time) | Evaluation(at: Time)

  /** recentErrors after a sequence of calls. */
  ghost function Replay(events: seq<Event>): (s: seq<Time>) {
    if events == [] then []
    else
      var s := Replay(events[..|events| - 1]);
      match events[|events| - 1]
      case Failure(t) => s + [t]
      case Evaluation(t) => After(s, t - WINDOW)
  }

  /** Every error ever recorded. */
  ghost function History(events: seq<Event>): (s: seq<Time>) {
    if events == [] then []
    else
      var s := History(events[..|events| - 1]);
      if events[|events| - 1].Failure? then s + [events[|events| - 1].at] else s
  }

  /** No evaluation after an error that lies beyond the cutoff has pruned it. */
  ghost predicate NonePruned(events: seq<Event>, cutoff: Time) {
    forall i, j :: 0 <= i < j < |events| && events[i].Failure? && events[i].at > cutoff && events[j].Evaluation? ==>
      events[i].at > events[j].at - WINDOW
  }

  ghost predicate ClockNeverBack(events: seq<Event>) {
    forall i, j :: 0 <= i < j < |events| ==> events[i].at <= events[j].at
  }

  lemma {:induction false} AfterAfter(s: seq<Time>, c: Time, d: Time)
    ensures After(After(s, c), d) == After(s, if c <= d then d else c)
  {
    if s != [] {
      var f, t := After(s[..|s| - 1], c), s[|s| - 1];
      AfterAfter(s[..|s| - 1], c, d);
      if t > c {
        assert (f + [t])[..|f|] == f;
      }
    }
  }

  lemma AfterAppend(s: seq<Time>, t: Time, c: Time)
    ensures After(s + [t], c) == if t > c then After(s, c) + [t] else After(s, c)
  {
    assert (s + [t])[..|s|] == s;
  }

  /** A later cutoff keeps no more, and keeps as much exactly when nothing lies in between. */
  lemma {:induction false} LaterCutoff(s: seq<Time>, c: Time, d: Time)
    requires c <= d
    ensures |After(s, d)| <= |After(s, c)|
    ensures |After(s, d)| == |After(s, c)| <==> forall i :: 0 <= i < |s| && s[i] > c ==> s[i] > d
    ensures |After(s, d)| == |After(s, c)| ==> After(s, d) == After(s, c)
  {
    if s != [] {
      var front := s[..|s| - 1];
      LaterCutoff(front, c, d);
      assert forall i :: 0 <= i < |front| ==> front[i] == s[i];
      if forall i :: 0 <= i < |front| && front[i] > c ==> front[i] > d {
        if s[|s| - 1] > c ==> s[|s| - 1] > d {
          assert forall i :: 0 <= i < |s| && s[i] > c ==> s[i] > d;
        }
      }
    }
  }

  lemma {:induction false} HistoryHolds(events: seq<Event>, i: nat)
    requires i < |events| && events[i].Failure?
    ensures exists k :: 0 <= k < |History(events)| && History(events)[k] == events[i].at
  {
    var front := events[..|events| - 1];
    var h := History(front);
    if i < |front| {
      HistoryHolds(front, i);
      var k :| 0 <= k < |h| && h[k] == front[i].at;
      assert History(events)[k] == events[i].at;
    } else {
      assert History(events)[|h|] == events[i].at;
    }
  }

  lemma {:induction false} HistoryFrom(events: seq<Event>, k: nat)
    requires k < |History(events)|
    ensures exists i :: 0 <= i < |events| && events[i].Failure? && events[i].at == History(events)[k]
  {
    var front := events[..|events| - 1];
    if k < |History(front)| {
      HistoryFrom(front, k);
      var i :| 0 <= i < |front| && front[i].Failure? && front[i].at == History(front)[k];
      assert events[i] == front[i];
    } else {
      assert events[|events| - 1].at == History(events)[k];
    }
  }

  /** What one more event adds to the condition. */
  lemma {:induction false} NonePrunedStep(events: seq<Event>, c: Time)
    requires events != []
    ensures var front, e := events[..|events| - 1], events[|events| - 1];
            NonePruned(events, c) <==>
              && NonePruned(front, c)
              && (e.Evaluation? ==> forall k :: 0 <= k < |History(front)| && History(front)[k] > c ==>
                History(front)[k] > e.at - WINDOW)
  {
    var n := |events| - 1;
    var front, e := events[..n], events[n];
    var h := History(front);
    if NonePruned(events, c) && e.Evaluation? {
      forall k | 0 <= k < |h| && h[k] > c
        ensures h[k] > e.at - WINDOW
      {
        HistoryFrom(front, k);
        var i :| 0 <= i < |front| && front[i].Failure? && front[i].at == h[k];
        assert events[i] == front[i];
      }
    }
    if NonePruned(front, c) && (e.Evaluation? ==> forall k :: 0 <= k < |h| && h[k] > c ==> h[k] > e.at - WINDOW) {
      forall i, j | 0 <= i < j < |events| && events[i].Failure? && events[i].at > c && events[j].Evaluation?
        ensures events[i].at > events[j].at - WINDOW
      {
        assert front[i] == events[i];
        if j < n {
          assert front[j] == events[j];
        } else {
          HistoryHolds(front, i);
        }
      }
    }
  }

  /** One evaluation with cutoff d, seen through a later cutoff c. */
  lemma {:induction false} EvaluationStep(r: seq<Time>, h: seq<Time>, c: Time, d: Time)
    requires c < d && |After(r, c)| <= |After(h, c)|
    requires |After(r, c)| == |After(h, c)| ==> After(r, c) == After(h, c)
    ensures |After(r, d)| <= |After(h, c)|
    ensures |After(r, d)| == |After(h, c)| <==>
              |After(r, c)| == |After(h, c)| && forall k :: 0 <= k < |h| && h[k] > c ==> h[k] > d
    ensures |After(r, d)| == |After(h, c)| ==> After(r, d) == After(h, c)
  {
    LaterCutoff(r, c, d);
    LaterCutoff(h, c, d);
    AfterAfter(r, c, d);
    AfterAfter(h, c, d);
  }

  /** Pruning can only lose errors, and the pruned list agrees with the whole history at a cutoff if
      and only if no earlier evaluation pruned an error beyond it. */
  lemma {:induction false} WindowAgreesIff(events: seq<Event>, c: Time)
    ensures |After(Replay(events), c)| <= |After(History(events), c)|
    ensures |After(Replay(events), c)| == |After(History(events), c)| <==> NonePruned(events, c)
    ensures NonePruned(events, c) ==> After(Replay(events), c) == After(History(events), c)
  {
    if events != [] {
      var front := events[..|events| - 1];
      WindowAgreesIff(front, c);
      WindowStep(Replay(front), History(front), events, c);
    }
  }

  lemma {:induction false} WindowStep(r: seq<Time>, h: seq<Time>, events: seq<Event>, c: Time)
    requires events != [] && r == Replay(events[..|events| - 1]) && h == History(events[..|events| - 1])
    requires |After(r, c)| <= |After(h, c)|
    requires |After(r, c)| == |After(h, c)| <==> NonePruned(events[..|events| - 1], c)
    requires NonePruned(events[..|events| - 1], c) ==> After(r, c) == After(h, c)
    ensures |After(Replay(events), c)| <= |After(History(events), c)|
    ensures |After(Replay(events), c)| == |After(History(events), c)| <==> NonePruned(events, c)
    ensures NonePruned(events, c) ==> After(Replay(events), c) == After(History(events), c)
  {
    hide NonePruned, After;
    NonePrunedStep(events, c);
    match events[|events| - 1]
    case Failure(t) =>
      AfterAppend(r, t, c);
      AfterAppend(h, t, c);
    case Evaluation(t) =>
      AfterAfter(r, t - WINDOW, c);
      if c < t - WINDOW {
        EvaluationStep(r, h, c, t - WINDOW);
      } else {
        NotBeyond(h, c, t - WINDOW);
      }
  }

  lemma NotBeyond(h: seq<Time>, c: Time, d: Time)
    requires d <= c
    ensures forall k :: 0 <= k < |h| && h[k] > c ==> h[k] > d
  {
  }

  /** The answer of every evaluation is the number of all errors ever recorded in the last five
      minutes: under a clock that never runs back, earlier pruning changes no later answer. */
  lemma WindowAgreesWithHistory(events: seq<Event>, now: Time)
    requires ClockNeverBack(events + [Evaluation(now)])
    ensures Replay(events + [Evaluation(now)]) == After(History(events), now - 300_000_000_000)
    ensures |Replay(events + [Evaluation(now)])| == |Recent(events, now - 300_000_000_000)|
  {
    RecentCounts(events, now - WINDOW);
    hide NonePruned, ClockNeverBack, History, After, Recent;
    NothingPruned(events, now);
    WindowAgreesIff(events, now - WINDOW);
    assert (events + [Evaluation(now)])[..|events|] == events;
  }

  /** The errors recorded after a point in time, by their place among the events. */
  ghost function Recent(events: seq<Event>, since: Time): (r: set<int>) {
    set i | 0 <= i < |events| && events[i].Failure? && events[i].at > since
  }

  lemma {:induction false} RecentCounts(events: seq<Event>, since: Time)
    ensures |After(History(events), since)| == |Recent(events, since)|
  {
    if events != [] {
      var k := |events| - 1;
      var e := events[k];
      RecentCounts(events[..k], since);
      if e.Failure? { AfterAppend(History(events[..k]), e.at, since); }
      assert Recent(events, since) == Recent(events[..k], since) + if e.Failure? && e.at > since then {k} else {};
    }
  }

  lemma NothingPruned(events: seq<Event>, now: Time)
    requires ClockNeverBack(events + [Evaluation(now)])
    ensures NonePruned(events, now - WINDOW)
  {
    var all := events + [Evaluation(now)];
    assert forall i :: 0 <= i < |events| ==> events[i] == all[i] && events[i].at <= all[|events|].at;
  }
}
