/** The outbox scanner: a file is handed to the queue once two consecutive scans agree on it. */
module Scanners {
  import opened Bytes
  import opened Wire
  import opened Monitor
  import opened Queues

  datatype Info = Info(size: nat, modTime: Time)

  /** A directory entry; info is None when it cannot be read any more. */
  datatype Entry = Entry(name: Name, isDir: bool, info: Option<Info>)

  datatype ScanState = ScanState(info: Info, scans: nat, queued: bool)

  type States = map<Name, ScanState>

  type Listing = map<Name, Info>

  /** A file, not hidden, with a valid name, whose information can be read. */
  predicate Visible(e: Entry) {
    !e.isDir && !([46] <= e.name) && ValidName(e.name) && e.info.Some?
  }

  ghost predicate UniqueNames(entries: seq<Entry>) {
    forall i, j :: 0 <= i < j < |entries| ==> entries[i].name != entries[j].name
  }

  /** What a scan takes notice of. */
  function Listed(entries: seq<Entry>): (l: Listing) {
    if entries == [] then map[]
    else
      var l, e := Listed(entries[..|entries| - 1]), entries[|entries| - 1];
      if Visible(e) then l[e.name := e.info.value] else l
  }

  /** Exactly the files that are not hidden, have a valid name and can be read are listed, as they are. */
  lemma {:induction false} ListedIff(entries: seq<Entry>, n: Name, info: Info)
    requires UniqueNames(entries)
    ensures n in Listed(entries) && Listed(entries)[n] == info <==>
              && n != [] && n[0] != 46 && ValidName(n)
              && exists i :: 0 <= i < |entries| && entries[i] == Entry(n, false, Some(info))
  {
    hide ValidName;
    if entries != [] {
      var k := |entries| - 1;
      var front, last := entries[..k], entries[k];
      ListedIff(front, n, info);
      NonEmptyName(n);
      if n in Listed(front) && last.name == n {
        ListedNames(front, n);
      }
      if i :| 0 <= i < k && front[i] == Entry(n, false, Some(info)) {
        assert entries[i] == Entry(n, false, Some(info));
      }
    }
  }

  lemma NonEmptyName(n: Name)
    ensures ValidName(n) ==> n != []
  {
    ValidNames(n);
  }

  /** The tracking state of a listed file after the scan. */
  function Seen(states: States, n: Name, info: Info): (s: ScanState) {
    if n !in states then ScanState(info, 1, false)
    else if states[n].info == info then
      ScanState(info, states[n].scans + 1, states[n].queued || states[n].scans + 1 >= 2)
    else ScanState(info, 1, states[n].queued)
  }

  /** Whether the scan hands the file to the queue. */
  predicate Stable(states: States, n: Name, info: Info) {
    n in states && states[n].info == info && states[n].scans + 1 >= 2 && !states[n].queued
  }

  function Scanned(states: States, l: Listing): (t: States) {
    map n | n in l :: Seen(states, n, l[n])
  }

  /** The items handed over: the stable files of the listing as they are listed, each once, oldest first. */
  ghost predicate HandedOver(states: States, l: Listing, stable: seq<FileItem>) {
    && Collected(states, l, stable)
    && (forall i, j :: 0 <= i < j < |stable| ==> l[stable[i].name].modTime <= l[stable[j].name].modTime)
  }

  /** The stable files of a listing, in any order. */
  ghost predicate Collected(states: States, l: Listing, stable: seq<FileItem>) {
    && (forall f :: f in stable ==>
          && f.name in l && Stable(states, f.name, l[f.name])
          && f.size == l[f.name].size && f.modTime == l[f.name].modTime)
    && (forall n :: n in l && Stable(states, n, l[n]) ==> FileItem(n, l[n].size, l[n].modTime) in stable)
    && Distinct(stable)
  }

  class Scanner {
    var states: States

    constructor ()
      ensures states == map[]
    {
      states := map[];
    }

    /** One scan. entries is None when the directory cannot be read; then nothing happens. */
    method ScanOnce(entries: Option<seq<Entry>>) returns (stable: seq<FileItem>)
      requires entries.Some? ==> UniqueNames(entries.value)
      modifies this
      ensures entries.None? ==> states == old(states) && stable == []
      ensures entries.Some? ==>
                && states == Scanned(old(states), Listed(entries.value))
                && HandedOver(old(states), Listed(entries.value), stable)
                && forall f :: f in stable ==> Entry(f.name, false, Some(Info(f.size, f.modTime))) in entries.value
    {
      hide ValidName, Collected, HandedOver;
      stable := [];
      if entries.None? {
        return;
      }
      var es := entries.value;
      var current: set<Name> := {};
      ghost var before := states;
      assert Collected(before, map[], []) by { NothingCollected(before); }
      var i := 0;
      while i < |es|
        invariant 0 <= i <= |es|
        invariant current == Listed(es[..i]).Keys
        invariant Merged(before, Listed(es[..i]), states)
        invariant Collected(before, Listed(es[..i]), stable)
      {
        var e := es[i];
        NewName(es, i);
        assert es[..i + 1][..i] == es[..i];
        if Visible(e) {
          var name, info := e.name, e.info.value;
          current := current + {name};
          ghost var was := states;
          MergedMore(before, Listed(es[..i]), was, name, info);
          if name !in states {
            states := states[name := ScanState(info, 1, false)];
          } else if states[name].info == info {
            var scans, queued := states[name].scans + 1, states[name].queued;
            if scans >= 2 && !queued {
              queued := true;
              stable := stable + [FileItem(name, info.size, info.modTime)];
            }
            states := states[name := ScanState(info, scans, queued)];
          } else {
            states := states[name := ScanState(info, 1, states[name].queued)];
          }
          assert states == was[name := Seen(was, name, info)];
          CollectedMore(before, Listed(es[..i]), name, info, stable);
        }
        i := i + 1;
      }
      assert es[..i] == es;
      var gone := states.Keys - current;
      MergedAll(before, Listed(es), states);
      states := states - gone;
      ghost var collected := stable;
      stable := SortByModTime(stable);
      HandOver(before, Listed(es), collected, stable);
      FromEntries(before, es, stable);
    }

    method MarkCompleted(filename: Name)
      modifies this
      ensures states == old(states) - {filename}
    {
      states := states - {filename};
    }
  }

  /** The states in the middle of a scan: updated for what was listed so far. */
  ghost predicate Merged(before: States, l: Listing, states: States) {
    && (forall n :: n in l ==> n in states && states[n] == Seen(before, n, l[n]))
    && (forall n :: n !in l ==> (n in states <==> n in before) && (n in before ==> states[n] == before[n]))
  }

  lemma MergedMore(before: States, l: Listing, states: States, n: Name, info: Info)
    requires Merged(before, l, states) && n !in l
    ensures Merged(before, l[n := info], states[n := Seen(states, n, info)])
    ensures Stable(before, n, info) <==> Stable(states, n, info)
  {
  }

  lemma MergedAll(before: States, l: Listing, states: States)
    requires Merged(before, l, states)
    ensures states - (states.Keys - l.Keys) == Scanned(before, l)
  {
  }

  lemma NothingCollected(states: States)
    ensures Collected(states, map[], [])
  {
  }

  lemma {:induction false} ListedNames(entries: seq<Entry>, n: Name)
    requires n in Listed(entries)
    ensures exists i :: 0 <= i < |entries| && entries[i].name == n
  {
    hide ValidName;
    var k := |entries| - 1;
    if n != entries[k].name {
      ListedNames(entries[..k], n);
      var i :| 0 <= i < k && entries[..k][i].name == n;
      assert entries[i].name == n;
    }
  }

  lemma NewName(entries: seq<Entry>, i: nat)
    requires UniqueNames(entries) && i < |entries|
    ensures entries[i].name !in Listed(entries[..i])
  {
    if entries[i].name in Listed(entries[..i]) {
      ListedNames(entries[..i], entries[i].name);
    }
  }

  lemma CollectedMore(states: States, l: Listing, n: Name, info: Info, stable: seq<FileItem>)
    requires n !in l
    requires if Stable(states, n, info) then |stable| > 0
        && stable[|stable| - 1] == FileItem(n, info.size, info.modTime)
        && Collected(states, l, stable[..|stable| - 1])
             else Collected(states, l, stable)
    ensures Collected(states, l[n := info], stable)
  {
    if Stable(states, n, info) {
      var front := stable[..|stable| - 1];
      assert stable == front + [FileItem(n, info.size, info.modTime)];
      forall i, j | 0 <= i < j < |stable|
        ensures stable[i].name != stable[j].name
      {
        assert stable[i] in front;
      }
    }
  }

  /** Sorting keeps the names distinct. */
  lemma DistinctSorted(s: seq<FileItem>, t: seq<FileItem>)
    requires multiset(s) == multiset(t) && Distinct(s)
    ensures Distinct(t)
  {
    forall i, j | 0 <= i < j < |t|
      ensures t[i].name != t[j].name
    {
      assert t[i] in multiset(t) && t[j] in multiset(t);
      assert t[i] in s && t[j] in s;
      if t[i].name == t[j].name {
        TwoPlaces(t, i, j);
        PlacedOnce(s, t[i]);
      }
    }
  }

  lemma HandOver(states: States, l: Listing, collected: seq<FileItem>, stable: seq<FileItem>)
    requires Collected(states, l, collected) && Resorted(collected, stable)
    ensures HandedOver(states, l, stable)
  {
    forall x ensures x in collected <==> x in stable { assert x in collected <==> x in multiset(collected); }
    DistinctSorted(collected, stable);
  }

  lemma FromEntries(states: States, entries: seq<Entry>, stable: seq<FileItem>)
    requires UniqueNames(entries) && HandedOver(states, Listed(entries), stable)
    ensures forall f :: f in stable ==> Entry(f.name, false, Some(Info(f.size, f.modTime))) in entries
  {
    hide ValidName, Listed;
    forall f | f in stable
      ensures Entry(f.name, false, Some(Info(f.size, f.modTime))) in entries
    {
      ListedIff(entries, f.name, Listed(entries)[f.name]);
    }
  }

  // ---------- every sequence of scans and completions ----------

  datatype Event = Scan(l: Listing) | Unreadable | Complete(n: Name)

  ghost function StatesAfter(events: seq<Event>): (s: States) {
    if events == [] then map[]
    else
      var s := StatesAfter(events[..|events| - 1]);
      match events[|events| - 1]
      case Scan(l) => Scanned(s, l)
      case Unreadable => s
      case Complete(n) => s - {n}
  }

  /** The listing of the last successful scan. */
  ghost function LastListing(events: seq<Event>): (l: Listing) {
    if events == [] then map[]
    else if events[|events| - 1].Scan? then events[|events| - 1].l
    else LastListing(events[..|events| - 1])
  }

  /** What is tracked was listed by the last scan with the same size and time; a file that is not
      queued has been seen exactly once. */
  lemma {:induction false} TrackedAsListed(events: seq<Event>, n: Name)
    requires n in StatesAfter(events)
    ensures n in LastListing(events) && StatesAfter(events)[n].info == LastListing(events)[n]
    ensures StatesAfter(events)[n].scans >= 1
    ensures !StatesAfter(events)[n].queued ==> StatesAfter(events)[n].scans == 1
  {
    var front := events[..|events| - 1];
    if n in StatesAfter(front) {
      TrackedAsListed(front, n);
    }
  }

  /** Two-scan stability: a file is handed to the queue exactly when it is tracked, not yet queued,
      and the immediately preceding successful scan listed it with the same size and time. */
  lemma {:induction false} TwoScanStability(events: seq<Event>, l: Listing, n: Name)
    requires n in l
    ensures Stable(StatesAfter(events), n, l[n]) <==>
              && n in StatesAfter(events) && !StatesAfter(events)[n].queued
              && n in LastListing(events) && LastListing(events)[n] == l[n]
  {
    if n in StatesAfter(events) {
      TrackedAsListed(events, n);
    }
  }

  /** n was completed, or a scan did not list it. */
  ghost predicate Released(e: Event, n: Name) {
    e == Complete(n) || (e.Scan? && n !in e.l)
  }

  lemma {:induction false} LatchHolds(events: seq<Event>, i: nat, n: Name)
    requires i <= |events| && n in StatesAfter(events[..i]) && StatesAfter(events[..i])[n].queued
    requires forall k :: i <= k < |events| ==> !Released(events[k], n)
    ensures n in StatesAfter(events) && StatesAfter(events)[n].queued
    decreases |events|
  {
    if i == |events| {
      assert events[..i] == events;
    } else {
      var front := events[..|events| - 1];
      assert front[..i] == events[..i];
      LatchHolds(front, i, n);
    }
  }

  ghost predicate HandsOver(events: seq<Event>, i: nat, n: Name)
    requires i < |events|
  {
    events[i].Scan? && n in events[i].l && Stable(StatesAfter(events[..i]), n, events[i].l[n])
  }

  /** The last scan listed the file with this size and time, and it was not completed since. */
  ghost predicate ListedLast(events: seq<Event>, n: Name, info: Info) {
    exists j :: 0 <= j < |events| && ListedAt(events, j, n, info)
  }

  ghost predicate ListedAt(events: seq<Event>, j: nat, n: Name, info: Info)
    requires j < |events|
  {
    && events[j].Scan? && n in events[j].l && events[j].l[n] == info
    && forall k :: j < k < |events| ==> !events[k].Scan? && events[k] != Complete(n)
  }

  /** The file was handed over and not released since. */
  ghost predicate HandedOverSince(events: seq<Event>, n: Name) {
    exists h :: 0 <= h < |events| && HandsOver(events, h, n) && forall k :: h < k < |events| ==> !Released(events[k], n)
  }

  lemma {:induction false} TrackedIff(events: seq<Event>, n: Name, info: Info)
    ensures n in StatesAfter(events) && StatesAfter(events)[n].info == info <==> ListedLast(events, n, info)
  {
    if events != [] {
      var k := |events| - 1;
      var front, last := events[..k], events[k];
      TrackedIff(front, n, info);
      if last.Scan? {
        assert n in last.l && last.l[n] == info <==> ListedAt(events, k, n, info);
      } else if j :| 0 <= j < k && ListedAt(front, j, n, info) && last != Complete(n) {
        assert ListedAt(events, j, n, info);
      }
      if j :| 0 <= j < |events| && ListedAt(events, j, n, info) && !last.Scan? {
        assert ListedAt(front, j, n, info);
      }
    }
  }

  lemma HandsOverBefore(events: seq<Event>, m: nat, i: nat, n: Name)
    requires i < m <= |events|
    ensures HandsOver(events[..m], i, n) == HandsOver(events, i, n)
  {
    assert events[..m][..i] == events[..i];
  }

  lemma SinceStep(events: seq<Event>, n: Name)
    requires events != []
    ensures var k := |events| - 1;
            HandedOverSince(events, n) <==>
              HandsOver(events, k, n) || (HandedOverSince(events[..k], n) && !Released(events[k], n))
  {
    var k := |events| - 1;
    var front := events[..k];
    forall h | 0 <= h < k ensures HandsOver(front, h, n) == HandsOver(events, h, n) {
      HandsOverBefore(events, k, h, n);
    }
    hide HandsOver, Released;
    if HandedOverSince(events, n) {
      var h :| 0 <= h < |events| && HandsOver(events, h, n) && forall m :: h < m < |events| ==> !Released(events[m], n);
      if h < k { assert HandsOver(front, h, n); }
    }
    SinceMore(events, n);
  }

  lemma SinceMore(events: seq<Event>, n: Name)
    requires events != []
    requires var k := |events| - 1; forall h :: 0 <= h < k ==> HandsOver(events[..k], h, n) == HandsOver(events, h, n)
    ensures var k := |events| - 1;
            HandsOver(events, k, n) || (HandedOverSince(events[..k], n) && !Released(events[k], n))
            ==> HandedOverSince(events, n)
  {
    hide HandsOver, Released;
    var k := |events| - 1;
    if HandedOverSince(events[..k], n) && !Released(events[k], n) {
      var h :| 0 <= h < k && HandsOver(events[..k], h, n) && forall m :: h < m < k ==> !Released(events[..k][m], n);
      assert HandsOver(events, h, n);
      assert forall m :: h < m < k ==> events[..k][m] == events[m];
    }
  }

  /** The latch is set by a hand-over, and by nothing else, until the file is released. */
  lemma {:induction false} LatchIff(events: seq<Event>, n: Name)
    ensures n in StatesAfter(events) && StatesAfter(events)[n].queued <==> HandedOverSince(events, n)
  {
    if events != [] {
      var front := events[..|events| - 1];
      LatchIff(front, n);
      SinceStep(events, n);
      if n in StatesAfter(front) { TrackedAsListed(front, n); }
      hide HandedOverSince;
    }
  }

  /** Exactly when a scan hands a file over, told by the events alone: the last scan before it listed the
      file with the same size and time, it was not completed since, and no earlier hand-over still holds. */
  lemma HandOverIff(events: seq<Event>, i: nat, n: Name)
    requires i < |events|
    ensures HandsOver(events, i, n) <==>
              && events[i].Scan? && n in events[i].l
              && ListedLast(events[..i], n, events[i].l[n])
              && !HandedOverSince(events[..i], n)
  {
    if events[i].Scan? && n in events[i].l {
      TrackedIff(events[..i], n, events[i].l[n]);
      LatchIff(events[..i], n);
      TwoScanStability(events[..i], events[i].l, n);
      if n in StatesAfter(events[..i]) { TrackedAsListed(events[..i], n); }
    }
  }

  /** A file that has been handed over, modified since or not, is not handed over again until it was
      completed or missing from a scan. */
  lemma HandedOverOnce(events: seq<Event>, i: nat, j: nat, n: Name)
    requires i < j < |events| && HandsOver(events, i, n) && HandsOver(events, j, n)
    ensures exists k :: i < k < j && Released(events[k], n)
  {
    if forall k :: i < k < j ==> !Released(events[k], n) {
      var run := events[..j];
      assert run[..i + 1][..i] == events[..i] && run[i] == events[i];
      LatchHolds(run, i + 1, n);
      assert false;
    }
  }
}
