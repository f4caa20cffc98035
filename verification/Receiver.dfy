/** The receiver's own code: staging files and the durability barrier. Which of its system calls fail is an
    input, and every call is logged, so that each outcome has its cause. */
module Receiver {
  import opened Bytes
  import opened Wire
  import opened Streams
  import opened Disks

  /** The incoming directory. next is the next unused inode number. */
  class Volume {
    var disk: Disk
    var next: Inode

    ghost predicate Valid()
      reads this
    {
      Sound(disk, next)
    }

    constructor (disk: Disk, next: Inode)
      ensures this.disk == disk && this.next == next
    {
      this.disk, this.next := disk, next;
    }
  }

  ghost predicate Sound(d: Disk, next: Inode) {
    && (forall i :: i in d.files ==> i < next)
    && (forall n :: n in d.durable ==> d.durable[n] in d.files)
    && (forall n :: n in d.names ==> d.names[n] in d.files)
  }

  /** The calls whose outcome matters. Look is the look at the stop channel, which fails when the server
      is being closed. */
  datatype Op = Look | MakeDir | Draw | Create | Sync | Close | Rename | OpenDir | SyncDir | Remove

  datatype Event = Event(op: Op, ok: bool)

  /** Sixteen random bytes. */
  type Random = s: seq<byte> | |s| == 16
    witness [0, 0, 0, 0, 0, 0, 0, 0, 0, 0, 0, 0, 0, 0, 0, 0]

  /** The operating system, for any behaviour: the k-th call fails where fails(k); if it draws random
      bytes they are random(k); and the file that is written after k calls has space for room(k) bytes. */
  class World {
    const fails: nat -> bool
    const random: nat -> Random
    const room: nat -> nat
    var log: seq<Event>

    ghost predicate Valid()
      reads this
    {
      forall k :: 0 <= k < |log| ==> log[k].ok == !fails(k)
    }

    constructor (fails: nat -> bool, random: nat -> Random, room: nat -> nat)
      ensures Valid() && log == []
      ensures this.fails == fails && this.random == random && this.room == room
    {
      this.fails, this.random, this.room, this.log := fails, random, room, [];
    }

    method Try(op: Op) returns (ok: bool)
      requires Valid()
      modifies this
      ensures Valid() && ok == !fails(|old(log)|) && log == old(log) + [Event(op, ok)]
    {
      ok := !fails(|log|);
      log := log + [Event(op, ok)];
    }
  }

  // ---------- stager.go ----------

  /** Removes the .tmp files under .staging and nothing else. stubborn are the files that cannot be removed
      or that the walk does not reach, which is ignored. Refinement.BootIsMachineStep relates the result
      to the machine. */
  method BootCleanup(vol: Volume, world: World, stubborn: set<Name>) returns (ok: bool, stuck: set<Name>)
    requires world.Valid()
    modifies vol`disk, world
    ensures world.Valid() && world.log == old(world.log) + [Event(MakeDir, ok)]
    ensures ok == !world.fails(|old(world.log)|)
    ensures !ok ==> vol.disk == old(vol.disk)
    ensures ok ==>
              && (forall f :: f in stuck <==> f in old(vol.disk).staging && IsTmp(f) && f in stubborn)
              && vol.disk == old(vol.disk).Cleaned(stuck)
              && (forall f :: f in vol.disk.staging <==>
                   f in old(vol.disk).staging && (f in stubborn || !EndsWith(f, [46, 116, 109, 112])))
              && (forall f :: f in vol.disk.staging ==> vol.disk.staging[f] == old(vol.disk).staging[f])
  {
    hide HasSuffix, EndsWith, World.Valid;
    stuck := {};
    ok := world.Try(MakeDir);
    if !ok { return; }
    ghost var before := vol.disk;
    var todo := vol.disk.staging.Keys;
    while todo != {}
      invariant world.Valid() && world.log == old(world.log) + [Event(MakeDir, ok)]
      invariant todo <= before.staging.Keys && todo !! stuck
      invariant forall f :: f in stuck <==> f in before.staging && f !in todo && IsTmp(f) && f in stubborn
      invariant vol.disk == before.(staging := vol.disk.staging)
      invariant forall f :: f in vol.disk.staging <==> f in before.staging && (f in todo || f in stuck || !IsTmp(f))
      invariant forall f :: f in vol.disk.staging ==> vol.disk.staging[f] == before.staging[f]
      decreases |todo|
    {
      var f :| f in todo;
      todo := todo - {f};
      if IsTmp(f) {
        if f in stubborn {
          stuck := stuck + {f};
        } else {
          vol.disk := vol.disk.Remove(f);
        }
      }
    }
    assert vol.disk.staging == before.Cleaned(stuck).staging;
    forall f ensures IsTmp(f) <==> EndsWith(f, [46, 116, 109, 112]) { Suffixes(f, TMP_SUFFIX); }
  }

  function HexDigit(d: int): (b: byte)
    requires 0 <= d < 16
    ensures b == "0123456789abcdef"[d] as int
  {
    if d < 10 then 48 + d else 87 + d
  }

  function Hex(s: seq<byte>): (h: seq<byte>)
    ensures |h| == 2 * |s|
  {
    if s == [] then [] else [HexDigit(s[0] / 16), HexDigit(s[0] % 16)] + Hex(s[1..])
  }

  /** Two digits a byte, the high one first. */
  lemma {:induction false} HexText(s: seq<byte>, i: nat)
    requires i < |s|
    ensures Hex(s)[2 * i] == HexDigit(s[i] / 16) && Hex(s)[2 * i + 1] == HexDigit(s[i] % 16)
  {
    if i > 0 {
      HexText(s[1..], i - 1);
      assert Hex(s)[2 * i] == Hex(s[1..])[2 * i - 2] && Hex(s)[2 * i + 1] == Hex(s[1..])[2 * i - 1];
    }
  }

  lemma HexHead(s: seq<byte>)
    requires s != []
    ensures |Hex(s)| >= 2 && Hex(s)[0] == HexDigit(s[0] / 16) && Hex(s)[1] == HexDigit(s[0] % 16)
    ensures Hex(s)[2..] == Hex(s[1..])
  {
  }

  /** Different random bytes make different file names. */
  lemma {:induction false} HexInjective(s: seq<byte>, t: seq<byte>)
    requires Hex(s) == Hex(t)
    ensures s == t
  {
    if s != [] && t != [] {
      HexHead(s);
      HexHead(t);
      hide Hex;
      HexInjective(s[1..], t[1..]);
      assert s[0] == t[0];
      assert s == [s[0]] + s[1..] && t == [t[0]] + t[1..];
    }
  }

  /** NameTaken: the exclusive open found the file. */
  datatype StageError = DirFailed | RandFailed | OpenFailed | NameTaken

  /** The calls of CreateStagedFile. */
  ghost function StageCalls(err: Option<StageError>): (es: seq<Event>) {
    match err
    case Some(DirFailed) => [Event(MakeDir, false)]
    case Some(RandFailed) => [Event(MakeDir, true), Event(Draw, false)]
    case Some(OpenFailed) => [Event(MakeDir, true), Event(Draw, true), Event(Create, false)]
    case _ => [Event(MakeDir, true), Event(Draw, true), Event(Create, true)]
  }

  /** An exclusive create, for any outcomes of its calls: the name is made of the random bytes drawn, it is
      new and ends in .tmp, and so is never a valid final name. */
  method CreateStagedFile(vol: Volume, world: World) returns (err: Option<StageError>, tmp: Name, ino: Inode)
    requires vol.Valid() && world.Valid()
    modifies vol, world
    ensures vol.Valid() && world.Valid()
    ensures world.log == old(world.log) + StageCalls(err)
    ensures var k := |old(world.log)|;
            && (err == Some(DirFailed) <==> world.fails(k))
            && (err == Some(RandFailed) <==> !world.fails(k) && world.fails(k + 1))
            && (err == Some(OpenFailed) <==> !world.fails(k) && !world.fails(k + 1) && world.fails(k + 2))
            && (err == Some(NameTaken) <==>
                  && !world.fails(k) && !world.fails(k + 1) && !world.fails(k + 2)
                  && Hex(world.random(k + 1)) + [46, 116, 109, 112] in old(vol.disk).staging)
            && (err.None? ==> tmp == Hex(world.random(k + 1)) + [46, 116, 109, 112])
    ensures err.Some? ==> vol.disk == old(vol.disk)
    ensures err.None? ==>
              && IsTmp(tmp) && !ValidName(tmp)
              && tmp !in old(vol.disk).staging && ino !in old(vol.disk).files && ino in vol.disk.files
              && vol.disk == old(vol.disk).Create(tmp, ino)
  {
    hide Hex;
    tmp, ino := [], 0;
    var ok := world.Try(MakeDir);
    if !ok { return Some(DirFailed), tmp, ino; }
    var random := world.random(|world.log|);
    ok := world.Try(Draw);
    if !ok { return Some(RandFailed), tmp, ino; }
    tmp := Hex(random) + TMP_SUFFIX;
    ok := world.Try(Create);
    if !ok { return Some(OpenFailed), tmp, ino; }
    if tmp in vol.disk.staging { return Some(NameTaken), tmp, ino; }
    err, ino := None, vol.next;
    assert tmp[|tmp| - 4..] == TMP_SUFFIX;
    vol.disk, vol.next := vol.disk.Create(tmp, ino), vol.next + 1;
  }

  // ---------- committer.go ----------

  datatype CommitError = SyncFailed | CloseFailed | RenameFailed | DirOpenFailed | DirSyncFailed | AckFailed

  /** os.Remove of a staging file, whose failure is ignored. */
  method RemoveStaged(vol: Volume, world: World, tmp: Name) returns (removed: bool)
    requires world.Valid()
    modifies vol`disk, world
    ensures world.Valid()
    ensures removed == !world.fails(|old(world.log)|) && world.log == old(world.log) + [Event(Remove, removed)]
    ensures vol.disk == if removed then old(vol.disk).Remove(tmp) else old(vol.disk)
  {
    removed := world.Try(Remove);
    if removed { vol.disk := vol.disk.Remove(tmp); }
  }

  predicate BeforeRename(err: Option<CommitError>) {
    err.Some? && (err.value.SyncFailed? || err.value.CloseFailed? || err.value.RenameFailed?)
  }

  /** The directory was synced: the request is committed, whether or not the ACK could be written. */
  predicate Committed(err: Option<CommitError>) {
    err.None? || err.value.AckFailed?
  }

  /** The directory after the barrier. */
  ghost function Barrier(d: Disk, tmp: Name, ino: Inode, name: Name): (e: Disk) {
    d.FileSync(ino).Rename(tmp, ino, name).DirSync()
  }

  /** The directory after the barrier, however it ends. */
  ghost function BarrierEffect(d: Disk, tmp: Name, ino: Inode, name: Name, err: Option<CommitError>,
      removed: bool): (e: Disk) {
    match err
    case Some(SyncFailed) => if removed then d.Remove(tmp) else d
    case Some(CloseFailed) => if removed then d.FileSync(ino).Remove(tmp) else d.FileSync(ino)
    case Some(RenameFailed) => if removed then d.FileSync(ino).Remove(tmp) else d.FileSync(ino)
    case Some(DirOpenFailed) => d.FileSync(ino).Rename(tmp, ino, name)
    case Some(DirSyncFailed) => d.FileSync(ino).Rename(tmp, ino, name)
    case _ => Barrier(d, tmp, ino, name)
  }

  /** The calls of the barrier. The results of closing after a failure and of closing the directory are
      ignored, and not logged. */
  ghost function BarrierCalls(err: Option<CommitError>, removed: bool): (es: seq<Event>) {
    match err
    case Some(SyncFailed) => [Event(Sync, false), Event(Remove, removed)]
    case Some(CloseFailed) => [Event(Sync, true), Event(Close, false), Event(Remove, removed)]
    case Some(RenameFailed) => [Event(Sync, true), Event(Close, true), Event(Rename, false), Event(Remove, removed)]
    case Some(DirOpenFailed) => [Event(Sync, true), Event(Close, true), Event(Rename, true), Event(OpenDir, false)]
    case Some(DirSyncFailed) =>
      [Event(Sync, true), Event(Close, true), Event(Rename, true), Event(OpenDir, true), Event(SyncDir, false)]
    case _ => [Event(Sync, true), Event(Close, true), Event(Rename, true), Event(OpenDir, true), Event(SyncDir, true)]
  }

  /** The first of the calls from the k-th on that fails, or else that the ACK could not be written. */
  ghost function FirstFailure(fails: nat -> bool, k: nat, takesAck: bool): (err: Option<CommitError>) {
    if fails(k) then Some(SyncFailed)
    else if fails(k + 1) then Some(CloseFailed)
    else if fails(k + 2) then Some(RenameFailed)
    else if fails(k + 3) then Some(DirOpenFailed)
    else if fails(k + 4) then Some(DirSyncFailed)
    else if !takesAck then Some(AckFailed) else None
  }

  /** The log after the barrier, call by call. */
  ghost function BarrierLog(log: seq<Event>, err: Option<CommitError>, removed: bool): (es: seq<Event>) {
    match err
    case Some(SyncFailed) => log + [Event(Sync, false)] + [Event(Remove, removed)]
    case Some(CloseFailed) => log + [Event(Sync, true)] + [Event(Close, false)] + [Event(Remove, removed)]
    case Some(RenameFailed) =>
      log + [Event(Sync, true)] + [Event(Close, true)] + [Event(Rename, false)] + [Event(Remove, removed)]
    case Some(DirOpenFailed) =>
      log + [Event(Sync, true)] + [Event(Close, true)] + [Event(Rename, true)] + [Event(OpenDir, false)]
    case Some(DirSyncFailed) =>
      log + [Event(Sync, true)] + [Event(Close, true)] + [Event(Rename, true)] + [Event(OpenDir, true)]
        + [Event(SyncDir, false)]
    case _ =>
      log + [Event(Sync, true)] + [Event(Close, true)] + [Event(Rename, true)] + [Event(OpenDir, true)]
        + [Event(SyncDir, true)]
  }

  lemma Appended(s: seq<Event>, a: Event, b: Event, c: Event, d: Event, e: Event)
    ensures s + [a] + [b] == s + [a, b]
    ensures s + [a] + [b] + [c] == s + [a, b, c]
    ensures s + [a] + [b] + [c] + [d] == s + [a, b, c, d]
    ensures s + [a] + [b] + [c] + [d] + [e] == s + [a, b, c, d, e]
  {
  }

  lemma BarrierLogIs(log: seq<Event>, err: Option<CommitError>, removed: bool)
    ensures BarrierLog(log, err, removed) == log + BarrierCalls(err, removed)
  {
    var sync, close, rename, open := Event(Sync, true), Event(Close, true), Event(Rename, true), Event(OpenDir, true);
    var remove := Event(Remove, removed);
    match err
    case Some(SyncFailed) => Appended(log, Event(Sync, false), remove, remove, remove, remove);
    case Some(CloseFailed) => Appended(log, sync, Event(Close, false), remove, remove, remove);
    case Some(RenameFailed) => Appended(log, sync, close, Event(Rename, false), remove, remove);
    case Some(DirOpenFailed) => Appended(log, sync, close, rename, Event(OpenDir, false), remove);
    case Some(DirSyncFailed) => Appended(log, sync, close, rename, open, Event(SyncDir, false));
    case _ => Appended(log, sync, close, rename, open, Event(SyncDir, true));
  }

  lemma Outcome(world: World, before: seq<Event>, es: seq<Event>, i: nat)
    requires world.Valid() && world.log == before + es && i < |es|
    ensures world.fails(|before| + i) == !es[i].ok
  {
    assert world.log[|before| + i] == es[i];
  }

  lemma BarrierCauses(world: World, log: seq<Event>, err: Option<CommitError>, removed: bool, takesAck: bool)
    requires world.Valid() && world.log == BarrierLog(log, err, removed)
    requires err.None? ==> takesAck
    requires err == Some(AckFailed) ==> !takesAck
    ensures world.log == log + BarrierCalls(err, removed)
    ensures err == FirstFailure(world.fails, |log|, takesAck)
  {
    BarrierLogIs(log, err, removed);
    hide World.Valid, BarrierLog;
    var es := BarrierCalls(err, removed);
    Outcome(world, log, es, 0);
    if err != Some(SyncFailed) {
      Outcome(world, log, es, 1);
      if err != Some(CloseFailed) {
        Outcome(world, log, es, 2);
        if err != Some(RenameFailed) {
          Outcome(world, log, es, 3);
          if err != Some(DirOpenFailed) { Outcome(world, log, es, 4); }
        }
      }
    }
  }

  lemma BarrierSound(d: Disk, next: Inode, tmp: Name, ino: Inode, name: Name, err: Option<CommitError>, removed: bool)
    requires Sound(d, next) && ino in d.files
    ensures Sound(BarrierEffect(d, tmp, ino, name, err, removed), next)
  {
  }

  lemma BarrierFacts(d: Disk, tmp: Name, ino: Inode, name: Name, err: Option<CommitError>, removed: bool)
    requires ino in d.files
    ensures var e := BarrierEffect(d, tmp, ino, name, err, removed);
            && e.files.Keys == d.files.Keys && e.Data(ino) == d.Data(ino)
            && (forall i :: i in e.files && i != ino ==> e.files[i] == d.files[i])
            && e.staging == (if BeforeRename(err) && !removed then d.staging else d.staging - {tmp})
            && (BeforeRename(err) ==> e.names == d.names && e.durable == d.durable && e.pending == d.pending)
            && (!BeforeRename(err) ==> e.names == d.names[name := ino] && e.files[ino].synced)
            && (!BeforeRename(err) && !Committed(err) ==> e.durable == d.durable && (name, ino) in e.pending)
            && (Committed(err) ==> e.durable == e.names && e.pending == {})
  {
  }

  /** How the barrier ends, in calls and in the directory. */
  lemma BarrierEnds(world: World, log: seq<Event>, d: Disk, next: Inode, tmp: Name, ino: Inode, name: Name,
      err: Option<CommitError>, removed: bool, takesAck: bool)
    requires world.Valid() && world.log == BarrierLog(log, err, removed)
    requires err.None? ==> takesAck
    requires err == Some(AckFailed) ==> !takesAck
    requires Sound(d, next) && ino in d.files
    ensures world.log == log + BarrierCalls(err, removed)
    ensures err == FirstFailure(world.fails, |log|, takesAck)
    ensures var e := BarrierEffect(d, tmp, ino, name, err, removed);
            && Sound(e, next)
            && e.files.Keys == d.files.Keys && e.Data(ino) == d.Data(ino)
            && (forall i :: i in e.files && i != ino ==> e.files[i] == d.files[i])
            && e.staging == (if BeforeRename(err) && !removed then d.staging else d.staging - {tmp})
            && (BeforeRename(err) ==> e.names == d.names && e.durable == d.durable && e.pending == d.pending)
            && (!BeforeRename(err) ==> e.names == d.names[name := ino] && e.files[ino].synced)
            && (!BeforeRename(err) && !Committed(err) ==> e.durable == d.durable && (name, ino) in e.pending)
            && (Committed(err) ==> e.durable == e.names && e.pending == {})
  {
    BarrierCauses(world, log, err, removed, takesAck);
    BarrierSound(d, next, tmp, ino, name, err, removed);
    BarrierFacts(d, tmp, ino, name, err, removed);
    hide BarrierEffect, BarrierCalls, FirstFailure, Sound;
  }

  /** The steps of the barrier up to the rename. */
  method PlaceStaged(vol: Volume, world: World, tmp: Name, ino: Inode, name: Name)
    returns (err: Option<CommitError>, removed: bool)
    requires world.Valid()
    modifies vol`disk, world
    ensures world.Valid() && (err.None? || BeforeRename(err))
    ensures err.Some? ==>
              && world.log == BarrierLog(old(world.log), err, removed)
              && vol.disk == BarrierEffect(old(vol.disk), tmp, ino, name, err, removed)
    ensures err.None? ==>
              && world.log == old(world.log) + [Event(Sync, true)] + [Event(Close, true)] + [Event(Rename, true)]
              && vol.disk == old(vol.disk).FileSync(ino).Rename(tmp, ino, name)
  {
    hide World.Valid, Disk.FileSync, Disk.Rename, Disk.Remove;
    removed := true;
    var ok := world.Try(Sync);
    if !ok {
      removed := RemoveStaged(vol, world, tmp);
      return Some(SyncFailed), removed;
    }
    vol.disk := vol.disk.FileSync(ino);
    ok := world.Try(Close);
    if !ok {
      removed := RemoveStaged(vol, world, tmp);
      return Some(CloseFailed), removed;
    }
    ok := world.Try(Rename);
    if !ok {
      removed := RemoveStaged(vol, world, tmp);
      return Some(RenameFailed), removed;
    }
    vol.disk := vol.disk.Rename(tmp, ino, name);
    err := None;
  }

  /** The durability barrier. ACK is written only once contents and name are on stable storage; an
      error before the rename leaves every final name as it was; an error after it does not undo the
      rename, so a rejection does not mean that the file was not committed. */
  method CommitBarrier(vol: Volume, world: World, out: Sink, tmp: Name, ino: Inode, name: Name)
    returns (err: Option<CommitError>, removed: bool)
    requires vol.Valid() && world.Valid() && out.Valid() && ino in vol.disk.files
    modifies vol`disk, world, out
    ensures vol.Valid() && world.Valid() && out.Valid()
    ensures world.log == old(world.log) + BarrierCalls(err, removed)
    ensures err == FirstFailure(world.fails, |old(world.log)|, old(out.Takes(1)))
    ensures vol.disk == BarrierEffect(old(vol.disk), tmp, ino, name, err, removed)
    ensures vol.disk.files.Keys == old(vol.disk).files.Keys && vol.disk.Data(ino) == old(vol.disk).Data(ino)
    ensures forall i :: i in vol.disk.files && i != ino ==> vol.disk.files[i] == old(vol.disk).files[i]
    ensures vol.disk.staging == if BeforeRename(err) && !removed then old(vol.disk).staging
        else old(vol.disk).staging - {tmp}
    ensures BeforeRename(err) ==>
              vol.disk.names == old(vol.disk).names && vol.disk.durable == old(vol.disk).durable
                && vol.disk.pending == old(vol.disk).pending
    ensures !BeforeRename(err) ==>
              vol.disk.names == old(vol.disk).names[name := ino] && vol.disk.files[ino].synced
    ensures !BeforeRename(err) && !Committed(err) ==>
              vol.disk.durable == old(vol.disk).durable && (name, ino) in vol.disk.pending
    ensures Committed(err) ==>
              && vol.disk.durable == vol.disk.names && vol.disk.pending == {}
    ensures err.None? ==> out.written == old(out.written) + [0x00] && !out.broken && !old(out.broken)
    ensures err == Some(AckFailed) ==> out.broken && out.written == old(out.written)
    ensures !Committed(err) ==> out.written == old(out.written) && out.broken == old(out.broken)
  {
    hide FirstFailure, BarrierCalls, EncodeAck, World.Valid, Sound, Disk.FileSync, Disk.Rename, Disk.Remove,
      Disk.DirSync, Disk.Data;
    ghost var log, d := world.log, vol.disk;
    err, removed := PlaceStaged(vol, world, tmp, ino, name);
    if err.None? {
      var ok := world.Try(OpenDir);
      if !ok {
        err := Some(DirOpenFailed);
      } else {
        ok := world.Try(SyncDir);
        if !ok {
          err := Some(DirSyncFailed);
        } else {
          vol.disk := vol.disk.DirSync();
          assert EncodeAck() == [0x00] by { ResponseLayout([]); }
          var e := out.Write(EncodeAck());
          err := if e.Some? then Some(AckFailed) else None;
        }
      }
    }
    BarrierEnds(world, log, d, vol.next, tmp, ino, name, err, removed, old(out.Takes(1)));
  }
}
