/** The receiver's directory with two layers: what the running system sees and what is on
    stable storage. Files are inodes; a name in the directory is a link to one. */
module Disks {
  import opened Bytes
  import opened Wire

  type Inode = nat

  datatype File = File(data: seq<byte>, synced: bool)

  /** pending holds every rename since the last directory sync: after a crash each of them
      may or may not have reached stable storage. */
  datatype Disk = Disk(
    files: map<Inode, File>,
    staging: map<Name, Inode>,
    names: map<Name, Inode>,
    durable: map<Name, Inode>,
    pending: set<(Name, Inode)>)
  {
    /** The bytes of an inode; none if it was never created. */
    function Data(ino: Inode): (s: seq<byte>) {
      if ino in files then files[ino].data else []
    }

    function Create(tmp: Name, ino: Inode): (d: Disk) {
      this.(files := files[ino := File([], false)], staging := staging[tmp := ino])
    }

    function Append(ino: Inode, chunk: seq<byte>): (d: Disk) {
      this.(files := files[ino := File(Data(ino) + chunk, false)])
    }

    function FileSync(ino: Inode): (d: Disk) {
      this.(files := files[ino := File(Data(ino), true)])
    }

    function Rename(tmp: Name, ino: Inode, name: Name): (d: Disk) {
      this.(staging := staging - {tmp}, names := names[name := ino], pending := pending + {(name, ino)})
    }

    function Remove(tmp: Name): (d: Disk) {
      this.(staging := staging - {tmp})
    }

    function DirSync(): (d: Disk) {
      this.(durable := names, pending := {})
    }

    /** Without the .tmp files in staging, but for those that could not be removed. */
    function Cleaned(stuck: set<Name>): (d: Disk) {
      this.(staging := staging - (TmpNames(staging) - stuck))
    }

    /** What the directory may look like after the machine stops: synced contents survive, others
        are arbitrary; of the renames since the last directory sync any selection survives. */
    ghost predicate CrashesTo(after: Disk) {
      && after.files.Keys == files.Keys
      && (forall i :: i in files && files[i].synced ==> after.files[i] == files[i])
      && after.names == after.durable
      && after.pending == {}
      && durable.Keys <= after.durable.Keys
      && forall n :: n in after.durable ==>
           || (n in durable && durable[n] == after.durable[n])
           || (n, after.durable[n]) in pending
    }
  }

  predicate IsTmp(name: Name) {
    HasSuffix(name, TMP_SUFFIX)
  }

  function TmpNames(staging: map<Name, Inode>): (s: set<Name>) {
    set t | t in staging && IsTmp(t)
  }
}
