/**
 The claims store: a map in memory, rewritten to one file after every change through a temporary file
 and a rename. Any file-system call may fail, and the process may die before or after any of them.
 That what was encoded decodes again is taken for granted; losing written data to a power cut is not
 modelled.
 */
module ClaimStore {
  import opened Wrappers

  type Names = map<string, bool>

  // What a file holds: a complete encoding of a map, or something that does not decode.
  datatype Content = Encoded(names: Names) | Garbled

  // How one file-system call ends. A crash may come before or after the call has taken effect.
  datatype Io = Works | Fails | CrashBefore | CrashAfter

  datatype SaveIo = SaveIo(create: Io, write: Io, close: Io, rename: Io, remove: Io)

  datatype SaveResult = Saved | Failed | Crashed

  function Open(file: Option<Content>): Result<Names, ()> {
    match file
    case None => Ok(map[])
    case Some(Encoded(names)) => Ok(names)
    case Some(Garbled) => Err(())
  }

  // ---------- One operation ----------

  datatype Op = Claim(name: string) | Release(name: string)

  predicate IsClaimed(names: Names, name: string) {
    name in names && names[name]
  }

  // Claiming a held name changes nothing and saves nothing; everything else saves.
  predicate Rejected(names: Names, op: Op) {
    op.Claim? && IsClaimed(names, op.name)
  }

  // The map in memory changes before the save, whatever becomes of the save.
  function Remember(names: Names, op: Op): Names {
    match op
    case Claim(n) => names[n := true]
    case Release(n) => names - {n}
  }

  function SaveOutcome(io: SaveIo): SaveResult {
    if io.create.CrashBefore? || io.create.CrashAfter? then Crashed
    else if io.create.Fails? then Failed
    else if io.write.CrashBefore? || io.write.CrashAfter? then Crashed
    else if io.write.Fails? then (if io.remove.CrashBefore? || io.remove.CrashAfter? then Crashed else Failed)
    else if io.close.CrashBefore? || io.close.CrashAfter? then Crashed
    else if io.close.Fails? then (if io.remove.CrashBefore? || io.remove.CrashAfter? then Crashed else Failed)
    else if io.rename.CrashBefore? || io.rename.CrashAfter? then Crashed
    else if io.rename.Fails? then Failed
    else Saved
  }

  // A save is reported as done exactly when all four calls worked, and as failed exactly when the
  // process survived it but one of them did not.
  lemma SaveOutcomeIff(io: SaveIo)
    ensures SaveOutcome(io) == Saved <==> io.create == Works && io.write == Works && io.close == Works && io.rename == Works
    ensures Died(io.create) || (io.create == Works && Died(io.write)) ==> SaveOutcome(io) == Crashed
    ensures io.create == io.write == Works && (Died(io.close) || (io.close == Works && Died(io.rename))) ==>
              SaveOutcome(io) == Crashed
    ensures !Died(io.create) && !Died(io.write) && !Died(io.close) && !Died(io.rename) && !Died(io.remove) ==>
              SaveOutcome(io) != Crashed
    ensures SaveOutcome(io) == Saved ==> Replaces(io)
  {
  }

  predicate Died(call: Io) { call == CrashBefore || call == CrashAfter }

  // The claims file itself changes only in the rename.
  predicate Replaces(io: SaveIo) {
    io.create.Works? && io.write.Works? && io.close.Works? && (io.rename.Works? || io.rename.CrashAfter?)
  }

  // ---------- The object ----------

  class Disk {
    var files: map<string, Content>

    constructor (files: map<string, Content>)
      ensures this.files == files
    {
      this.files := files;
    }
  }

  function FileAt(files: map<string, Content>, path: string): Option<Content> {
    if path in files then Some(files[path]) else None
  }

  class FileStore {
    const path: string
    const disk: Disk
    var names: Names

    constructor (path: string, disk: Disk, names: Names)
      ensures this.path == path && this.disk == disk && this.names == names
    {
      this.path, this.disk, this.names := path, disk, names;
    }

    // The temporary file has a name of its own. At no point does the claims file hold anything but
    // its old content or the whole new one; a failed rename leaves the temporary file behind.
    method Save(tmp: string, io: SaveIo) returns (r: SaveResult)
      requires tmp != path && tmp !in disk.files
      modifies disk
      ensures r == SaveOutcome(io)
      ensures FileAt(disk.files, path) == if Replaces(io) then Some(Encoded(names)) else old(FileAt(disk.files, path))
      ensures disk.files - {path, tmp} == old(disk.files) - {path, tmp}
      ensures r.Saved? ==> tmp !in disk.files
      ensures r.Failed? && io.create.Works? && io.write.Works? && io.close.Works? ==> tmp in disk.files
    {
      if io.create.CrashBefore? {
        return Crashed;
      }
      if io.create.Fails? {
        return Failed;
      }
      disk.files := disk.files[tmp := Garbled];
      if io.create.CrashAfter? {
        return Crashed;
      }
      if io.write.Works? || io.write.CrashAfter? {
        disk.files := disk.files[tmp := Encoded(names)];
      }
      if io.write.CrashBefore? || io.write.CrashAfter? {
        return Crashed;
      }
      if io.write.Fails? {
        r := Discard(tmp, io);
        return;
      }
      if io.close.CrashBefore? || io.close.CrashAfter? {
        return Crashed;
      }
      if io.close.Fails? {
        r := Discard(tmp, io);
        return;
      }
      if io.rename.CrashBefore? {
        return Crashed;
      }
      if io.rename.Fails? {
        return Failed;
      }
      disk.files := (disk.files - {tmp})[path := Encoded(names)];
      r := if io.rename.Works? then Saved else Crashed;
    }

    // Removing the temporary file; that it fails is ignored.
    method Discard(tmp: string, io: SaveIo) returns (r: SaveResult)
      modifies disk
      ensures r == if io.remove.CrashBefore? || io.remove.CrashAfter? then Crashed else Failed
      ensures disk.files == if io.remove.Works? || io.remove.CrashAfter? then old(disk.files) - {tmp} else old(disk.files)
    {
      if io.remove.Works? || io.remove.CrashAfter? {
        disk.files := disk.files - {tmp};
      }
      r := if io.remove.CrashBefore? || io.remove.CrashAfter? then Crashed else Failed;
    }

    ghost function Snapshot(): State
      reads this, disk
    {
      State(names, FileAt(disk.files, path), true)
    }

    // A missing file is an empty store; one that cannot be read or decoded is an error.
    static method OpenStore(path: string, disk: Disk, readable: bool) returns (r: Result<FileStore, ()>)
      ensures path !in disk.files ==> r.Ok? && r.value.names == map[]
      ensures path in disk.files ==> (r.Ok? <==> readable && disk.files[path].Encoded?)
      ensures path in disk.files && r.Ok? ==> r.value.names == disk.files[path].names
      ensures r.Ok? ==> fresh(r.value) && r.value.path == path && r.value.disk == disk && JustOpened(r.value.Snapshot())
    {
      var names: Names := map[];
      if path in disk.files {
        if !readable || disk.files[path].Garbled? {
          return Err(());
        }
        names := disk.files[path].names;
      }
      var store := new FileStore(path, disk, names);
      r := Ok(store);
    }

    // None stands for the error that the name is already held.
    method ClaimName(name: string, tmp: string, io: SaveIo) returns (r: Option<SaveResult>)
      requires tmp != path && tmp !in disk.files
      modifies this, disk
      ensures r == Answer(old(names), Claim(name), io)
      ensures State(names, FileAt(disk.files, path), r != Some(Crashed)) == Step(old(Snapshot()), Event(Claim(name), io))
      ensures r == None <==> old(IsClaimed(names, name))
      ensures r == None ==> names == old(names) && disk.files == old(disk.files)
      ensures r != None ==> names == old(names)[name := true] && r == Some(SaveOutcome(io))
    {
      if name in names && names[name] {
        return None;
      }
      names := names[name := true];
      var s := Save(tmp, io);
      r := Some(s);
    }

    method ReleaseName(name: string, tmp: string, io: SaveIo) returns (r: Option<SaveResult>)
      requires tmp != path && tmp !in disk.files
      modifies this, disk
      ensures r == Answer(old(names), Release(name), io)
      ensures State(names, FileAt(disk.files, path), r != Some(Crashed)) == Step(old(Snapshot()), Event(Release(name), io))
      ensures names == old(names) - {name} && r == Some(SaveOutcome(io))
    {
      names := names - {name};
      var s := Save(tmp, io);
      r := Some(s);
    }
  }

  // ---------- Runs of operations ----------

  datatype Event = Event(op: Op, io: SaveIo)

  datatype State = State(names: Names, file: Option<Content>, alive: bool)

  function Answer(names: Names, op: Op, io: SaveIo): Option<SaveResult> {
    if Rejected(names, op) then None else Some(SaveOutcome(io))
  }

  function Step(st: State, e: Event): State {
    if Rejected(st.names, e.op) then st
    else
      var names := Remember(st.names, e.op);
      State(names, if Replaces(e.io) then Some(Encoded(names)) else st.file, !SaveOutcome(e.io).Crashed?)
  }

  function After(st: State, events: seq<Event>): State {
    if events == [] then st else Step(After(st, events[..|events| - 1]), events[|events| - 1])
  }

  // The process ran on until the last operation, which may have been its end.
  predicate RanUntilLast(st: State, events: seq<Event>) {
    events == [] || (After(st, events[..|events| - 1]).alive && RanUntilLast(st, events[..|events| - 1]))
  }

  // The memory after a list of operations, as if there were no disk at all.
  function Memory(names: Names, events: seq<Event>): Names {
    if events == [] then names
    else Remember(Memory(names, events[..|events| - 1]), events[|events| - 1].op)
  }

  predicate Acknowledged(st: State, events: seq<Event>, i: nat)
    requires i < |events|
  {
    Answer(After(st, events[..i]).names, events[i].op, events[i].io) == Some(Saved)
  }

  // Operations up to and including the last one whose save was reported as done.
  function LastAcknowledged(st: State, events: seq<Event>): nat {
    if events == [] then 0
    else if Acknowledged(st, events, |events| - 1) then |events|
    else LastAcknowledged(st, events[..|events| - 1])
  }

  // Memory and file agree to begin with, as they do right after Open.
  ghost predicate JustOpened(st: State) {
    st.alive && Open(st.file) == Ok(st.names)
  }

  lemma {:induction false} MemoryIgnoresTheDisk(st: State, events: seq<Event>)
    ensures After(st, events).names == Memory(st.names, events)
  {
    if events != [] {
      var before := events[..|events| - 1];
      MemoryIgnoresTheDisk(st, before);
      var op, names := events[|events| - 1].op, Memory(st.names, before);
      assert Rejected(names, op) ==> names[op.name := true] == names;
    }
  }

  ghost predicate HoldsPrefix(st: State, events: seq<Event>, k: nat) {
    k <= |events| && Open(After(st, events).file) == Ok(Memory(st.names, events[..k]))
  }

  // Whatever fails and wherever the process dies, the claims file decodes to the memory as it stood
  // after some prefix of the operations, no shorter than up to the last acknowledged save.
  lemma {:induction false} CrashConsistency(st: State, events: seq<Event>) returns (k: nat)
    requires JustOpened(st) && RanUntilLast(st, events)
    ensures HoldsPrefix(st, events, k) && LastAcknowledged(st, events) <= k
  {
    if events == [] {
      k := 0;
    } else {
      var before, e := events[..|events| - 1], events[|events| - 1];
      var j := CrashConsistency(st, before);
      MemoryIgnoresTheDisk(st, events);
      if !Rejected(After(st, before).names, e.op) && Replaces(e.io) {
        k := |events|;
        assert events[..k] == events;
      } else {
        k := j;
        assert events[..k] == before[..k];
      }
    }
  }

  // After an acknowledged operation, opening the file again rebuilds exactly the memory, names left
  // over from earlier operations whose save had failed included.
  lemma AcknowledgedMeansDurable(st: State, events: seq<Event>)
    requires JustOpened(st) && events != [] && Acknowledged(st, events, |events| - 1)
    ensures After(st, events).file == Some(Encoded(After(st, events).names))
    ensures Open(After(st, events).file) == Ok(Memory(st.names, events))
  {
    MemoryIgnoresTheDisk(st, events);
  }

  // A claim reported as failed is held all the same: trying it again is rejected.
  lemma FailedClaimIsHeld(st: State, name: string, io: SaveIo, io2: SaveIo)
    requires st.alive && Answer(st.names, Claim(name), io) == Some(Failed)
    ensures var st' := Step(st, Event(Claim(name), io));
            && IsClaimed(st'.names, name) && st'.file == st.file
            && Answer(st'.names, Claim(name), io2) == None
  {
  }

  // The i-th operation asked for the name and none since then has released it.
  ghost predicate ClaimedAt(events: seq<Event>, i: nat, name: string) {
    && i < |events| && events[i].op == Claim(name)
    && forall j :: i < j < |events| ==> events[j].op != Release(name)
  }

  lemma {:induction false} HeldUntilReleased(names: Names, events: seq<Event>, i: nat, name: string)
    requires ClaimedAt(events, i, name)
    ensures IsClaimed(Memory(names, events), name)
  {
    if i < |events| - 1 {
      HeldUntilReleased(names, events[..|events| - 1], i, name);
    }
  }

  // However the claim itself ended, the name is in the file as soon as an operation on any name is
  // acknowledged, unless it has been released.
  lemma ClaimReachesTheFile(st: State, events: seq<Event>, i: nat, name: string)
    requires JustOpened(st) && ClaimedAt(events, i, name) && Acknowledged(st, events, |events| - 1)
    ensures var file := After(st, events).file; file.Some? && file.value.Encoded? && IsClaimed(file.value.names, name)
  {
    AcknowledgedMeansDurable(st, events);
    HeldUntilReleased(st.names, events, i, name);
  }

  // From an acknowledged claim on, whatever fails and wherever the process dies, opening the file
  // finds the name held, until it is released.
  lemma AcknowledgedClaimSurvives(st: State, events: seq<Event>, i: nat, name: string)
    requires JustOpened(st) && RanUntilLast(st, events) && ClaimedAt(events, i, name) && Acknowledged(st, events, i)
    ensures var names := Open(After(st, events).file); names.Ok? && IsClaimed(names.value, name)
  {
    var k := CrashConsistency(st, events);
    AcknowledgedIsCounted(st, events, i);
    assert events[..k][i] == events[i];
    HeldUntilReleased(st.names, events[..k], i, name);
  }

  lemma {:induction false} AcknowledgedIsCounted(st: State, events: seq<Event>, i: nat)
    requires i < |events| && Acknowledged(st, events, i)
    ensures i < LastAcknowledged(st, events) <= |events|
  {
    if !Acknowledged(st, events, |events| - 1) {
      assert events[..|events| - 1][..i] == events[..i];
      AcknowledgedIsCounted(st, events[..|events| - 1], i);
    }
  }

  // ---------- The store as a set ----------

  function Held(names: Names): set<string> {
    set n | n in names && names[n]
  }

  function HeldAfter(held: set<string>, events: seq<Event>): set<string> {
    if events == [] then held
    else
      match events[|events| - 1].op
      case Claim(n) => HeldAfter(held, events[..|events| - 1]) + {n}
      case Release(n) => HeldAfter(held, events[..|events| - 1]) - {n}
  }

  // The names held are those of a plain set under insertion and removal.
  lemma {:induction false} MemoryIsASet(names: Names, events: seq<Event>)
    ensures Held(Memory(names, events)) == HeldAfter(Held(names), events)
  {
    if events != [] {
      var before := events[..|events| - 1];
      MemoryIsASet(names, before);
      var m, op := Memory(names, before), events[|events| - 1].op;
      match op
      case Claim(n) => assert Held(m[n := true]) == Held(m) + {n};
      case Release(n) => assert Held(m - {n}) == Held(m) - {n};
    }
  }

  // A store opened without a file holds exactly what has been claimed and not released since.
  lemma FreshStoreIsASet(st: State, events: seq<Event>)
    requires JustOpened(st) && st.file == None
    ensures Held(After(st, events).names) == HeldAfter({}, events)
  {
    assert Held(map[]) == {};
    MemoryIgnoresTheDisk(st, events);
    MemoryIsASet(st.names, events);
  }

  // List returns every key of the map, IsClaimed looks at the value. They agree exactly when no key
  // maps to false; no operation writes such an entry, but a file read at start may hold some.
  predicate ListMatchesIsClaimed(names: Names) {
    forall n :: n in names ==> IsClaimed(names, n)
  }

  lemma ListAgreesIffNoFalse(names: Names)
    ensures names.Keys == Held(names) <==> ListMatchesIsClaimed(names)
  {
    forall n | n in names ensures n in Held(names) <==> IsClaimed(names, n) {
    }
    assert Held(names) <= names.Keys;
  }

  lemma {:induction false} FalseEntriesOnlyFromTheFile(names: Names, events: seq<Event>)
    ensures forall n :: n in Memory(names, events) && !Memory(names, events)[n] ==> n in names && !names[n]
    ensures ListMatchesIsClaimed(names) ==> ListMatchesIsClaimed(Memory(names, events))
  {
    if events != [] {
      FalseEntriesOnlyFromTheFile(names, events[..|events| - 1]);
    }
  }
}
