/** The two-generation store: a primary file and the `.bak` copy of the value before
    it, replaced one at a time by atomic renames. */
module Persist {
  import opened Base

  const MAX_JSON_BYTES := 16 * 1024 * 1024

  type Raw = seq<nat>

  /** A file as a read finds it. `Unreadable` stands for anything that is not a regular
      file within the size limit. */
  datatype File = Missing | Unreadable | Present(raw: Raw)

  datatype Disk = Disk(primary: File, backup: File)

  /** How values become bytes. Decoding includes the store's validation. */
  datatype Codec<!T(!new)> = Codec(encode: T -> Raw, decode: Raw -> Option<T>) {

    /** Decoding what was encoded gives the value back, unless validation refuses it. */
    ghost predicate RoundTrips() {
      forall v: T :: decode(encode(v)) == Some(v) || decode(encode(v)) == None
    }

    predicate Accepts(v: T) {
      |encode(v)| <= MAX_JSON_BYTES && decode(encode(v)).Some?
    }

    function DecodeFile(file: File): Option<T> {
      if file.Present? then decode(file.raw) else None
    }
  }

  // ------------------------------------------------------------------
  // Reading
  // ------------------------------------------------------------------

  datatype ReadResult<+T> = Found(value: T) | NotFound | Failed

  /** A reader takes the first generation that decodes; it reports nothing stored only
      when neither file exists. */
  function ReadOf<T(!new)>(d: Disk, codec: Codec<T>): ReadResult<T> {
    if codec.DecodeFile(d.primary).Some? then Found(codec.DecodeFile(d.primary).value)
    else if codec.DecodeFile(d.backup).Some? then Found(codec.DecodeFile(d.backup).value)
    else if d.primary.Missing? && d.backup.Missing? then NotFound
    else Failed
  }

  /** Stores that are execution input read the primary alone and refuse to start from
      a lone backup. */
  function LoadPrimary<T(!new)>(d: Disk, codec: Codec<T>): ReadResult<T> {
    if codec.DecodeFile(d.primary).Some? then Found(codec.DecodeFile(d.primary).value)
    else if d.primary.Missing? && d.backup.Missing? then NotFound
    else Failed
  }

  /** A value is read from a file that holds its bytes, and nothing stored is reported
      only when both files are missing: a file that is there and cannot be read is a
      failure, and so is a lone backup where the primary alone counts. */
  lemma WhatIsRead<T(!new)>(d: Disk, codec: Codec<T>)
    ensures var first := if d.primary.Present? then codec.decode(d.primary.raw) else None;
            var second := if d.backup.Present? then codec.decode(d.backup.raw) else None;
            var nothing := d.primary == Missing && d.backup == Missing;
            && LoadPrimary(d, codec) ==
                 (match first case Some(value) => Found(value) case None => if nothing then NotFound else Failed)
            && ReadOf(d, codec) ==
                 (match first
                  case Some(value) => Found(value)
                  case None =>
                    match second case Some(value) => Found(value) case None => if nothing then NotFound else Failed)
  {
  }

  // ------------------------------------------------------------------
  // Writing
  // ------------------------------------------------------------------

  /** The disks a write goes through, one per file step. A value that is too large or
      invalid changes nothing; a primary that still decodes becomes the backup first. */
  function WriteStates<T(!new)>(d: Disk, codec: Codec<T>, value: T): (states: seq<Disk>)
    ensures states != [] && states[0] == d
  {
    if !codec.Accepts(value) then [d]
    else
      var kept := if codec.DecodeFile(d.primary).Some? then [d, d.(backup := d.primary)] else [d];
      kept + [kept[|kept| - 1].(primary := Present(codec.encode(value)))]
  }

  /** A crash or an error after any file step leaves a reader with the value it had
      before, or with the new one. */
  lemma CrashLeavesOldOrNew<T(!new)>(d: Disk, codec: Codec<T>, value: T, i: nat)
    requires codec.RoundTrips() && i < |WriteStates(d, codec, value)|
    ensures var after := WriteStates(d, codec, value)[i];
            && (ReadOf(after, codec) == ReadOf(d, codec) || ReadOf(after, codec) == Found(value))
            && (LoadPrimary(after, codec) == LoadPrimary(d, codec) || LoadPrimary(after, codec) == Found(value))
  {
    assert codec.decode(codec.encode(value)) == Some(value) || codec.decode(codec.encode(value)) == None;
  }

  class Directory<T(!new)> {
    var disk: Disk
    const codec: Codec<T>

    constructor (codec: Codec<T>, disk: Disk)
      ensures this.codec == codec && this.disk == disk
    {
      this.codec, this.disk := codec, disk;
    }

    /** Tries the primary, then the backup. */
    method Read() returns (result: ReadResult<T>)
      ensures result == ReadOf(disk, codec)
    {
      var paths := [disk.primary, disk.backup];
      var failures := 0;
      for i := 0 to |paths|
        invariant forall k :: 0 <= k < i ==> codec.DecodeFile(paths[k]).None?
        invariant failures == 0 <==> forall k :: 0 <= k < i ==> paths[k].Missing?
      {
        match paths[i] {
          case Missing =>
          case Unreadable => failures := failures + 1;
          case Present(raw) =>
            var value := codec.decode(raw);
            if value.Some? {
              assert i == 1 ==> codec.DecodeFile(paths[0]).None?;
              return Found(value.value);
            }
            failures := failures + 1;
        }
      }
      assert codec.DecodeFile(paths[0]).None? && codec.DecodeFile(paths[1]).None?;
      return if failures == 0 then NotFound else Failed;
    }

    /** Writes the value. `fault` is the file step at which the environment fails:
        0 before any, 1 replacing the backup, 2 replacing the primary, 3 syncing the
        directory, more for none. The ghost result lists the disks passed through. */
    method Write(value: T, fault: nat) returns (ok: bool, ghost passed: seq<Disk>)
      requires codec.RoundTrips()
      modifies this`disk
      ensures passed != [] && passed <= WriteStates(old(disk), codec, value)
      ensures disk == passed[|passed| - 1]
      ensures ok ==> passed == WriteStates(old(disk), codec, value)
      ensures ok <==> codec.Accepts(value) && (fault > 3 || (fault == 1 && codec.DecodeFile(old(disk).primary).None?))
      ensures ok ==> ReadOf(disk, codec) == LoadPrimary(disk, codec) == Found(value)
      ensures forall d :: d in passed ==> ReadOf(d, codec) == ReadOf(old(disk), codec) || ReadOf(d, codec) == Found(value)
    {
      ghost var states := WriteStates(disk, codec, value);
      forall i | 0 <= i < |states|
        ensures ReadOf(states[i], codec) == ReadOf(disk, codec) || ReadOf(states[i], codec) == Found(value)
      {
        CrashLeavesOldOrNew(disk, codec, value, i);
      }
      ok, passed := false, [disk];
      var serialized := codec.encode(value);
      if |serialized| > MAX_JSON_BYTES || codec.decode(serialized).None? || fault == 0 {
        return;
      }
      if disk.primary.Present? && codec.decode(disk.primary.raw).Some? {
        if fault == 1 {
          return;
        }
        disk := disk.(backup := disk.primary);
        passed := passed + [disk];
      }
      if fault == 2 {
        return;
      }
      disk := disk.(primary := Present(serialized));
      passed := passed + [disk];
      ok := fault != 3;
    }
  }

  /** What a reader's value before and after a write says about it. */
  ghost function OutcomeOf<T(!new)>(before: ReadResult<T>, after: ReadResult<T>, ok: bool): Outcome {
    if ok then Saved else if after == before then FailedBefore else FailedAfter
  }

  /** Why callers may treat a write as one of three outcomes, whether they read the
      primary alone or fall back to the backup. */
  lemma WriteHasThreeOutcomes<T(!new)>(d: Disk, codec: Codec<T>, value: T, i: nat, ok: bool)
    requires codec.RoundTrips() && i < |WriteStates(d, codec, value)|
    requires ok ==> codec.Accepts(value) && i == |WriteStates(d, codec, value)| - 1
    ensures var before, after := LoadPrimary(d, codec), LoadPrimary(WriteStates(d, codec, value)[i], codec);
            after == Landed(before, Found(value), OutcomeOf(before, after, ok))
    ensures var before, after := ReadOf(d, codec), ReadOf(WriteStates(d, codec, value)[i], codec);
            after == Landed(before, Found(value), OutcomeOf(before, after, ok))
  {
    CrashLeavesOldOrNew(d, codec, value, i);
  }

  /** Two writes of the same value leave it in both generations, so that nothing older
      can be read back. */
  lemma DoubleWriteFillsBothGenerations<T(!new)>(d: Disk, codec: Codec<T>, value: T)
    requires codec.RoundTrips() && codec.Accepts(value)
    ensures var first := WriteStates(d, codec, value);
            var second := WriteStates(first[|first| - 1], codec, value);
            var after := second[|second| - 1];
            && after.primary == after.backup == Present(codec.encode(value))
            && codec.DecodeFile(after.primary) == codec.DecodeFile(after.backup) == Some(value)
  {
    assert codec.decode(codec.encode(value)) == Some(value);
  }
}
