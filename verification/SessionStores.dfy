/** The stores keyed by project and session: the chat associations, which may be read
    from the backup, and the queues, which are execution input and may not. */
module SessionStores {
  import opened Base
  import opened Persist

  datatype Record<P> = Record(projectId: string, sessionId: string, payload: P)

  predicate Matches<P>(record: Record<P>, projectId: string, sessionId: string) {
    record.projectId == projectId && record.sessionId == sessionId
  }

  /** The records of all other sessions, in order. */
  function Without<P>(records: seq<Record<P>>, projectId: string, sessionId: string): seq<Record<P>> {
    if records == [] then []
    else
      var last := records[|records| - 1];
      Without(records[..|records| - 1], projectId, sessionId)
      + (if Matches(last, projectId, sessionId) then [] else [last])
  }

  lemma {:induction false} WithoutKeepsTheOthers<P>(records: seq<Record<P>>, projectId: string, sessionId: string)
    ensures forall r <- Without(records, projectId, sessionId) :: r in records && !Matches(r, projectId, sessionId)
    ensures forall r <- records | !Matches(r, projectId, sessionId) :: r in Without(records, projectId, sessionId)
  {
    if records != [] {
      WithoutKeepsTheOthers(records[..|records| - 1], projectId, sessionId);
      assert records == records[..|records| - 1] + [records[|records| - 1]];
    }
  }

  /** The first record of the session. */
  function Find<P>(records: seq<Record<P>>, projectId: string, sessionId: string): Option<P> {
    if records == [] then None
    else if Matches(records[0], projectId, sessionId) then Some(records[0].payload)
    else Find(records[1..], projectId, sessionId)
  }

  /** Replaces the session's first record, or appends one. */
  function Upsert<P>(records: seq<Record<P>>, record: Record<P>): seq<Record<P>> {
    if records == [] then [record]
    else if Matches(records[0], record.projectId, record.sessionId) then [record] + records[1..]
    else [records[0]] + Upsert(records[1..], record)
  }

  /** What is saved for one session is what is found for it, and no other session's
      record changes. */
  lemma {:induction false} UpsertThenFind<P>(records: seq<Record<P>>, record: Record<P>, projectId: string, sessionId: string)
    ensures Find(Upsert(records, record), projectId, sessionId) ==
            if projectId == record.projectId && sessionId == record.sessionId then Some(record.payload)
            else Find(records, projectId, sessionId)
  {
    if records == [] {
    } else if Matches(records[0], record.projectId, record.sessionId) {
      assert ([record] + records[1..])[1..] == records[1..];
    } else {
      UpsertThenFind(records[1..], record, projectId, sessionId);
      assert Upsert(records, record)[1..] == Upsert(records[1..], record);
    }
  }

  /** All other records stay as they are, in their order. */
  lemma {:induction false} UpsertKeepsTheOthers<P>(records: seq<Record<P>>, record: Record<P>)
    ensures Without(Upsert(records, record), record.projectId, record.sessionId)
            == Without(records, record.projectId, record.sessionId)
  {
    var p, s := record.projectId, record.sessionId;
    if records == [] {
      assert [record][..0] == [];
    } else {
      var rest := records[1..];
      assert records == [records[0]] + rest;
      WithoutInParts([records[0]], rest, p, s);
      if Matches(records[0], p, s) {
        WithoutInParts([record], rest, p, s);
        assert [record][..0] == [] && [records[0]][..0] == [];
      } else {
        UpsertKeepsTheOthers(rest, record);
        WithoutInParts([records[0]], Upsert(rest, record), p, s);
      }
    }
  }

  lemma {:induction false} WithoutInParts<P>(first: seq<Record<P>>, second: seq<Record<P>>, projectId: string, sessionId: string)
    ensures Without(first + second, projectId, sessionId)
            == Without(first, projectId, sessionId) + Without(second, projectId, sessionId)
  {
    if second == [] {
      assert first + second == first;
    } else {
      var n := |second| - 1;
      assert (first + second)[..|first + second| - 1] == first + second[..n];
      WithoutInParts(first, second[..n], projectId, sessionId);
    }
  }

  lemma {:induction false} WithoutThenFind<P>(records: seq<Record<P>>, projectId: string, sessionId: string)
    ensures Find(Without(records, projectId, sessionId), projectId, sessionId) == None
  {
    WithoutKeepsTheOthers(records, projectId, sessionId);
    NothingFound(Without(records, projectId, sessionId), projectId, sessionId);
  }

  lemma {:induction false} NothingFound<P>(records: seq<Record<P>>, projectId: string, sessionId: string)
    requires forall r :: r in records ==> !Matches(r, projectId, sessionId)
    ensures Find(records, projectId, sessionId) == None
  {
    if records != [] {
      assert records[0] in records;
      NothingFound(records[1..], projectId, sessionId);
    }
  }

  method Filter<P>(records: seq<Record<P>>, projectId: string, sessionId: string) returns (kept: seq<Record<P>>)
    ensures kept == Without(records, projectId, sessionId)
  {
    kept := [];
    for i := 0 to |records|
      invariant kept == Without(records[..i], projectId, sessionId)
    {
      assert records[..i + 1][..i] == records[..i];
      if !Matches(records[i], projectId, sessionId) {
        kept := kept + [records[i]];
      }
    }
    assert records[..|records|] == records;
  }

  method Replace<P>(records: seq<Record<P>>, record: Record<P>) returns (next: seq<Record<P>>)
    ensures next == Upsert(records, record)
  {
    for i := 0 to |records|
      invariant Upsert(records, record) == records[..i] + Upsert(records[i..], record)
    {
      assert records[i..] == [records[i]] + records[i + 1..];
      if Matches(records[i], record.projectId, record.sessionId) {
        return records[..i] + [record] + records[i + 1..];
      }
    }
    return records + [record];
  }

  method Lookup<P>(records: seq<Record<P>>, projectId: string, sessionId: string) returns (found: Option<P>)
    ensures found == Find(records, projectId, sessionId)
  {
    for i := 0 to |records|
      invariant Find(records, projectId, sessionId) == Find(records[i..], projectId, sessionId)
    {
      assert records[i..][1..] == records[i + 1..];
      if Matches(records[i], projectId, sessionId) {
        return Some(records[i].payload);
      }
    }
    return None;
  }

  /** Neither generation of the file can bring the session's record back. */
  ghost predicate Scrubbed<P(!new)>(d: Disk, codec: Codec<seq<Record<P>>>, projectId: string, sessionId: string) {
    forall file :: file in {d.primary, d.backup} && codec.DecodeFile(file).Some? ==>
      forall r :: r in codec.DecodeFile(file).value ==> !Matches(r, projectId, sessionId)
  }

  class SessionFile<P(!new)> {
    const file: Directory<seq<Record<P>>>
    const primaryOnly: bool

    constructor (file: Directory<seq<Record<P>>>, primaryOnly: bool)
      ensures this.file == file && this.primaryOnly == primaryOnly
    {
      this.file, this.primaryOnly := file, primaryOnly;
    }

    ghost function Stored(): ReadResult<seq<Record<P>>>
      reads this, file
    {
      if primaryOnly then LoadPrimary(file.disk, file.codec) else ReadOf(file.disk, file.codec)
    }

    /** The stored records; none when nothing was ever stored; no answer when what is
        stored cannot be trusted. */
    method Load() returns (records: Option<seq<Record<P>>>)
      ensures records == match Stored() case Found(value) => Some(value) case NotFound => Some([]) case Failed => None
    {
      if primaryOnly {
        if file.disk.primary.Missing? {
          return if file.disk.backup.Missing? then Some([]) else None;
        }
        return file.codec.DecodeFile(file.disk.primary);
      }
      var result := file.Read();
      match result {
        case Found(value) => return Some(value);
        case NotFound => return Some([]);
        case Failed => return None;
      }
    }

    method Get(projectId: string, sessionId: string) returns (result: ReadResult<P>)
      ensures match Stored()
              case Failed => result == Failed
              case NotFound => result == NotFound
              case Found(records) =>
                result == match Find(records, projectId, sessionId) case Some(p) => Found(p) case None => NotFound
    {
      var records := Load();
      if records.None? {
        return Failed;
      }
      var found := Lookup(records.value, projectId, sessionId);
      return match found case Some(p) => Found(p) case None => NotFound;
    }

    /** Stores the session's record. On success it is what a read finds and all other
        sessions are as before; on an error a read finds the old or the new records. */
    method Save(record: Record<P>, fault: nat) returns (ok: bool)
      requires file.codec.RoundTrips()
      modifies file`disk
      ensures ok ==>
              && old(Stored()) != Failed
              && Stored() == Found(Upsert(old(Records()), record))
      ensures Stored() == old(Stored()) || Stored() == Found(Upsert(old(Records()), record))
      ensures old(Stored()) != Failed && file.codec.Accepts(Upsert(old(Records()), record)) && fault > 3 ==> ok
    {
      var records := Load();
      if records.None? {
        return false;
      }
      var next := Replace(records.value, record);
      ghost var before := file.disk;
      ghost var passed;
      ok, passed := file.Write(next, fault);
      CrashLeavesOldOrNew(before, file.codec, next, |passed| - 1);
    }

    ghost function Records(): seq<Record<P>>
      reads this, file
    {
      if Stored().Found? then Stored().value else []
    }

    /** Removes the session by two writes of the same remainder. When it succeeds no
        generation can restore the record; at every point a crash could come, a read
        finds the old records or the remainder. */
    method Forget(projectId: string, sessionId: string, fault1: nat, fault2: nat) returns (ok: bool, ghost passed: seq<Disk>)
      requires file.codec.RoundTrips()
      modifies file`disk
      ensures ok ==>
              && old(Stored()) != Failed
              && Scrubbed(file.disk, file.codec, projectId, sessionId)
              && Stored() == Found(Without(old(Records()), projectId, sessionId))
      ensures old(Stored()) != Failed && file.codec.Accepts(Without(old(Records()), projectId, sessionId)) && fault1 > 3 && fault2 > 3 ==> ok
      ensures passed != [] && passed[|passed| - 1] == file.disk
      ensures forall d :: d in passed ==>
              || ReadOf(d, file.codec) == old(ReadOf(file.disk, file.codec))
              || ReadOf(d, file.codec) == Found(Without(old(Records()), projectId, sessionId))
    {
      passed := [file.disk];
      var records := Load();
      if records.None? {
        return false, passed;
      }
      var remainder := Filter(records.value, projectId, sessionId);
      WithoutKeepsTheOthers(records.value, projectId, sessionId);
      ghost var before := file.disk;
      var first, second;
      ghost var passed1, passed2;
      first, passed1 := file.Write(remainder, fault1);
      if !first {
        return false, passed1;
      }
      second, passed2 := file.Write(remainder, fault2);
      passed := passed1 + passed2;
      if !second {
        return false, passed;
      }
      DoubleWriteFillsBothGenerations(before, file.codec, remainder);
      return true, passed;
    }
  }
}
