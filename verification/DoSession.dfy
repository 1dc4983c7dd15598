/** The class `DoSessionStorage`: a write-ahead log over a key-value store, and the
    state it keeps in memory. */
module DoSession {
  import opened Wrappers
  import opened SessionTypes
  import opened Trail
  import opened Keys
  import opened Store
  import opened StoreLoad
  import opened StorageOps
  import opened SessionStateClass
  import opened LoadOrder
  import opened CallEffects

  /** What a call leaves behind: refused, nothing changed; accepted, one record was
      written under the next key and the same mutation applied in memory. */
  ghost predicate Committed(op: Op, id: string, before: State, data: Data, after: State, dataAfter: Data,
                            error: Option<SessionError>)
  {
    match Prepare(before, op)
    case Err(e) => error == Some(e) && after == before && dataAfter == data
    case Ok(m) =>
      && error == None
      && Apply(before, m) == Ok(after)
      && dataAfter == data[KeyOf(id, before.sequence + 1) := MutationDoc(m)]
  }

  /** The store gained one record: the mutation, under the number after `s`'s. */
  ghost predicate Logged(id: string, s: State, data: Data, dataAfter: Data, m: Mutation) {
    dataAfter == data[KeyOf(id, s.sequence + 1) := MutationDoc(m)]
  }

  function ErrorOf<T>(r: Result<T, SessionError>): Option<SessionError> {
    if r.Err? then Some(r.error) else None
  }

  /** The state a load answers with. */
  function StateOf(r: Result<DoSessionStorage, SessionError>): Result<State, SessionError>
    reads if r.Ok? then {r.value.state} else {}
  {
    match r
    case Ok(storage) => Ok(storage.state.View())
    case Err(e) => Err(e)
  }

  ghost predicate SeqsMatchKeys(data: Data, id: string) {
    forall n: nat :: KeyOf(id, n) in data && data[KeyOf(id, n)].MutationDoc? ==>
      SeqOf(data[KeyOf(id, n)].mutation) == n
  }

  lemma NumberOfKey(data: Data, id: string, key: string) returns (n: nat)
    requires Canonical(data, id) && key in data && SessionPrefix(id) <= key
    requires IsLogKey(key[|SessionPrefix(id)|..])
    ensures key == KeyOf(id, n)
    ensures var rest := key[|SessionPrefix(id)|..]; AllDigits(LastSegment(rest)) && Number(LastSegment(rest)) == n
  {
    var rest := key[|SessionPrefix(id)|..];
    assert key == SessionPrefix(id) + rest;
    assert SessionPrefix(id) + "log/" <= key;
    n :| key == KeyOf(id, n);
    assert rest == LogKey(n);
    LogKeyRoundTrip(n);
  }

  lemma {:induction false} ReplayDocsStuck(data: Data, id: string, nums: seq<nat>, n: nat)
    requires InStore(nums, data, id) && n <= |nums| && ReplayDocs(data, id, nums[..n]).Err?
    ensures ReplayDocs(data, id, nums) == ReplayDocs(data, id, nums[..n])
    decreases |nums|
  {
    if n < |nums| {
      assert nums[..|nums| - 1][..n] == nums[..n];
      ReplayDocsStuck(data, id, nums[..|nums| - 1], n);
    } else {
      assert nums[..n] == nums;
    }
  }

  lemma ReplayDocsStep(data: Data, id: string, nums: seq<nat>, i: nat)
    requires InStore(nums, data, id) && i < |nums|
    ensures InStore(nums[..i], data, id) && InStore(nums[..i + 1], data, id)
    ensures ReplayDocs(data, id, nums[..i + 1]) ==
            match ReplayDocs(data, id, nums[..i])
            case Err(e) => Err(e)
            case Ok(t) =>
              match data[KeyOf(id, nums[i])]
              case MutationDoc(m) => Apply(t, m)
              case _ => Err(StorageFault)
  {
    assert nums[..i + 1][..i] == nums[..i];
  }

  /** A store whose log loads holds exactly a log that replays. */
  lemma LoadedHistory(data: Data, id: string, nums: seq<nat>) returns (ms: seq<Mutation>)
    requires HasMeta(data, id) && Canonical(data, id) && SeqsMatchKeys(data, id)
    requires AreNumbers(nums, data, id) && InStore(nums, data, id) && ReplayDocs(data, id, nums).Ok?
    ensures OnDisk(data, id, ms) && Replay(ms) == ReplayDocs(data, id, nums)
  {
    assert Numbered(data, id, nums);
    ms := ReplayDocsCounts(data, id, nums);
    NumbersOfUpTo(data, id, |nums|);
    forall n: nat | Readable(data, id, n) ensures data[KeyOf(id, n)] == MutationDoc(ms[n - 1]) {
      assert Holds(data, id, ms, n - 1);
    }
  }

  /** Writing metadata touches no log record. */
  lemma MetaKeepsLog(data: Data, metadata: Metadata)
    ensures var id := metadata.id;
            var after := data[MetaKey(id) := MetaDoc(metadata)];
            && HasMeta(after, id)
            && (Canonical(data, id) ==> Canonical(after, id))
            && (forall n: nat :: Readable(after, id, n) <==> Readable(data, id, n))
            && (forall n: nat :: KeyOf(id, n) in data ==> after[KeyOf(id, n)] == data[KeyOf(id, n)])
  {
    var id := metadata.id;
    forall n: nat ensures MetaKey(id) != KeyOf(id, n) {
      MetaIsNoLogKey(id, n);
    }
    assert MetaKey(id)[|SessionPrefix(id)|] == 'm';
    assert (SessionPrefix(id) + "log/")[|SessionPrefix(id)|] == 'l';
  }

  class DoSessionStorage {
    const kv: KvStore
    const metadata: Metadata
    const state: SessionState
    /** The mutations applied so far. */
    ghost var history: seq<Mutation>

    /** The state in memory is the replay of exactly the log the store holds. */
    ghost predicate Valid()
      reads this, kv, state
    {
      && state.Valid()
      && Replay(history) == Ok(state.View())
      && OnDisk(kv.data, metadata.id, history)
    }

    constructor (kv: KvStore, metadata: Metadata, state: SessionState, ghost history: seq<Mutation>)
      ensures this.kv == kv && this.metadata == metadata && this.state == state && this.history == history
    {
      this.kv, this.metadata, this.state, this.history := kv, metadata, state, history;
    }

    /** Create a session: its metadata first, then an empty log. The prefix may hold
        records an interrupted delete left behind: memory and store agree exactly
        when none of them can be read. */
    static method Create(kv: KvStore, metadata: Metadata) returns (storage: DoSessionStorage)
      modifies kv
      ensures fresh(storage) && fresh(storage.state)
      ensures storage.kv == kv && storage.metadata == metadata
      ensures storage.state.View() == INIT && storage.history == []
      ensures kv.data == old(kv.data)[MetaKey(metadata.id) := MetaDoc(metadata)]
      ensures Canonical(old(kv.data), metadata.id) ==>
                (storage.Valid() <==> ReadableUpTo(old(kv.data), metadata.id, 0))
    {
      kv.Put(MetaKey(metadata.id), MetaDoc(metadata));
      var state := new SessionState();
      storage := new DoSessionStorage(kv, metadata, state, []);
      MetaKeepsLog(old(kv.data), metadata);
    }

    /** Load a session by replaying its log, in the order of the numbers in its keys
        and whatever the order of the listing. */
    static method Load(kv: KvStore, id: string) returns (r: Result<DoSessionStorage, SessionError>)
      requires Canonical(kv.data, id)
      ensures Loads(kv.data, id, StateOf(r))
      ensures MetaKey(id) !in kv.data || kv.data[MetaKey(id)].Corrupt? ==> r == Err(NotFound)
      ensures MetaKey(id) in kv.data && !kv.data[MetaKey(id)].Corrupt? && !HasMeta(kv.data, id) ==>
                r == Err(InvalidEntry)
      ensures r.Ok? ==>
        && fresh(r.value) && fresh(r.value.state) && r.value.state.Valid()
        && r.value.kv == kv && r.value.metadata.id == id
        && kv.data[MetaKey(id)] == MetaDoc(r.value.metadata)
        && (SeqsMatchKeys(kv.data, id) ==> r.value.Valid())
    {
      var found := kv.Get(MetaKey(id));
      if found.None? || found.value.Corrupt? {
        return Err(NotFound);
      }
      if !found.value.MetaDoc? || found.value.meta.id != id {
        return Err(InvalidEntry);
      }
      var records := ListLog(kv, id);
      var replayed := ReplayRecords(kv, id, records);
      if replayed.Err? {
        return Err(replayed.error);
      }
      ghost var history := [];
      if SeqsMatchKeys(kv.data, id) {
        history := LoadedHistory(kv.data, id, Numbers(records));
      }
      var storage := new DoSessionStorage(kv, found.value.meta, replayed.value, history);
      return Ok(storage);
    }

    static method ReplayRecords(kv: KvStore, id: string, records: seq<LogRecord>)
      returns (r: Result<SessionState, SessionError>)
      requires InStore(Numbers(records), kv.data, id)
      requires forall i :: 0 <= i < |records| ==> kv.data[KeyOf(id, Numbers(records)[i])] == records[i].doc
      ensures r.Ok? ==> fresh(r.value) && r.value.Valid()
      ensures ReplayDocs(kv.data, id, Numbers(records)) ==
              match r case Ok(state) => Ok(state.View()) case Err(e) => Err(e)
    {
      ghost var nums := Numbers(records);
      var state := new SessionState();
      for i := 0 to |records|
        invariant state.Valid() && fresh(state)
        invariant ReplayDocs(kv.data, id, nums[..i]) == Ok(state.View())
      {
        ReplayDocsStep(kv.data, id, nums, i);
        if !records[i].doc.MutationDoc? {
          ReplayDocsStuck(kv.data, id, nums, i + 1);
          return Err(StorageFault);
        }
        var applied := state.ApplyMutation(records[i].doc.mutation);
        if applied.Err? {
          ReplayDocsStuck(kv.data, id, nums, i + 1);
          return Err(applied.error);
        }
      }
      assert nums[..|records|] == nums;
      return Ok(state);
    }

    /** The readable log records of a session, sorted by the number in their key. */
    static method ListLog(kv: KvStore, id: string) returns (records: seq<LogRecord>)
      requires Canonical(kv.data, id)
      ensures AreNumbers(Numbers(records), kv.data, id) && InStore(Numbers(records), kv.data, id)
      ensures forall i :: 0 <= i < |records| ==> kv.data[KeyOf(id, Numbers(records)[i])] == records[i].doc
    {
      var prefix := SessionPrefix(id);
      var listing := kv.List(prefix);
      records := [];
      for i := 0 to |listing|
        invariant Gathered(records, listing, i, id)
      {
        assert listing[i] in listing;
        var key := listing[i].key[|prefix|..];
        if !listing[i].doc.Corrupt? && IsLogKey(key) {
          ghost var n := NumberOfKey(kv.data, id, listing[i].key);
          TakeStep(records, listing, i, id, n);
          records := Insert(records, LogRecord(Number(LastSegment(key)), listing[i].doc));
        }
      }
      GatheredAll(records, listing, kv.data, id);
    }

    /** Write the record, then apply it in memory. */
    method Commit(m: Mutation)
      requires Valid() && Accepts(state.View(), m)
      modifies this, kv, state
      ensures Valid() && history == old(history) + [m]
      ensures Apply(old(state.View()), m) == Ok(state.View())
      ensures kv.data == old(kv.data)[KeyOf(metadata.id, old(state.sequence) + 1) := MutationDoc(m)]
    {
      ReplayCounts(INIT, history);
      PutExtends(kv.data, metadata.id, history, m);
      ReplayNext(history, m);
      kv.Put(KeyOf(metadata.id, SeqOf(m)), MutationDoc(m));
      var applied := state.ApplyMutation(m);
      history := history + [m];
    }

    method CreateLane(lane: string, at: Option<Id>) returns (r: Result<(), SessionError>)
      requires Valid()
      modifies this, kv, state
      ensures Valid()
      ensures Committed(Op.CreateLane(lane, at), metadata.id, old(state.View()), old(kv.data),
                        state.View(), kv.data, ErrorOf(r))
      ensures r == if lane in old(state.lanes) then Err(AlreadyExists)
                   else if Unknown(old(state.View()), at) then Err(NotFound) else Ok(())
      ensures r.Err? ==> state.View() == old(state.View()) && kv.data == old(kv.data)
      ensures r.Ok? ==>
                && LaneCreated(old(state.View()), state.View(), lane, at)
                && Logged(metadata.id, old(state.View()), old(kv.data), kv.data,
                          LaneMutation(old(state.sequence) + 1, lane, at))
    {
      CreateLaneEffect(state.View(), lane, at);
      var _ :- state.ValidateNewLane(lane);
      var _ :- state.ValidateTarget(at);
      Commit(LaneMutation(state.NextSequence(), lane, at));
      return Ok(());
    }

    method MoveLane(lane: string, to: Option<Id>) returns (r: Result<(), SessionError>)
      requires Valid()
      modifies this, kv, state
      ensures Valid()
      ensures Committed(Op.MoveLane(lane, to), metadata.id, old(state.View()), old(kv.data),
                        state.View(), kv.data, ErrorOf(r))
      ensures r == if lane !in old(state.lanes) then Err(InvalidLane)
                   else if Unknown(old(state.View()), to) then Err(NotFound) else Ok(())
      ensures r.Err? ==> state.View() == old(state.View()) && kv.data == old(kv.data)
      ensures r.Ok? ==>
                && LaneMoved(old(state.View()), state.View(), lane, to)
                && Logged(metadata.id, old(state.View()), old(kv.data), kv.data,
                          LaneMutation(old(state.sequence) + 1, lane, to))
    {
      MoveLaneEffect(state.View(), lane, to);
      var _ :- state.RequireLane(lane);
      var _ :- state.ValidateTarget(to);
      Commit(LaneMutation(state.NextSequence(), lane, to));
      return Ok(());
    }

    method AppendEntry(id: Id, body: EntryBody, lane: string, now: int) returns (r: Result<Entry, SessionError>)
      requires Valid()
      modifies this, kv, state
      ensures Valid()
      ensures Committed(Op.AppendEntry(id, body, lane, now), metadata.id, old(state.View()), old(kv.data),
                        state.View(), kv.data, ErrorOf(r))
      ensures ErrorOf(r) == if lane !in old(state.lanes) then Some(InvalidLane)
                            else if id in old(state.usedIds) then Some(AlreadyExists) else None
      ensures r.Err? ==> state.View() == old(state.View()) && kv.data == old(kv.data)
      ensures r.Ok? ==>
                && lane in old(state.lanes)
                && r.value == Entry(id, old(state.lanes)[lane], old(state.sequence) + 1, now, body)
                && EntryAppended(old(state.View()), state.View(), lane, r.value)
                && Logged(metadata.id, old(state.View()), old(kv.data), kv.data,
                          EntryMutation(Some(lane), r.value))
    {
      AppendEntryEffect(state.View(), id, body, lane, now);
      var parentId :- state.RequireLane(lane);
      var _ :- state.ValidateUnusedId(id);
      var entry := Entry(id, parentId, state.NextSequence(), now, body);
      assert state.lanes[lane] == parentId;
      PreparedIsAccepted(state.View(), Op.AppendEntry(id, body, lane, now));
      Commit(EntryMutation(Some(lane), entry));
      return Ok(entry);
    }

    method AppendRecord(id: Id, body: RecordBody, lane: string, now: int) returns (r: Result<LaneRecord, SessionError>)
      requires Valid()
      modifies this, kv, state
      ensures Valid()
      ensures Committed(Op.AppendRecord(id, body, lane, now), metadata.id, old(state.View()), old(kv.data),
                        state.View(), kv.data, ErrorOf(r))
      ensures ErrorOf(r) == if lane !in old(state.lanes) then Some(InvalidLane)
                            else if id in old(state.usedIds) then Some(AlreadyExists)
                            else if body.OperationStarted? && OpsOf(old(state.View()), lane) != []
                            then Some(StorageFault) else None
      ensures r.Err? ==> state.View() == old(state.View()) && kv.data == old(kv.data)
      ensures r.Ok? ==>
                && r.value == LaneRecord(id, lane, old(state.sequence) + 1, now, body)
                && RecordAppended(old(state.View()), state.View(), r.value)
                && Logged(metadata.id, old(state.View()), old(kv.data), kv.data,
                          RecordMutation(r.value))
    {
      AppendRecordEffect(state.View(), id, body, lane, now);
      var _ :- state.RequireLane(lane);
      var _ :- state.ValidateUnusedId(id);
      var open := state.FindOpenOperations(lane, Some(1));
      if body.OperationStarted? && open.value != [] {
        return Err(StorageFault);
      }
      var record := LaneRecord(id, lane, state.NextSequence(), now, body);
      Commit(RecordMutation(record));
      return Ok(record);
    }

    method SetName(name: string) returns (r: Result<(), SessionError>)
      requires Valid()
      modifies this, kv, state
      ensures Valid()
      ensures Committed(Op.SetName(name), metadata.id, old(state.View()), old(kv.data),
                        state.View(), kv.data, ErrorOf(r))
      ensures r == Ok(()) && NameSet(old(state.View()), state.View(), name)
      ensures Logged(metadata.id, old(state.View()), old(kv.data), kv.data, NameMutation(old(state.sequence) + 1, name))
    {
      SetNameEffect(state.View(), name);
      Commit(NameMutation(state.NextSequence(), name));
      return Ok(());
    }

    method SetLabel(target: Id, tag: Option<string>) returns (r: Result<(), SessionError>)
      requires Valid()
      modifies this, kv, state
      ensures Valid()
      ensures Committed(Op.SetLabel(target, tag), metadata.id, old(state.View()), old(kv.data),
                        state.View(), kv.data, ErrorOf(r))
      ensures r == if target !in old(state.entriesById) then Err(NotFound) else Ok(())
      ensures r.Err? ==> state.View() == old(state.View()) && kv.data == old(kv.data)
      ensures r.Ok? ==>
                && LabelSet(old(state.View()), state.View(), target, tag)
                && Logged(metadata.id, old(state.View()), old(kv.data), kv.data,
                          LabelMutation(old(state.sequence) + 1, target, tag))
    {
      SetLabelEffect(state.View(), target, tag);
      var _ :- state.ValidateTarget(Some(target));
      Commit(LabelMutation(state.NextSequence(), target, tag));
      return Ok(());
    }
  }
}
