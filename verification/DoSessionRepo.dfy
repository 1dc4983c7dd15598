/** The class `DoSessionRepo`: sessions side by side in one store, created, forked and
    deleted without touching one another. */
module DoSessionRepoClass {
  import opened Wrappers
  import opened SessionTypes
  import opened Trail
  import opened Keys
  import opened Store
  import opened StoreLoad
  import opened DoSession
  import opened SessionStateClass
  import opened RepoRuns
  import Fork
  import StorageRuns

  /** A crash while a fork writes its child leaves a child that loads as the fork cut
      off after some mutation, if the prefix was empty before. */
  lemma ForkCrash(data: Data, id: string, source: State, options: Fork.ForkOptions, k: nat)
    requires HasMeta(data, id) && Canonical(data, id) && NothingPast(data, id, 0)
    requires WellFormed(source) && Fork.ForkMutations(source, options).Ok?
    requires k <= |Fork.ForkMutations(source, options).value|
    ensures var ms := Fork.ForkMutations(source, options).value[..k];
            && Replay(ms).Ok?
            && Loads(WriteLog(data, id, ms), id, Replay(ms))
  {
    var all := Fork.ForkMutations(source, options).value;
    Fork.ForkReplays(source, options);
    ReplayPrefix(INIT, all, k);
    assert NothingPast(data, id, k);
    WriteLogOnDisk(data, id, all[..k]);
    OnDiskLoads(WriteLog(data, id, all[..k]), id, all[..k]);
  }

  /** Crash consistency of forks: a child written in full, or up to any crash between
      its puts, is a session like any other, and stays crash consistent over every run
      of storage methods, with any number of callers and crashes. */
  lemma ForkedRunsAreConsistent(data: Data, id: string, source: State, options: Fork.ForkOptions, k: nat,
                                es: seq<StorageRuns.Event>)
    requires HasMeta(data, id) && Canonical(data, id) && NothingPast(data, id, 0)
    requires WellFormed(source) && Fork.ForkMutations(source, options).Ok?
    requires k <= |Fork.ForkMutations(source, options).value|
    ensures var ms := Fork.ForkMutations(source, options).value[..k];
            && Replay(ms).Ok?
            && var w := StorageRuns.Exec(StorageRuns.Opened(WriteLog(data, id, ms), ms), id, es);
               StorageRuns.Consistent(w, id) && ms <= w.history
  {
    var all := Fork.ForkMutations(source, options).value;
    Fork.ForkReplays(source, options);
    ReplayPrefix(INIT, all, k);
    assert NothingPast(data, id, k);
    WriteLogOnDisk(data, id, all[..k]);
    StorageRuns.CrashConsistency(WriteLog(data, id, all[..k]), id, all[..k], es);
  }

  /** What forking the session stored under `source` plans. */
  ghost predicate Planned(data: Data, source: string, options: Fork.ForkOptions,
                          plan: Result<seq<Mutation>, SessionError>)
  {
    exists s :: Loads(data, source, Ok(s)) && WellFormed(s) && Fork.ForkMutations(s, options) == plan
  }

  /** The planned mutations are written, the child in memory is their replay, and the
      store agrees with it exactly when the child's prefix held no readable record past
      them. */
  ghost predicate ForkedInto(data: Data, after: Data, source: string, options: Fork.ForkOptions, meta: Metadata,
                             child: State, agrees: bool)
  {
    exists ms ::
      && Planned(data, source, options, Ok(ms))
      && after == StoreAfter(data, ForkInto(meta, ms))
      && Replay(ms) == Ok(child)
      && (Canonical(data, meta.id) ==> (agrees <==> NothingPast(data, meta.id, |ms|)))
  }

  lemma MetaKeepsNothingPast(data: Data, metadata: Metadata, n: nat)
    ensures NothingPast(data[MetaKey(metadata.id) := MetaDoc(metadata)], metadata.id, n)
       <==> NothingPast(data, metadata.id, n)
  {
    MetaKeepsLog(data, metadata);
    var after := data[MetaKey(metadata.id) := MetaDoc(metadata)];
    assert forall k: nat :: Readable(after, metadata.id, k) <==> Readable(data, metadata.id, k);
  }

  /** A fork's metadata alone, as a refused fork leaves it. */
  lemma MetaStarts(data: Data, metadata: Metadata)
    requires MetaKey(metadata.id) !in data
    ensures var after := data[MetaKey(metadata.id) := MetaDoc(metadata)];
            && HasMeta(after, metadata.id)
            && OnlyUnder(data, after, metadata.id)
            && after == StoreAfter(data, ForkInto(metadata, []))
  {
    MetaKeepsLog(data, metadata);
    AfterOnlyUnder(data, CreateSession(metadata));
  }

  lemma ChildStore(data: Data, metadata: Metadata, ms: seq<Mutation>)
    requires MetaKey(metadata.id) !in data
    ensures var after := data[MetaKey(metadata.id) := MetaDoc(metadata)];
            && WriteLog(after, metadata.id, ms) == StoreAfter(data, ForkInto(metadata, ms))
            && (Canonical(data, metadata.id) ==> Canonical(after, metadata.id))
            && (NothingPast(after, metadata.id, |ms|) <==> NothingPast(data, metadata.id, |ms|))
  {
    MetaKeepsLog(data, metadata);
    MetaKeepsNothingPast(data, metadata, |ms|);
  }

  lemma ForkedSo(data: Data, after: Data, source: string, options: Fork.ForkOptions, meta: Metadata, child: State,
                 agrees: bool, ms: seq<Mutation>)
    requires Planned(data, source, options, Ok(ms)) && Replay(ms) == Ok(child)
    requires after == StoreAfter(data, ForkInto(meta, ms))
    requires Canonical(data, meta.id) ==> (agrees <==> NothingPast(data, meta.id, |ms|))
    ensures ForkedInto(data, after, source, options, meta, child, agrees)
  {
  }

  class DoSessionRepo {
    const kv: KvStore

    constructor (kv: KvStore)
      ensures this.kv == kv
    {
      this.kv := kv;
    }

    method Create(id: string, parent: Option<string>, now: int) returns (r: Result<DoSessionStorage, SessionError>)
      modifies kv
      ensures OnlyUnder(old(kv.data), kv.data, id)
      ensures !ValidSessionId(id) ==> r == Err(InvalidPayload)
      ensures ValidSessionId(id) && MetaKey(id) in old(kv.data) ==> r == Err(AlreadyExists)
      ensures r.Err? ==> kv.data == old(kv.data)
      ensures ValidSessionId(id) && MetaKey(id) !in old(kv.data) ==>
        && r.Ok? && fresh(r.value) && fresh(r.value.state)
        && r.value.kv == kv && r.value.metadata.id == id && r.value.state.View() == INIT
        && r.value.metadata == Metadata(id, "", now, parent)
        && kv.data == StoreAfter(old(kv.data), CreateSession(r.value.metadata))
        && kv.data == old(kv.data)[MetaKey(id) := MetaDoc(r.value.metadata)]
        && (Canonical(old(kv.data), id) ==> (r.value.Valid() <==> ReadableUpTo(old(kv.data), id, 0)))
    {
      if !ValidSessionId(id) {
        return Err(InvalidPayload);
      }
      var taken := kv.Get(MetaKey(id));
      if taken.Some? {
        return Err(AlreadyExists);
      }
      var storage := DoSessionStorage.Create(kv, Metadata(id, "", now, parent));
      return Ok(storage);
    }

    /** Fork a session. The child's metadata is written before the fork is planned, so
        a fork that is refused at that point leaves an empty child behind. */
    method ForkSession(source: string, options: Fork.ForkOptions, childId: string, parent: Option<string>, now: int)
      returns (r: Result<DoSessionStorage, SessionError>)
      requires Canonical(kv.data, source)
      modifies kv
      ensures OnlyUnder(old(kv.data), kv.data, childId)
      ensures kv.data == old(kv.data) ==>
        && r.Err?
        && (|| Loads(old(kv.data), source, Err(r.error))
            || (!ValidSessionId(childId) && r.error == InvalidPayload)
            || (MetaKey(childId) in old(kv.data) && r.error == AlreadyExists))
      ensures kv.data != old(kv.data) ==> ValidSessionId(childId) && MetaKey(childId) !in old(kv.data)
      ensures r.Err? && kv.data != old(kv.data) ==>
        && kv.data
           == StoreAfter(old(kv.data), ForkInto(Metadata(childId, "", now, Some(parent.GetOr(source))), []))
        && Planned(old(kv.data), source, options, Err(r.error))
      ensures r.Ok? ==>
        && fresh(r.value) && fresh(r.value.state) && r.value.kv == kv && r.value.metadata.id == childId
        && MetaKey(childId) in kv.data && kv.data[MetaKey(childId)] == MetaDoc(r.value.metadata)
        && ForkedInto(old(kv.data), kv.data, source, options, r.value.metadata, r.value.state.View(), r.value.Valid())
        && r.value.metadata == Metadata(childId, "", now, Some(parent.GetOr(source)))
    {
      var loaded := DoSessionStorage.Load(kv, source);
      if loaded.Err? {
        return Err(loaded.error);
      }
      if !ValidSessionId(childId) {
        return Err(InvalidPayload);
      }
      var taken := kv.Get(MetaKey(childId));
      if taken.Some? {
        return Err(AlreadyExists);
      }
      var metadata := Metadata(childId, "", now, Some(parent.GetOr(source)));
      ghost var plan := Fork.ForkMutations(loaded.value.state.View(), options);
      assert Planned(old(kv.data), source, options, plan);
      r := WriteFork(loaded.value.state, options, metadata);
      if plan.Ok? {
        ForkedSo(old(kv.data), kv.data, source, options, metadata, r.value.state.View(), r.value.Valid(), plan.value);
      }
    }

    /** Write the child's metadata, then plan and write its log. */
    method WriteFork(from: SessionState, options: Fork.ForkOptions, metadata: Metadata)
      returns (r: Result<DoSessionStorage, SessionError>)
      requires from.Valid() && MetaKey(metadata.id) !in kv.data
      modifies kv
      ensures OnlyUnder(old(kv.data), kv.data, metadata.id)
      ensures MetaKey(metadata.id) in kv.data
      ensures match Fork.ForkMutations(from.View(), options)
              case Err(e) =>
                r == Err(e) && kv.data == StoreAfter(old(kv.data), ForkInto(metadata, []))
              case Ok(ms) =>
                && r.Ok?
                && fresh(r.value) && fresh(r.value.state) && r.value.kv == kv && r.value.metadata == metadata
                && kv.data[MetaKey(metadata.id)] == MetaDoc(metadata)
                && Replay(ms) == Ok(r.value.state.View())
                && kv.data == StoreAfter(old(kv.data), ForkInto(metadata, ms))
                && (Canonical(old(kv.data), metadata.id) ==>
                      (r.value.Valid() <==> NothingPast(old(kv.data), metadata.id, |ms|)))
    {
      kv.Put(MetaKey(metadata.id), MetaDoc(metadata));
      MetaStarts(old(kv.data), metadata);
      var planned := from.CreateForkMutations(options);
      if planned.Err? {
        return Err(planned.error);
      }
      assert Replay(planned.value).Ok? by {
        Fork.ForkReplays(from.View(), options);
      }
      ChildStore(old(kv.data), metadata, planned.value);
      var child := WriteChild(metadata, planned.value);
      return Ok(child);
    }

    /** Write the child's log, then replay it into the child's state. */
    method WriteChild(metadata: Metadata, mutations: seq<Mutation>) returns (child: DoSessionStorage)
      requires Replay(mutations).Ok? && HasMeta(kv.data, metadata.id)
      modifies kv
      ensures fresh(child) && fresh(child.state) && child.kv == kv && child.metadata == metadata
      ensures kv.data == WriteLog(old(kv.data), metadata.id, mutations)
      ensures OnlyUnder(old(kv.data), kv.data, metadata.id) && MetaKey(metadata.id) in kv.data
      ensures kv.data[MetaKey(metadata.id)] == old(kv.data)[MetaKey(metadata.id)]
      ensures Replay(mutations) == Ok(child.state.View())
      ensures Canonical(old(kv.data), metadata.id) ==>
                (child.Valid() <==> NothingPast(old(kv.data), metadata.id, |mutations|))
    {
      SeqsConsecutive(mutations);
      for i := 0 to |mutations|
        invariant kv.data == WriteLog(old(kv.data), metadata.id, mutations[..i])
      {
        assert Front(mutations[..i + 1]) == mutations[..i];
        kv.Put(KeyOf(metadata.id, SeqOf(mutations[i])), MutationDoc(mutations[i]));
      }
      assert mutations[..|mutations|] == mutations;
      WriteLogHolds(old(kv.data), metadata.id, mutations);
      var state := ReplayAll(mutations);
      child := new DoSessionStorage(kv, metadata, state, mutations);
      if Canonical(old(kv.data), metadata.id) {
        WriteLogOnDisk(old(kv.data), metadata.id, mutations);
      }
    }

    method ReplayAll(mutations: seq<Mutation>) returns (state: SessionState)
      requires Replay(mutations).Ok?
      ensures fresh(state) && state.Valid() && Replay(mutations) == Ok(state.View())
    {
      state := new SessionState();
      for i := 0 to |mutations|
        invariant fresh(state) && state.Valid() && Replay(mutations[..i]) == Ok(state.View())
      {
        ReplayNext(mutations[..i], mutations[i]);
        assert mutations[..i] + [mutations[i]] == mutations[..i + 1];
        ReplayPrefix(INIT, mutations, i + 1);
        var applied := state.ApplyMutation(mutations[i]);
      }
      assert mutations[..|mutations|] == mutations;
    }

    /** Delete a session: every key under its prefix, and no other. */
    method Delete(id: string)
      modifies kv
      ensures kv.data == StoreAfter(old(kv.data), DeleteSession(id))
      ensures OnlyUnder(old(kv.data), kv.data, id)
      ensures forall k :: SessionPrefix(id) <= k ==> k !in kv.data
      ensures Loads(kv.data, id, Err(NotFound))
    {
      var listing := kv.List(SessionPrefix(id));
      for i := 0 to |listing|
        invariant kv.data == StoreAfter(old(kv.data), InterruptedDelete(id, KeysOf(listing[..i])))
      {
        kv.Delete(listing[i].key);
        assert KeysOf(listing[..i + 1]) == KeysOf(listing[..i]) + {listing[i].key} by {
          assert listing[..i + 1] == listing[..i] + [listing[i]];
        }
      }
      assert listing[..|listing|] == listing;
      forall k | k in old(kv.data) ensures k in KeysOf(listing) <==> SessionPrefix(id) <= k {
        assert KeyDoc(k, old(kv.data)[k]) in listing <==> SessionPrefix(id) <= k;
      }
    }
  }

  function KeysOf(listing: seq<KeyDoc>): set<string> {
    set x | x in listing :: x.key
  }
}
