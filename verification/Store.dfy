/** The key-value store under the session trails and what `load` makes of it. */
module Store {
  import opened Wrappers
  import opened SessionTypes
  import opened Trail
  import opened Keys

  datatype Metadata = Metadata(id: string, cwd: string, createdAt: int, parentSessionId: Option<string>)

  /** A stored value, as its reader decodes it: the JSON codec is taken as the
      identity. `OtherDoc` is a JSON object that is no mutation and no metadata,
      `Corrupt` bytes that are no JSON object. */
  datatype Doc = MetaDoc(meta: Metadata) | MutationDoc(mutation: Mutation) | OtherDoc | Corrupt

  type Data = map<string, Doc>

  datatype KeyDoc = KeyDoc(key: string, doc: Doc)

  /** A listing holds every entry under the prefix once, in any order. */
  ghost predicate IsListing(l: seq<KeyDoc>, data: Data, prefix: string) {
    && (forall i, j :: 0 <= i < j < |l| ==> l[i].key != l[j].key)
    && (forall x :: x in l <==> prefix <= x.key && x.key in data && data[x.key] == x.doc)
  }

  class KvStore {
    var data: Data

    constructor ()
      ensures data == map[]
    {
      data := map[];
    }

    method Get(key: string) returns (doc: Option<Doc>)
      ensures doc == if key in data then Some(data[key]) else None
    {
      doc := if key in data then Some(data[key]) else None;
    }

    method Put(key: string, doc: Doc)
      modifies this
      ensures data == old(data)[key := doc]
    {
      data := data[key := doc];
    }

    method Delete(key: string)
      modifies this
      ensures data == old(data) - {key}
    {
      data := data - {key};
    }

    method List(prefix: string) returns (l: seq<KeyDoc>)
      ensures IsListing(l, data, prefix)
    {
      l := [];
      var rest := data.Keys;
      while rest != {}
        invariant rest <= data.Keys
        invariant IsListing(l, map k | k in data && k !in rest :: data[k], prefix)
        decreases rest
      {
        var key :| key in rest;
        ghost var before := map k | k in data && k !in rest :: data[k];
        rest := rest - {key};
        assert (map k | k in data && k !in rest :: data[k]) == before[key := data[key]];
        if prefix <= key {
          l := l + [KeyDoc(key, data[key])];
        }
      }
      assert (map k | k in data && k !in rest :: data[k]) == data;
    }
  }

  // ------------------------------------------------------ the log in a store

  function KeyOf(id: string, n: nat): string {
    SessionPrefix(id) + LogKey(n)
  }

  function MetaKey(id: string): string {
    SessionPrefix(id) + "meta"
  }

  /** Every log key of the session is one `LogKey.create` makes. */
  ghost predicate Canonical(data: Data, id: string) {
    forall k :: k in data && SessionPrefix(id) + "log/" <= k ==> IsKeyOfLog(k, id)
  }

  ghost predicate IsKeyOfLog(k: string, id: string) {
    exists n: nat :: k == KeyOf(id, n)
  }

  /** A log record that is there and decodes. */
  predicate Readable(data: Data, id: string, n: nat) {
    KeyOf(id, n) in data && !data[KeyOf(id, n)].Corrupt?
  }

  lemma KeyOfInjective(id: string, m: nat, n: nat)
    requires KeyOf(id, m) == KeyOf(id, n)
    ensures m == n
  {
    assert KeyOf(id, m)[|SessionPrefix(id)|..] == LogKey(m);
    assert KeyOf(id, n)[|SessionPrefix(id)|..] == LogKey(n);
    LogKeyInjective(m, n);
  }

  ghost predicate Ascending(nums: seq<nat>) {
    forall i, j :: 0 <= i < j < |nums| ==> nums[i] < nums[j]
  }

  /** The sequence numbers of the readable log records, smallest first. */
  ghost predicate AreNumbers(nums: seq<nat>, data: Data, id: string) {
    && Ascending(nums)
    && (forall n: nat :: n in nums <==> Readable(data, id, n))
  }

  ghost predicate InStore(nums: seq<nat>, data: Data, id: string) {
    forall i :: 0 <= i < |nums| ==> KeyOf(id, nums[i]) in data
  }

  /** Replay the records of the given numbers, in that order. */
  function ReplayDocs(data: Data, id: string, nums: seq<nat>): Result<State, SessionError>
    requires InStore(nums, data, id)
  {
    if nums == [] then Ok(INIT)
    else
      var last := nums[|nums| - 1];
      var t :- ReplayDocs(data, id, nums[..|nums| - 1]);
      match data[KeyOf(id, last)]
      case MutationDoc(m) => Apply(t, m)
      case _ => Err(StorageFault)
  }

  /** What loading a session answers. The numbers are unique, so the order of the
      listing does not matter. */
  ghost predicate Loads(data: Data, id: string, r: Result<State, SessionError>) {
    if MetaKey(id) !in data || data[MetaKey(id)].Corrupt? then r == Err(NotFound)
    else if !data[MetaKey(id)].MetaDoc? || data[MetaKey(id)].meta.id != id then r == Err(InvalidEntry)
    else exists nums :: AreNumbers(nums, data, id) && InStore(nums, data, id) && r == ReplayDocs(data, id, nums)
  }

  lemma AscendingFront(a: seq<nat>, n: nat)
    requires Ascending(a) && a != []
    ensures n in a[..|a| - 1] <==> n in a && n != a[|a| - 1]
    ensures n in a ==> n <= a[|a| - 1]
  {
    assert a == a[..|a| - 1] + [a[|a| - 1]];
  }

  lemma {:induction false} AscendingUnique(a: seq<nat>, b: seq<nat>)
    requires Ascending(a) && Ascending(b) && (forall n {:trigger n in a} {:trigger n in b} :: n in a <==> n in b)
    ensures a == b
    decreases |a|
  {
    assert a != [] ==> a[|a| - 1] in a;
    assert b != [] ==> b[|b| - 1] in b;
    if a != [] && b != [] {
      AscendingFront(a, b[|b| - 1]);
      AscendingFront(b, a[|a| - 1]);
      var a', b' := a[..|a| - 1], b[..|b| - 1];
      forall n | n in a' || n in b' ensures n in a' <==> n in b' {
        AscendingFront(a, n);
        AscendingFront(b, n);
      }
      AscendingUnique(a', b');
    }
  }

  /** Loading is a function of the store alone. */
  lemma LoadsOnce(data: Data, id: string, r1: Result<State, SessionError>, r2: Result<State, SessionError>)
    requires Loads(data, id, r1) && Loads(data, id, r2)
    ensures r1 == r2
  {
    if MetaKey(id) in data && data[MetaKey(id)].MetaDoc? && data[MetaKey(id)].meta.id == id {
      var a :| AreNumbers(a, data, id) && InStore(a, data, id) && r1 == ReplayDocs(data, id, a);
      var b :| AreNumbers(b, data, id) && InStore(b, data, id) && r2 == ReplayDocs(data, id, b);
      AscendingUnique(a, b);
    }
  }
}
