/** What the queries of `SessionState` answer, as functions of the state, and the
    laws of paging and of catch-up reads. */
module Queries {
  import opened Wrappers
  import opened SessionTypes
  import opened Trail

  // An absent order reads as newest first.
  datatype Order = NewestFirst | OldestFirst

  datatype EntryQuery = EntryQuery(
    entryType: Option<EntryType>,
    customType: Option<string>,
    order: Order,
    afterSeq: Option<int>,
    limit: Option<int>)

  datatype Bounds = Bounds(stopAtId: Option<Id>, stopAtType: Option<EntryType>)

  const ANY: EntryQuery := EntryQuery(None, None, OldestFirst, None, None)
  const UNBOUNDED: Bounds := Bounds(None, None)

  predicate ValidPaging(afterSeq: Option<int>, limit: Option<int>) {
    (limit.Some? ==> limit.value > 0) && (afterSeq.Some? ==> afterSeq.value >= 0)
  }

  predicate OfKind(e: Entry, q: EntryQuery) {
    && (q.entryType.Some? ==> e.body.Type() == q.entryType.value)
    && (q.customType.Some? ==> e.body.Custom? && e.body.customType == q.customType.value)
  }

  /** Whether a sequence number lies past the cursor, in the reading direction. */
  predicate Beyond(n: int, order: Order, afterSeq: Option<int>) {
    afterSeq.Some? ==> if order.OldestFirst? then n > afterSeq.value else n < afterSeq.value
  }

  predicate MatchesEntryQuery(e: Entry, q: EntryQuery) {
    OfKind(e, q) && Beyond(e.seqNo, q.order, q.afterSeq)
  }

  function Kept<T>(xs: seq<T>, keep: T -> bool): seq<T> {
    if xs == [] then []
    else if keep(xs[|xs| - 1]) then Kept(xs[..|xs| - 1], keep) + [xs[|xs| - 1]]
    else Kept(xs[..|xs| - 1], keep)
  }

  function UpTo<T>(xs: seq<T>, limit: Option<int>): seq<T> {
    if limit.Some? && 0 <= limit.value < |xs| then xs[..limit.value] else xs
  }

  function Reverse<T>(xs: seq<T>): (r: seq<T>)
    ensures |r| == |xs|
    ensures forall i :: 0 <= i < |xs| ==> r[i] == xs[|xs| - 1 - i]
  {
    if xs == [] then [] else Reverse(xs[1..]) + [xs[0]]
  }

  function InOrder<T>(xs: seq<T>, order: Order): seq<T> {
    if order.OldestFirst? then xs else Reverse(xs)
  }

  predicate Stops(e: Entry, b: Bounds) {
    b.stopAtId == Some(e.id) || b.stopAtType == Some(e.body.Type())
  }

  /** The part of a walk up to and including its first stopping entry. */
  function UntilStop(xs: seq<Entry>, b: Bounds): seq<Entry> {
    if xs == [] then []
    else if Stops(xs[0], b) then [xs[0]]
    else [xs[0]] + UntilStop(xs[1..], b)
  }

  function Matching(q: EntryQuery): Entry -> bool {
    (e: Entry) => MatchesEntryQuery(e, q)
  }

  function OfQueryKind(q: EntryQuery): Entry -> bool {
    (e: Entry) => OfKind(e, q)
  }

  function Select(xs: seq<Entry>, q: EntryQuery): seq<Entry> {
    UpTo(Kept(xs, Matching(q)), q.limit)
  }

  function FindEntries(s: State, q: EntryQuery): Result<seq<Entry>, SessionError> {
    if !ValidPaging(q.afterSeq, q.limit) then Err(InvalidQuery)
    else Ok(Select(InOrder(s.entries, q.order), q))
  }

  /** The entries a branch query reads, in its order, before filtering. */
  function BranchWalk(s: State, start: Id, order: Order, b: Bounds): seq<Entry>
    requires Rooted(s.entriesById) && start in s.entriesById
  {
    UntilStop(if order.OldestFirst? then Reverse(PathUp(s.entriesById, start)) else PathUp(s.entriesById, start), b)
  }

  function FindEntriesOnBranch(s: State, start: Id, q: EntryQuery, b: Bounds): Result<seq<Entry>, SessionError>
    requires Rooted(s.entriesById)
  {
    if !ValidPaging(q.afterSeq, q.limit) then Err(InvalidQuery)
    else if start !in s.entriesById then Err(NotFound)
    else Ok(Select(BranchWalk(s, start, q.order, b), q))
  }

  function FindOpenOperations(s: State, lane: string, limit: Option<int>): Result<seq<LaneRecord>, SessionError> {
    if !ValidPaging(None, limit) then Err(InvalidQuery) else Ok(UpTo(Reverse(OpsOf(s, lane)), limit))
  }

  function PastSeq<T>(key: T -> int, order: Order, afterSeq: Option<int>): T -> bool {
    (x: T) => Beyond(key(x), order, afterSeq)
  }

  function EntryKey(e: Entry): int { e.seqNo }

  function ItemKey(item: LogItem): int { item.seqNo }

  function GetLog(s: State, afterSeq: Option<int>, limit: Option<int>): Result<seq<LogItem>, SessionError> {
    if !ValidPaging(afterSeq, limit) then Err(InvalidQuery)
    else Ok(UpTo(Kept(s.log, PastSeq(ItemKey, OldestFirst, afterSeq)), limit))
  }

  // ------------------------------------------------------------- paging

  ghost predicate Directed<T(!new)>(xs: seq<T>, key: T -> int, order: Order) {
    && (forall i :: 0 <= i < |xs| ==> key(xs[i]) > 0)
    && (forall i, j :: 0 <= i < j < |xs| ==>
          if order.OldestFirst? then key(xs[i]) < key(xs[j]) else key(xs[i]) > key(xs[j]))
  }

  function Past<T>(xs: seq<T>, key: T -> int, order: Order, c: Option<int>): seq<T> {
    Kept(xs, PastSeq(key, order, c))
  }

  /** What a client collects by asking for a page, then for the page after the last
      item it got, for at most `pages` requests. */
  function Follow<T>(find: Option<int> -> seq<T>, key: T -> int, c: Option<int>, pages: nat): seq<T>
    decreases pages
  {
    if pages == 0 then []
    else
      var page := find(c);
      if page == [] then [] else page + Follow(find, key, Some(key(page[|page| - 1])), pages - 1)
  }

  lemma KeptSame<T>(xs: seq<T>, p: T -> bool, q: T -> bool)
    requires forall x :: x in xs ==> p(x) == q(x)
    ensures Kept(xs, p) == Kept(xs, q)
  {
    if xs != [] {
      KeptSame(xs[..|xs| - 1], p, q);
    }
  }

  lemma KeptSound<T>(xs: seq<T>, p: T -> bool)
    ensures forall x :: x in Kept(xs, p) <==> x in xs && p(x)
  {
    if xs != [] {
      KeptSound(xs[..|xs| - 1], p);
      assert xs == xs[..|xs| - 1] + [xs[|xs| - 1]];
    }
  }

  lemma {:induction false} KeptDirected<T(!new)>(xs: seq<T>, p: T -> bool, key: T -> int, order: Order)
    requires Directed(xs, key, order)
    ensures Directed(Kept(xs, p), key, order)
  {
    if xs != [] {
      var front, x := xs[..|xs| - 1], xs[|xs| - 1];
      KeptDirected(front, p, key, order);
      KeptSound(front, p);
      forall y | y in Kept(front, p)
        ensures if order.OldestFirst? then key(y) < key(x) else key(y) > key(x)
      {
        var i :| 0 <= i < |front| && front[i] == y;
        assert xs[i] == y;
      }
    }
  }

  lemma PastLast<T>(xs: seq<T>, key: T -> int, order: Order, c: Option<int>)
    requires xs != []
    ensures var x := xs[|xs| - 1];
            Past(xs, key, order, c) ==
            if Beyond(key(x), order, c) then Past(xs[..|xs| - 1], key, order, c) + [x]
            else Past(xs[..|xs| - 1], key, order, c)
  {
  }

  /** In a directed list, what lies past a cursor is a suffix. */
  lemma {:induction false} PastIsSuffix<T(!new)>(xs: seq<T>, key: T -> int, order: Order, c: Option<int>)
    returns (k: nat)
    requires Directed(xs, key, order)
    ensures k <= |xs| && Past(xs, key, order, c) == xs[k..]
    ensures 0 < k ==> !Beyond(key(xs[k - 1]), order, c)
    ensures k < |xs| ==> Beyond(key(xs[k]), order, c)
  {
    if xs == [] {
      k := 0;
    } else {
      var n := |xs| - 1;
      PastLast(xs, key, order, c);
      k := PastIsSuffix(xs[..n], key, order, c);
      if Beyond(key(xs[n]), order, c) {
        assert xs[k..] == xs[..n][k..] + [xs[n]];
      } else {
        k := n + 1;
      }
    }
  }

  /** A page is the next slice of the list, and the list past it follows it. */
  lemma PageThenRest<T(!new)>(all: seq<T>, key: T -> int, order: Order, c: Option<int>, limit: int)
    requires Directed(all, key, order) && limit > 0
    ensures var page := UpTo(Past(all, key, order, c), Some(limit));
            && (page == [] ==> Past(all, key, order, c) == [])
            && (page != [] ==>
                  && key(page[|page| - 1]) > 0
                  && Past(all, key, order, c) == page + Past(all, key, order, Some(key(page[|page| - 1]))))
  {
    var k := PastIsSuffix(all, key, order, c);
    var page := UpTo(all[k..], Some(limit));
    PageIsSlice(all, k, limit);
    if page != [] {
      PastPage(all, key, order, k + |page|);
    }
  }

  lemma PageIsSlice<T>(all: seq<T>, k: nat, limit: int)
    requires k <= |all| && limit > 0
    ensures var page := UpTo(all[k..], Some(limit));
            && (page == [] ==> all[k..] == [])
            && k + |page| <= |all| && all[k..] == page + all[k + |page|..]
            && (page != [] ==> page[|page| - 1] == all[k + |page| - 1])
  {
  }

  /** Past the key of the n-th element comes the rest of the list. */
  lemma PastPage<T(!new)>(all: seq<T>, key: T -> int, order: Order, n: nat)
    requires Directed(all, key, order) && 0 < n <= |all|
    ensures Past(all, key, order, Some(key(all[n - 1]))) == all[n..]
  {
    var k := PastIsSuffix(all, key, order, Some(key(all[n - 1])));
  }

  ghost predicate PagesOf<T(!new)>(find: Option<int> -> seq<T>, all: seq<T>, key: T -> int, order: Order, limit: int) {
    forall d: Option<int> ::
      (d.Some? ==> d.value >= 0) ==> find(d) == UpTo(Past(all, key, order, d), Some(limit))
  }

  lemma {:induction false} FollowRest<T(!new)>(
    find: Option<int> -> seq<T>, all: seq<T>, key: T -> int, order: Order, limit: int, c: Option<int>, pages: nat)
    requires limit > 0 && Directed(all, key, order) && PagesOf(find, all, key, order, limit)
    requires c.Some? ==> c.value >= 0
    requires pages >= |Past(all, key, order, c)|
    ensures Follow(find, key, c, pages) == Past(all, key, order, c)
    decreases pages
  {
    PageThenRest(all, key, order, c, limit);
    var page := find(c);
    if page != [] {
      FollowRest(find, all, key, order, limit, Some(key(page[|page| - 1])), pages - 1);
    }
  }

  lemma {:induction false} KeptAll<T>(xs: seq<T>, p: T -> bool)
    requires forall x :: x in xs ==> p(x)
    ensures Kept(xs, p) == xs
  {
    if xs != [] {
      KeptAll(xs[..|xs| - 1], p);
    }
  }

  /** Following the cursor with any positive limit collects a directed list exactly. */
  lemma FollowAll<T(!new)>(
    find: Option<int> -> seq<T>, all: seq<T>, key: T -> int, order: Order, limit: int, pages: nat)
    requires limit > 0 && Directed(all, key, order) && pages >= |all|
    requires PagesOf(find, all, key, order, limit)
    ensures Follow(find, key, None, pages) == all
  {
    KeptAll(all, PastSeq(key, order, None));
    FollowRest(find, all, key, order, limit, None, pages);
  }

  function PageOf<T>(r: Result<seq<T>, SessionError>): seq<T> {
    if r.Ok? then r.value else []
  }

  lemma SelectIsPast(xs: seq<Entry>, q: EntryQuery)
    ensures Kept(xs, Matching(q)) == Past(Kept(xs, OfQueryKind(q)), EntryKey, q.order, q.afterSeq)
  {
    forall e | e in xs
      ensures Matching(q)(e) == (OfQueryKind(q)(e) && PastSeq(EntryKey, q.order, q.afterSeq)(e))
    {
      assert EntryKey(e) == e.seqNo;
    }
  }

  function At(q: EntryQuery, c: Option<int>, limit: Option<int>): EntryQuery {
    q.(afterSeq := c, limit := limit)
  }

  lemma SelectIsPaged(xs: seq<Entry>, q: EntryQuery, c: Option<int>, limit: Option<int>)
    ensures Select(xs, At(q, c, limit)) == UpTo(Past(Kept(xs, OfQueryKind(q)), EntryKey, q.order, c), limit)
  {
    SelectIsPast(xs, At(q, c, limit));
    KeptSame(xs, OfQueryKind(At(q, c, limit)), OfQueryKind(q));
  }

  /** Any query that selects from a directed list, page by page, yields the unpaged
      selection. */
  lemma SelectPages(find: Option<int> -> seq<Entry>, xs: seq<Entry>, q: EntryQuery, limit: int, pages: nat)
    requires Directed(xs, EntryKey, q.order) && limit > 0
    requires forall c: Option<int> :: (c.Some? ==> c.value >= 0) ==> find(c) == Select(xs, At(q, c, Some(limit)))
    requires pages >= |Select(xs, At(q, None, None))|
    ensures Follow(find, EntryKey, None, pages) == Select(xs, At(q, None, None))
  {
    var all := Kept(xs, OfQueryKind(q));
    KeptDirected(xs, OfQueryKind(q), EntryKey, q.order);
    forall c: Option<int> | c.Some? ==> c.value >= 0
      ensures find(c) == UpTo(Past(all, EntryKey, q.order, c), Some(limit))
    {
      SelectIsPaged(xs, q, c, Some(limit));
    }
    SelectIsPaged(xs, q, None, None);
    KeptAll(all, PastSeq(EntryKey, q.order, None));
    FollowAll(find, all, EntryKey, q.order, limit, pages);
  }

  lemma EntriesDirected(s: State)
    requires WellFormed(s)
    ensures Directed(s.entries, EntryKey, OldestFirst)
  {
    forall i | 0 <= i < |s.entries| ensures EntryKey(s.entries[i]) > 0 {
      assert Grounded(s.entriesById, s.entries[i].id);
    }
  }

  lemma UntilStopIsPrefix(xs: seq<Entry>, b: Bounds)
    ensures UntilStop(xs, b) <= xs
  {
    if xs != [] && !Stops(xs[0], b) {
      UntilStopIsPrefix(xs[1..], b);
    }
  }

  lemma PathDirected(byId: map<Id, Entry>, start: Id)
    requires Rooted(byId) && start in byId
    ensures Directed(PathUp(byId, start), EntryKey, NewestFirst)
  {
    var up := PathUp(byId, start);
    forall i | 0 <= i < |up| ensures EntryKey(up[i]) > 0 {
      assert Grounded(byId, up[i].id);
    }
  }

  lemma BranchWalkDirected(s: State, start: Id, order: Order, b: Bounds)
    requires Rooted(s.entriesById) && start in s.entriesById
    ensures Directed(BranchWalk(s, start, order, b), EntryKey, order)
  {
    var up := PathUp(s.entriesById, start);
    PathDirected(s.entriesById, start);
    var walk := if order.OldestFirst? then Reverse(up) else up;
    UntilStopIsPrefix(walk, b);
  }

  function EntryPager(s: State, q: EntryQuery, limit: int): Option<int> -> seq<Entry> {
    (c: Option<int>) => PageOf(FindEntries(s, At(q, c, Some(limit))))
  }

  /** Paging `findEntries`, in either order and with any filter, loses and repeats
      nothing. */
  lemma FindEntriesPages(s: State, q: EntryQuery, limit: int, pages: nat)
    requires WellFormed(s) && limit > 0
    requires pages >= |s.entries|
    ensures FindEntries(s, At(q, None, None)) == Ok(Follow(EntryPager(s, q, limit), EntryKey, None, pages))
  {
    var xs := InOrder(s.entries, q.order);
    EntriesDirected(s);
    KeptShorter(xs, Matching(At(q, None, None)));
    SelectPages(EntryPager(s, q, limit), xs, q, limit, pages);
  }

  lemma KeptShorter<T>(xs: seq<T>, p: T -> bool)
    ensures |Kept(xs, p)| <= |xs|
  {
    if xs != [] {
      KeptShorter(xs[..|xs| - 1], p);
    }
  }

  function BranchPager(s: State, start: Id, q: EntryQuery, b: Bounds, limit: int): Option<int> -> seq<Entry>
    requires Rooted(s.entriesById)
  {
    (c: Option<int>) requires Rooted(s.entriesById) => PageOf(FindEntriesOnBranch(s, start, At(q, c, Some(limit)), b))
  }

  /** Paging a branch query loses and repeats nothing, in either order, whatever the
      filter and the stop bounds. */
  lemma FindEntriesOnBranchPages(s: State, start: Id, q: EntryQuery, b: Bounds, limit: int, pages: nat)
    requires WellFormed(s) && start in s.entriesById && limit > 0
    requires pages >= |BranchWalk(s, start, q.order, b)|
    ensures FindEntriesOnBranch(s, start, At(q, None, None), b)
            == Ok(Follow(BranchPager(s, start, q, b, limit), EntryKey, None, pages))
  {
    var xs := BranchWalk(s, start, q.order, b);
    BranchWalkDirected(s, start, q.order, b);
    KeptShorter(xs, Matching(At(q, None, None)));
    SelectPages(BranchPager(s, start, q, b, limit), xs, q, limit, pages);
  }

  function LogPager(s: State, limit: int): Option<int> -> seq<LogItem> {
    (c: Option<int>) => PageOf(GetLog(s, c, Some(limit)))
  }

  /** Paging `getLog` yields the whole log. */
  lemma GetLogPages(s: State, limit: int, pages: nat)
    requires WellFormed(s) && limit > 0 && pages >= |s.log|
    ensures Follow(LogPager(s, limit), ItemKey, None, pages) == s.log
    ensures GetLog(s, None, None) == Ok(s.log)
  {
    KeptAll(s.log, PastSeq(ItemKey, OldestFirst, None));
    FollowAll(LogPager(s, limit), s.log, ItemKey, OldestFirst, limit, pages);
  }

  // ------------------------------------------------------ catch-up reads

  datatype CatchUp = CatchUp(entries: seq<Entry>, tailSeq: int)

  function EntriesOf(log: seq<LogItem>): seq<Entry> {
    if log == [] then []
    else if log[|log| - 1].EntryItem? then EntriesOf(log[..|log| - 1]) + [log[|log| - 1].entry]
    else EntriesOf(log[..|log| - 1])
  }

  /** `getEntries` of the session host: the entries past a sequence number and the
      number the caller should ask from next. */
  function GetEntries(s: State, since: Option<int>): Result<CatchUp, SessionError> {
    var log :- GetLog(s, since, None);
    Ok(CatchUp(EntriesOf(log), if log == [] then since.GetOr(0) else log[|log| - 1].seqNo))
  }

  function LogTail(s: State, n: int): seq<LogItem>
    requires n >= 0
  {
    if n <= |s.log| then s.log[n..] else []
  }

  lemma GetLogIsTail(s: State, since: Option<int>)
    requires LogNumbered(s) && (since.Some? ==> since.value >= 0)
    ensures GetLog(s, since, None) == Ok(LogTail(s, since.GetOr(0)))
  {
    var k := PastIsSuffix(s.log, ItemKey, OldestFirst, since);
  }

  /** A catch-up read from `n` reports the larger of `n` and the current sequence
      number as its tail, so the tail is current exactly when the caller did not ask
      past it. */
  lemma CatchUpTail(s: State, since: Option<int>)
    requires LogNumbered(s) && (since.Some? ==> since.value >= 0)
    ensures var n := since.GetOr(0);
            && GetEntries(s, since) == Ok(CatchUp(EntriesOf(LogTail(s, n)), if n <= s.sequence then s.sequence else n))
            && (GetEntries(s, since).value.tailSeq == s.sequence <==> n <= s.sequence)
  {
    GetLogIsTail(s, since);
  }
}
