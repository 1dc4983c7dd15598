/** Which entries the entry queries answer with, said entry by entry. */
module QueryAnswers {
  import opened Wrappers
  import opened SessionTypes
  import opened Trail
  import opened Queries

  /** In the reading direction, a number comes before another. */
  predicate Before(a: int, b: int, order: Order) {
    match order
    case OldestFirst => a < b
    case NewestFirst => a > b
  }

  /** An entry the query asks for: of its type and custom type, and past its cursor. */
  ghost predicate Wanted(e: Entry, q: EntryQuery) {
    && (q.entryType == None || q.entryType == Some(e.body.Type()))
    && (q.customType == None || (e.body.Custom? && q.customType == Some(e.body.customType)))
    && (q.afterSeq == None || Before(q.afterSeq.value, e.seqNo, q.order))
  }

  ghost predicate InDirection(es: seq<Entry>, order: Order) {
    forall i, j :: 0 <= i < j < |es| ==> Before(es[i].seqNo, es[j].seqNo, order)
  }

  /** An entry that was asked for is missing only because the page is full of entries that
      come before it. */
  ghost predicate LeftForLater(e: Entry, found: seq<Entry>, q: EntryQuery) {
    q.limit == Some(|found|) && forall i :: 0 <= i < |found| ==> Before(found[i].seqNo, e.seqNo, q.order)
  }

  /** The answer to a query over some entries: each one wanted, in the reading direction,
      no more than the limit, and whatever else is wanted comes after a full page. */
  ghost predicate Answer(found: seq<Entry>, among: seq<Entry>, q: EntryQuery) {
    && (forall e :: e in found ==> e in among && Wanted(e, q))
    && InDirection(found, q.order)
    && (q.limit.Some? ==> |found| <= q.limit.value)
    && (forall e :: e in among && Wanted(e, q) && e !in found ==> LeftForLater(e, found, q))
  }

  lemma DirectedInDirection(xs: seq<Entry>, order: Order)
    requires Directed(xs, EntryKey, order)
    ensures InDirection(xs, order)
  {
    forall i, j | 0 <= i < j < |xs| ensures Before(xs[i].seqNo, xs[j].seqNo, order) {
      assert EntryKey(xs[i]) == xs[i].seqNo && EntryKey(xs[j]) == xs[j].seqNo;
    }
  }

  lemma PageOfMatches(all: seq<Entry>, found: seq<Entry>, q: EntryQuery, e: Entry)
    requires InDirection(all, q.order) && found == UpTo(all, q.limit)
    requires e in all && e !in found && ValidPaging(q.afterSeq, q.limit)
    ensures LeftForLater(e, found, q)
  {
    var k :| 0 <= k < |all| && all[k] == e;
    assert found <= all && (found == all || k >= |found|);
  }

  lemma SelectAnswers(xs: seq<Entry>, q: EntryQuery)
    requires Directed(xs, EntryKey, q.order) && ValidPaging(q.afterSeq, q.limit)
    ensures Answer(Select(xs, q), xs, q)
  {
    var all, found := Kept(xs, Matching(q)), Select(xs, q);
    KeptSound(xs, Matching(q));
    KeptDirected(xs, Matching(q), EntryKey, q.order);
    DirectedInDirection(all, q.order);
    forall e ensures Matching(q)(e) <==> Wanted(e, q) {
    }
    forall e | e in found ensures e in all {
      var k :| 0 <= k < |found| && found[k] == e;
      assert all[k] == e;
    }
    forall e | e in all && e !in found ensures LeftForLater(e, found, q) {
      PageOfMatches(all, found, q, e);
    }
  }

  lemma SameAnswer(found: seq<Entry>, a: seq<Entry>, b: seq<Entry>, q: EntryQuery)
    requires Answer(found, a, q) && forall e :: e in a <==> e in b
    ensures Answer(found, b, q)
  {
  }

  lemma ReverseKeeps(xs: seq<Entry>)
    ensures forall e :: e in Reverse(xs) <==> e in xs
  {
    forall e | e in xs ensures e in Reverse(xs) {
      var k :| 0 <= k < |xs| && xs[k] == e;
      assert Reverse(xs)[|xs| - 1 - k] == e;
    }
  }

  lemma ReverseDirected(xs: seq<Entry>)
    requires Directed(xs, EntryKey, OldestFirst)
    ensures Directed(Reverse(xs), EntryKey, NewestFirst)
  {
  }

  lemma ReverseAscends(xs: seq<Entry>)
    requires Directed(xs, EntryKey, NewestFirst)
    ensures Directed(Reverse(xs), EntryKey, OldestFirst)
  {
  }

  /** `findEntries` refuses a bad cursor or limit, and otherwise answers the query over
      all entries of the session. */
  lemma FindEntriesExactly(s: State, q: EntryQuery)
    requires WellFormed(s)
    ensures var bad := (q.limit.Some? && q.limit.value <= 0) || (q.afterSeq.Some? && q.afterSeq.value < 0);
            if bad then FindEntries(s, q) == Err(InvalidQuery)
            else FindEntries(s, q).Ok? && Answer(FindEntries(s, q).value, s.entries, q)
  {
    if ValidPaging(q.afterSeq, q.limit) {
      var xs := InOrder(s.entries, q.order);
      EntriesDirected(s);
      ReverseKeeps(s.entries);
      if q.order.NewestFirst? {
        ReverseDirected(s.entries);
      }
      SelectAnswers(xs, q);
      SameAnswer(Select(xs, q), xs, s.entries, q);
    }
  }

  // ------------------------------------------------------------- branches

  /** The entry is one of the two a branch query may stop at. */
  ghost predicate Bound(e: Entry, b: Bounds) {
    || (b.stopAtId.Some? && b.stopAtId.value == e.id)
    || (b.stopAtType.Some? && b.stopAtType.value == e.body.Type())
  }

  /** The walk gets to the entry: it is on the path from the start to the root, and no
      bound on that path comes before it in the reading direction. The bound itself is
      read. */
  ghost predicate Reached(path: seq<Entry>, order: Order, b: Bounds, e: Entry) {
    e in path && forall f :: f in path && Bound(f, b) ==> !Before(f.seqNo, e.seqNo, order)
  }

  lemma {:induction false} UntilStopReaches(xs: seq<Entry>, order: Order, b: Bounds, e: Entry)
    requires InDirection(xs, order)
    ensures e in UntilStop(xs, b) <==> Reached(xs, order, b, e)
  {
    if xs != [] {
      var rest := xs[1..];
      assert xs == [xs[0]] + rest;
      if Stops(xs[0], b) {
        assert Bound(xs[0], b);
      } else {
        assert !Bound(xs[0], b);
        UntilStopReaches(rest, order, b, e);
        if e in rest {
          var k :| 0 <= k < |rest| && rest[k] == e;
          assert xs[k + 1] == e;
        }
        forall f | f in rest ensures Before(xs[0].seqNo, f.seqNo, order) {
          var k :| 0 <= k < |rest| && rest[k] == f;
          assert xs[k + 1] == f;
        }
      }
    }
  }

  ghost predicate BranchAnswer(found: seq<Entry>, path: seq<Entry>, q: EntryQuery, b: Bounds) {
    && (forall e :: e in found ==> Reached(path, q.order, b, e) && Wanted(e, q))
    && InDirection(found, q.order)
    && (q.limit.Some? ==> |found| <= q.limit.value)
    && (forall e :: Reached(path, q.order, b, e) && Wanted(e, q) && e !in found ==> LeftForLater(e, found, q))
  }

  lemma SelectAnswersBranch(walk: seq<Entry>, path: seq<Entry>, q: EntryQuery, b: Bounds)
    requires Directed(walk, EntryKey, q.order) && ValidPaging(q.afterSeq, q.limit)
    requires forall e :: e in walk <==> e in path
    ensures BranchAnswer(Select(UntilStop(walk, b), q), path, q, b)
  {
    var read := UntilStop(walk, b);
    DirectedInDirection(walk, q.order);
    UntilStopIsPrefix(walk, b);
    SelectAnswers(read, q);
    forall e ensures e in read <==> Reached(path, q.order, b, e) {
      UntilStopReaches(walk, q.order, b, e);
    }
  }

  /** `findEntriesOnBranch` refuses a bad cursor or limit and an unknown start, and
      otherwise answers the query over the part of the start's path to the root that its
      bounds let it read. */
  lemma FindEntriesOnBranchExactly(s: State, start: Id, q: EntryQuery, b: Bounds)
    requires WellFormed(s)
    ensures var bad := (q.limit.Some? && q.limit.value <= 0) || (q.afterSeq.Some? && q.afterSeq.value < 0);
            var r := FindEntriesOnBranch(s, start, q, b);
            && (bad ==> r == Err(InvalidQuery))
            && (!bad && start !in s.entriesById ==> r == Err(NotFound))
            && (!bad && start in s.entriesById ==>
                  r.Ok? && BranchAnswer(r.value, PathUp(s.entriesById, start), q, b))
  {
    if ValidPaging(q.afterSeq, q.limit) && start in s.entriesById {
      var path := PathUp(s.entriesById, start);
      PathDirected(s.entriesById, start);
      ReverseKeeps(path);
      ReverseAscends(path);
      var walk := if q.order.OldestFirst? then Reverse(path) else path;
      SelectAnswersBranch(walk, path, q, b);
    }
  }
}
