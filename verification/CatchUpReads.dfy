/** What a console that catches up receives: the entries written since it last read. */
module CatchUpReads {
  import opened Wrappers
  import opened SessionTypes
  import opened Trail
  import opened Queries
  import TrailIndexes

  /** The mutations past a sequence number. */
  function Later(ms: seq<Mutation>, n: int): seq<Mutation>
    requires n >= 0
  {
    if n <= |ms| then ms[n..] else []
  }

  /** The entries written by a part of the log, read off its items. */
  lemma {:induction false} ItemsHoldEntries(log: seq<LogItem>, ms: seq<Mutation>)
    requires |log| == |ms| && forall i :: 0 <= i < |ms| ==> log[i] == ItemOf(ms[i])
    ensures EntriesOf(log) == TrailIndexes.EntriesIn(ms)
  {
    if ms != [] {
      ItemsHoldEntries(log[..|log| - 1], Front(ms));
      assert log[|log| - 1] == ItemOf(Last(ms));
    }
  }

  lemma {:induction false} EntriesInConcat(a: seq<Mutation>, b: seq<Mutation>)
    ensures TrailIndexes.EntriesIn(a + b) == TrailIndexes.EntriesIn(a) + TrailIndexes.EntriesIn(b)
  {
    if b == [] {
      assert a + b == a;
    } else {
      EntriesInConcat(a, Front(b));
      assert Front(a + b) == a + Front(b);
    }
  }

  ghost predicate AllPast(es: seq<Entry>, n: int) {
    forall i :: 0 <= i < |es| ==> es[i].seqNo > n
  }

  ghost predicate AllUpTo(es: seq<Entry>, n: int) {
    forall i :: 0 <= i < |es| ==> es[i].seqNo <= n
  }

  /** The part of a list past a number: the rest of it comes before and is not past it. */
  ghost predicate IsPast(part: seq<Entry>, all: seq<Entry>, n: int) {
    exists before :: all == before + part && AllUpTo(before, n) && AllPast(part, n)
  }

  ghost predicate NumberedFrom(ms: seq<Mutation>, base: int) {
    forall i :: 0 <= i < |ms| ==> SeqOf(ms[i]) == base + i + 1
  }

  lemma NumberedParts(ms: seq<Mutation>, base: int, k: nat)
    requires NumberedFrom(ms, base) && k <= |ms|
    ensures NumberedFrom(ms[..k], base) && NumberedFrom(ms[k..], base + k)
  {
  }

  lemma {:induction false} EntriesNumbered(ms: seq<Mutation>, base: int, n: int)
    requires NumberedFrom(ms, base)
    ensures base >= n ==> AllPast(TrailIndexes.EntriesIn(ms), n)
    ensures base + |ms| <= n ==> AllUpTo(TrailIndexes.EntriesIn(ms), n)
  {
    if ms != [] {
      NumberedParts(ms, base, |ms| - 1);
      EntriesNumbered(Front(ms), base, n);
    }
  }

  lemma LaterEntries(ms: seq<Mutation>, n: int)
    requires n >= 0 && NumberedFrom(ms, 0)
    ensures IsPast(TrailIndexes.EntriesIn(Later(ms, n)), TrailIndexes.EntriesIn(ms), n)
  {
    var k := if n <= |ms| then n else |ms|;
    var before, later := ms[..k], ms[k..];
    assert before + later == ms;
    assert Later(ms, n) == later;
    NumberedParts(ms, 0, k);
    EntriesInConcat(before, later);
    EntriesNumbered(before, 0, n);
    EntriesNumbered(later, k, n);
  }

  /** The answer of a catch-up read: the entries past the cursor, which are those the later
      mutations of the log wrote, and as its tail the larger of the cursor and the current
      number. */
  ghost predicate CatchesUp(r: CatchUp, ms: seq<Mutation>, entries: seq<Entry>, n: int)
    requires n >= 0
  {
    && IsPast(r.entries, entries, n)
    && r.entries == TrailIndexes.EntriesIn(Later(ms, n))
    && r.tailSeq == if n <= |ms| then |ms| else n
  }

  /** A catch-up read refuses a negative cursor and nothing else. Otherwise it answers with
      exactly the entries whose number lies past the cursor, in the order they were written
      and each once; its tail is current exactly when the cursor is not past it. */
  lemma CatchUpExactly(ms: seq<Mutation>, since: Option<int>)
    requires Replay(ms).Ok?
    ensures var s, n := Replay(ms).value, since.GetOr(0);
            var r := GetEntries(s, since);
            && (n < 0 ==> r == Err(InvalidQuery))
            && (n >= 0 ==>
                  && r.Ok? && CatchesUp(r.value, ms, s.entries, n)
                  && (r.value.tailSeq == s.sequence <==> n <= s.sequence))
  {
    var s, n := Replay(ms).value, since.GetOr(0);
    if n >= 0 {
      InitWellFormed();
      ReplayKeepsWellFormed(INIT, ms);
      CatchUpTail(s, since);
      TrailIndexes.IndexesEqualScan(ms);
      assert NumberedFrom(ms, 0);
      ItemsHoldEntries(LogTail(s, n), Later(ms, n));
      LaterEntries(ms, n);
    }
  }

  /** Reading again from the tail of an earlier read, however much the log has grown,
      gives the entries that are new: together the two reads hold every entry past the
      first cursor, once and in order. */
  lemma CatchUpComposes(ms: seq<Mutation>, more: seq<Mutation>, since: Option<int>)
    requires Replay(ms + more).Ok? && (since.Some? ==> since.value >= 0)
    ensures Replay(ms).Ok?
    ensures var t, n := Replay(ms + more).value, since.GetOr(0);
            var first := GetEntries(Replay(ms).value, since);
            && first.Ok?
            && var second := GetEntries(t, Some(first.value.tailSeq));
               && second.Ok?
               && IsPast(first.value.entries + second.value.entries, t.entries, n)
               && (n <= |ms| ==> second.value.entries == TrailIndexes.EntriesIn(more))
               && second.value.tailSeq == (if n <= |ms + more| then |ms + more| else n)
  {
    var n := since.GetOr(0);
    var tail := if n <= |ms| then |ms| else n;
    ReplayConcat(INIT, ms, more);
    CatchUpExactly(ms, since);
    CatchUpExactly(ms + more, Some(tail));
    CatchUpExactly(ms + more, since);
    LaterGrows(ms, more, n);
  }

  lemma LaterGrows(ms: seq<Mutation>, more: seq<Mutation>, n: int)
    requires n >= 0
    ensures var tail := if n <= |ms| then |ms| else n;
            && TrailIndexes.EntriesIn(Later(ms + more, n))
               == TrailIndexes.EntriesIn(Later(ms, n)) + TrailIndexes.EntriesIn(Later(ms + more, tail))
            && (n <= |ms| ==> Later(ms + more, tail) == more)
  {
    if n <= |ms| {
      EntriesInConcat(Later(ms, n), more);
      assert Later(ms + more, n) == Later(ms, n) + more;
      assert Later(ms + more, |ms|) == more;
    }
  }
}
