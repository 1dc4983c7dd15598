/** Sorting listed records by the number in their key, as `load` does. */
module LoadOrder {
  import opened Keys
  import opened Store

  datatype LogRecord = LogRecord(seqNo: nat, doc: Doc)

  function Insert(records: seq<LogRecord>, r: LogRecord): seq<LogRecord> {
    if records == [] || records[|records| - 1].seqNo < r.seqNo then records + [r]
    else Insert(records[..|records| - 1], r) + [records[|records| - 1]]
  }

  function Numbers(records: seq<LogRecord>): seq<nat> {
    seq(|records|, i requires 0 <= i < |records| => records[i].seqNo)
  }

  lemma {:induction false} InsertMembers(records: seq<LogRecord>, r: LogRecord)
    ensures forall x :: x in Insert(records, r) <==> x in records || x == r
  {
    if !(records == [] || records[|records| - 1].seqNo < r.seqNo) {
      InsertMembers(records[..|records| - 1], r);
      assert records == records[..|records| - 1] + [records[|records| - 1]];
    }
  }

  lemma {:induction false} InsertSorted(records: seq<LogRecord>, r: LogRecord)
    requires Ascending(Numbers(records)) && (forall x :: x in records ==> x.seqNo != r.seqNo)
    ensures Ascending(Numbers(Insert(records, r)))
  {
    if records == [] || records[|records| - 1].seqNo < r.seqNo {
      forall i | 0 <= i < |records| ensures records[i].seqNo < r.seqNo {
        assert i < |records| - 1 ==> Numbers(records)[i] < Numbers(records)[|records| - 1];
      }
      assert Numbers(records + [r]) == Numbers(records) + [r.seqNo];
    } else {
      var front, last := records[..|records| - 1], records[|records| - 1];
      assert last in records;
      forall i, j | 0 <= i < j < |front| ensures Numbers(front)[i] < Numbers(front)[j] {
        assert Numbers(records)[i] < Numbers(records)[j];
      }
      forall x | x in front ensures x in records && x.seqNo < last.seqNo {
        var i :| 0 <= i < |front| && front[i] == x;
        assert records[i] == x && Numbers(records)[i] < Numbers(records)[|records| - 1];
      }
      InsertSorted(front, r);
      InsertMembers(front, r);
      var all := Insert(records, r);
      forall i, j | 0 <= i < j < |all| ensures Numbers(all)[i] < Numbers(all)[j] {
        assert Insert(front, r)[i] in Insert(front, r);
        if j < |all| - 1 {
          assert Numbers(Insert(front, r))[i] < Numbers(Insert(front, r))[j];
        }
      }
    }
  }

  /** The records gathered from the first `i` items of a listing. */
  ghost predicate Gathered(records: seq<LogRecord>, listing: seq<KeyDoc>, i: nat, id: string) {
    && Ascending(Numbers(records))
    && (forall r :: r in records <==> ListedBefore(r, listing, i, id))
  }

  ghost predicate ListedBefore(r: LogRecord, listing: seq<KeyDoc>, i: nat, id: string) {
    exists j :: 0 <= j < i <= |listing| && listing[j] == KeyDoc(KeyOf(id, r.seqNo), r.doc) && !r.doc.Corrupt?
  }

  lemma TakeStep(records: seq<LogRecord>, listing: seq<KeyDoc>, i: nat, id: string, n: nat)
    requires i < |listing| && Gathered(records, listing, i, id)
    requires listing[i].key == KeyOf(id, n) && !listing[i].doc.Corrupt?
    requires forall j :: 0 <= j < i ==> listing[j].key != listing[i].key
    ensures Gathered(Insert(records, LogRecord(n, listing[i].doc)), listing, i + 1, id)
  {
    var taken := LogRecord(n, listing[i].doc);
    InsertMembers(records, taken);
    forall r | r in records ensures r.seqNo != n {
      assert ListedBefore(r, listing, i, id);
    }
    InsertSorted(records, taken);
    forall r ensures r in Insert(records, taken) <==> ListedBefore(r, listing, i + 1, id) {
      if listing[i] == KeyDoc(KeyOf(id, r.seqNo), r.doc) {
        KeyOfInjective(id, r.seqNo, n);
      }
    }
  }

  /** A whole listing, in whatever order, gathers the readable records by number. */
  lemma GatheredAll(records: seq<LogRecord>, listing: seq<KeyDoc>, data: Data, id: string)
    requires IsListing(listing, data, SessionPrefix(id)) && Gathered(records, listing, |listing|, id)
    ensures AreNumbers(Numbers(records), data, id) && InStore(Numbers(records), data, id)
    ensures forall i :: 0 <= i < |records| ==> data[KeyOf(id, Numbers(records)[i])] == records[i].doc
  {
    forall i | 0 <= i < |records|
      ensures KeyOf(id, records[i].seqNo) in data && data[KeyOf(id, records[i].seqNo)] == records[i].doc
      ensures !records[i].doc.Corrupt?
    {
      assert records[i] in records;
      var j :| 0 <= j < |listing| && listing[j] == KeyDoc(KeyOf(id, records[i].seqNo), records[i].doc)
               && !records[i].doc.Corrupt?;
      assert listing[j] in listing;
    }
    forall n: nat | Readable(data, id, n) ensures n in Numbers(records) {
      var x := KeyDoc(KeyOf(id, n), data[KeyOf(id, n)]);
      assert x in listing;
      var j :| 0 <= j < |listing| && listing[j] == x;
      assert ListedBefore(LogRecord(n, x.doc), listing, |listing|, id);
      var i :| 0 <= i < |records| && records[i] == LogRecord(n, x.doc);
      assert Numbers(records)[i] == n;
    }
  }
}
