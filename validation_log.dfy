/** The validator's error log (`DataValidator.validation_errors`) and the summary computed from it
    by `get_validation_summary`, `_group_errors_by_source` and `_get_common_errors`. */
module ValidationLog {
  import opened Wrappers

  /** One pydantic error dict; `msg` may be absent. */
  datatype ErrorDetail = ErrorDetail(msg: Option<string>)

  /** One logged entry: the source it came from and its error dicts. */
  datatype ErrorEntry = ErrorEntry(source: string, errors: seq<ErrorDetail>)

  /** `get_validation_summary()`'s dict. */
  datatype Summary = Summary(totalErrors: nat, errorsBySource: map<string, nat>, commonErrors: seq<(string, nat)>)

  const UnknownError := "Unknown error"

  // ----- errors_by_source -----

  /** How many entries came from source `s`. */
  function CountSource(entries: seq<ErrorEntry>, s: string): nat {
    if entries == [] then 0
    else CountSource(entries[..|entries| - 1], s) + (if entries[|entries| - 1].source == s then 1 else 0)
  }

  /** `source_errors[source] = source_errors.get(source, 0) + 1` for one more entry. */
  function Increment(m: map<string, nat>, k: string): map<string, nat> {
    m[k := (if k in m then m[k] else 0) + 1]
  }

  /** The dictionary `_group_errors_by_source` fills, entry by entry. */
  function SourceCounts(entries: seq<ErrorEntry>): map<string, nat> {
    if entries == [] then map[]
    else Increment(SourceCounts(entries[..|entries| - 1]), entries[|entries| - 1].source)
  }

  /** Its keys are exactly the sources that occur, and each maps to that source's number of entries. */
  lemma {:induction false} SourceCountsCorrect(entries: seq<ErrorEntry>)
    ensures forall s :: s in SourceCounts(entries) <==> exists e :: e in entries && e.source == s
    ensures forall s :: (if s in SourceCounts(entries) then SourceCounts(entries)[s] else 0) == CountSource(entries, s)
  {
    if entries != [] {
      var init := entries[..|entries| - 1];
      var last := entries[|entries| - 1];
      SourceCountsCorrect(init);
      assert entries == init + [last];
      forall s ensures s in SourceCounts(entries) <==> exists e :: e in entries && e.source == s {
        if s in SourceCounts(init) {
          var e :| e in init && e.source == s;
          assert e in entries;
        }
      }
    }
  }

  /** Some key of a non-empty map. */
  ghost function AnyKey(m: map<string, nat>): (k: string)
    requires m != map[]
    ensures k in m
  {
    var k :| k in m.Keys; k
  }

  /** The sum of a map's values. */
  ghost function MapTotal(m: map<string, nat>): nat
    decreases m.Keys
  {
    if m == map[] then 0
    else
      var k := AnyKey(m);
      m[k] + MapTotal(m - {k})
  }

  /** The sum can be taken starting from any key. */
  lemma MapTotalRemove(m: map<string, nat>, k: string)
    requires k in m
    ensures MapTotal(m) == m[k] + MapTotal(m - {k})
    decreases m.Keys
  {
    var j := AnyKey(m);
    if j != k {
      MapTotalRemove(m - {j}, k);
      MapTotalRemove(m - {k}, j);
      assert m - {j} - {k} == m - {k} - {j};
    }
  }

  /** One more entry adds exactly one to the total. */
  lemma MapTotalIncrement(m: map<string, nat>, k: string)
    ensures MapTotal(Increment(m, k)) == MapTotal(m) + 1
  {
    var m' := Increment(m, k);
    MapTotalRemove(m', k);
    assert m' - {k} == m - {k};
    if k in m {
      MapTotalRemove(m, k);
    } else {
      assert m - {k} == m;
    }
  }

  /** `errors_by_source` counts add up to the number of logged entries. */
  lemma {:induction false} SourceCountsTotal(entries: seq<ErrorEntry>)
    ensures MapTotal(SourceCounts(entries)) == |entries|
  {
    if entries != [] {
      SourceCountsTotal(entries[..|entries| - 1]);
      MapTotalIncrement(SourceCounts(entries[..|entries| - 1]), entries[|entries| - 1].source);
    }
  }

  // ----- common_errors -----

  /** `validation_error.get('msg', 'Unknown error')`. */
  function MessageOf(d: ErrorDetail): string {
    match d.msg
    case Some(m) => m
    case None => UnknownError
  }

  function DetailMessages(ds: seq<ErrorDetail>): (ms: seq<string>)
    ensures |ms| == |ds|
    ensures forall k :: 0 <= k < |ds| ==> ms[k] == MessageOf(ds[k])
  {
    if ds == [] then [] else DetailMessages(ds[..|ds| - 1]) + [MessageOf(ds[|ds| - 1])]
  }

  /** Every message of every entry, in the order the nested loops visit them. */
  function Messages(entries: seq<ErrorEntry>): seq<string> {
    if entries == [] then []
    else Messages(entries[..|entries| - 1]) + DetailMessages(entries[|entries| - 1].errors)
  }

  /** The nested loops of `_get_common_errors` visit one more entry's messages after the earlier ones. */
  lemma MessagesStep(entries: seq<ErrorEntry>, i: nat)
    requires i < |entries|
    ensures Messages(entries[..i + 1]) == Messages(entries[..i]) + DetailMessages(entries[i].errors)
    ensures entries[i].errors[..|entries[i].errors|] == entries[i].errors
  {
    assert entries[..i + 1][..i] == entries[..i];
  }

  lemma DetailMessagesStart(before: seq<string>, ds: seq<ErrorDetail>)
    ensures before + DetailMessages(ds[..0]) == before
  {
    assert ds[..0] == [];
  }

  /** The inner loop visits one more detail's message. */
  lemma DetailMessagesStep(before: seq<string>, ds: seq<ErrorDetail>, j: nat)
    requires j < |ds|
    ensures before + DetailMessages(ds[..j + 1]) == (before + DetailMessages(ds[..j])) + [MessageOf(ds[j])]
  {
    assert ds[..j + 1][..j] == ds[..j];
  }

  /** `error_counts[error_msg] = error_counts.get(error_msg, 0) + 1` on an insertion-ordered dict,
      kept as a list of (message, count) pairs. */
  function Bump(counts: seq<(string, nat)>, m: string): seq<(string, nat)> {
    if counts == [] then [(m, 1)]
    else if counts[0].0 == m then [(m, counts[0].1 + 1)] + counts[1..]
    else [counts[0]] + Bump(counts[1..], m)
  }

  /** The dictionary `_get_common_errors` fills. */
  function Tally(msgs: seq<string>): seq<(string, nat)> {
    if msgs == [] then [] else Bump(Tally(msgs[..|msgs| - 1]), msgs[|msgs| - 1])
  }

  predicate DistinctKeys(counts: seq<(string, nat)>) {
    forall a, b :: 0 <= a < b < |counts| ==> counts[a].0 != counts[b].0
  }

  /** Counts keyed by distinct messages, each equal to how often its message occurs in `msgs`, with
      every message of `msgs` present. */
  predicate CountsOf(counts: seq<(string, nat)>, msgs: seq<string>) {
    DistinctKeys(counts) &&
    (forall k :: 0 <= k < |counts| ==> counts[k].1 == multiset(msgs)[counts[k].0] && counts[k].0 in msgs) &&
    (forall m :: m in msgs ==> exists k :: 0 <= k < |counts| && counts[k].0 == m)
  }

  lemma BumpCounts(counts: seq<(string, nat)>, msgs: seq<string>, m: string)
    requires CountsOf(counts, msgs)
    ensures CountsOf(Bump(counts, m), msgs + [m])
  {
    BumpShape(counts, m);
    BumpValues(counts, msgs, m);
    BumpCovers(counts, msgs, m);
  }

  /** After the bump every pair still carries its message's count. */
  lemma BumpValues(counts: seq<(string, nat)>, msgs: seq<string>, m: string)
    requires DistinctKeys(counts)
    requires forall k :: 0 <= k < |counts| ==> counts[k].1 == multiset(msgs)[counts[k].0] && counts[k].0 in msgs
    requires forall x :: x in msgs ==> exists k :: 0 <= k < |counts| && counts[k].0 == x
    ensures var r := Bump(counts, m);
      forall k :: 0 <= k < |r| ==> r[k].1 == multiset(msgs + [m])[r[k].0] && r[k].0 in msgs + [m]
  {
    var r := Bump(counts, m);
    var msgs' := msgs + [m];
    assert multiset(msgs') == multiset(msgs) + multiset{m};
    BumpShape(counts, m);
    forall k | 0 <= k < |r| ensures r[k].1 == multiset(msgs')[r[k].0] && r[k].0 in msgs' {
      if r[k].0 == m {
        if m in msgs {
          var j :| 0 <= j < |counts| && counts[j].0 == m;
          assert r[k] == (m, counts[j].1 + 1);
        }
      } else {
        var j :| 0 <= j < |counts| && counts[j] == r[k];
        assert multiset(msgs')[r[k].0] == multiset(msgs)[r[k].0];
      }
    }
  }

  /** After the bump every message, the new one included, has a pair. */
  lemma BumpCovers(counts: seq<(string, nat)>, msgs: seq<string>, m: string)
    requires DistinctKeys(counts)
    requires forall x :: x in msgs ==> exists k :: 0 <= k < |counts| && counts[k].0 == x
    ensures var r := Bump(counts, m);
      forall x :: x in msgs + [m] ==> exists k :: 0 <= k < |r| && r[k].0 == x
  {
    var r := Bump(counts, m);
    BumpShape(counts, m);
    var present := exists j :: 0 <= j < |counts| && counts[j].0 == m;
    forall x | x in msgs + [m] ensures exists k :: 0 <= k < |r| && r[k].0 == x {
      if x != m {
        var j :| 0 <= j < |counts| && counts[j].0 == x;
        assert r[j] == counts[j];
      } else if present {
        var j :| 0 <= j < |counts| && counts[j].0 == m;
        assert r[j].0 == m;
      } else {
        assert r[|counts|].0 == m;
      }
    }
  }

  /** `Bump` updates the entry of `m` in place, or appends `(m, 1)`, and keeps every other pair. */
  lemma BumpShape(counts: seq<(string, nat)>, m: string)
    requires DistinctKeys(counts)
    ensures DistinctKeys(Bump(counts, m))
    ensures (exists j :: 0 <= j < |counts| && counts[j].0 == m) ==>
      |Bump(counts, m)| == |counts| &&
      forall k :: 0 <= k < |counts| ==>
        Bump(counts, m)[k] == if counts[k].0 == m then (m, counts[k].1 + 1) else counts[k]
    ensures (forall j :: 0 <= j < |counts| ==> counts[j].0 != m) ==> Bump(counts, m) == counts + [(m, 1)]
  {
    if exists j :: 0 <= j < |counts| && counts[j].0 == m {
      var j :| 0 <= j < |counts| && counts[j].0 == m;
      BumpPresent(counts, m, j);
    } else {
      BumpAbsent(counts, m);
    }
    var r := Bump(counts, m);
    forall a, b | 0 <= a < b < |r| ensures r[a].0 != r[b].0 {
      if b < |counts| {
        assert r[a].0 == counts[a].0 && r[b].0 == counts[b].0;
      }
    }
  }

  /** A message already counted is bumped where it stands. */
  lemma {:induction false} BumpPresent(counts: seq<(string, nat)>, m: string, j: nat)
    requires DistinctKeys(counts) && j < |counts| && counts[j].0 == m
    ensures |Bump(counts, m)| == |counts|
    ensures forall k :: 0 <= k < |counts| ==>
      Bump(counts, m)[k] == if counts[k].0 == m then (m, counts[k].1 + 1) else counts[k]
  {
    var r := Bump(counts, m);
    var tail := counts[1..];
    if counts[0].0 == m {
      assert r == [(m, counts[0].1 + 1)] + tail;
      forall k | 1 <= k < |counts| ensures r[k] == counts[k] {
        assert counts[k].0 != counts[0].0;
        assert r[k] == tail[k - 1];
      }
    } else {
      var rest := Bump(tail, m);
      assert r == [counts[0]] + rest;
      assert DistinctKeys(tail) by {
        assert forall a :: 0 <= a < |tail| ==> tail[a] == counts[a + 1];
      }
      BumpPresent(tail, m, j - 1);
      forall k | 1 <= k < |counts|
        ensures r[k] == if counts[k].0 == m then (m, counts[k].1 + 1) else counts[k]
      {
        assert r[k] == rest[k - 1] && tail[k - 1] == counts[k];
      }
    }
  }

  /** A new message is appended with the count one. */
  lemma {:induction false} BumpAbsent(counts: seq<(string, nat)>, m: string)
    requires forall j :: 0 <= j < |counts| ==> counts[j].0 != m
    ensures Bump(counts, m) == counts + [(m, 1)]
  {
    if counts != [] {
      var tail := counts[1..];
      assert forall j :: 0 <= j < |tail| ==> tail[j] == counts[j + 1];
      BumpAbsent(tail, m);
      assert counts + [(m, 1)] == [counts[0]] + (tail + [(m, 1)]);
    }
  }

  /** The tally has one pair per distinct message, carrying that message's number of occurrences. */
  lemma {:induction false} TallyCounts(msgs: seq<string>)
    ensures CountsOf(Tally(msgs), msgs)
  {
    if msgs != [] {
      var init := msgs[..|msgs| - 1];
      TallyCounts(init);
      BumpCounts(Tally(init), init, msgs[|msgs| - 1]);
      assert init + [msgs[|msgs| - 1]] == msgs;
    }
  }

  /** `sorted(…, key=lambda x: x[1], reverse=True)` as a stable insertion: `x` goes after every
      pair whose count is at least its own. */
  function InsertByCount(x: (string, nat), s: seq<(string, nat)>): seq<(string, nat)> {
    if s == [] then [x]
    else if s[0].1 >= x.1 then [s[0]] + InsertByCount(x, s[1..])
    else [x] + s
  }

  function SortByCount(ps: seq<(string, nat)>): seq<(string, nat)> {
    if ps == [] then [] else InsertByCount(ps[|ps| - 1], SortByCount(ps[..|ps| - 1]))
  }

  predicate NonIncreasing(s: seq<(string, nat)>) {
    forall a, b :: 0 <= a < b < |s| ==> s[a].1 >= s[b].1
  }

  /** Inserting adds exactly `x`. */
  lemma {:induction false} InsertByCountPerm(x: (string, nat), s: seq<(string, nat)>)
    ensures multiset(InsertByCount(x, s)) == multiset(s) + multiset{x}
  {
    if s != [] && s[0].1 >= x.1 {
      InsertByCountPerm(x, s[1..]);
      assert s == [s[0]] + s[1..];
    }
  }

  /** Inserting into a non-increasing list keeps it non-increasing. */
  lemma {:induction false} InsertByCountSorted(x: (string, nat), s: seq<(string, nat)>)
    requires NonIncreasing(s)
    ensures NonIncreasing(InsertByCount(x, s))
  {
    if s != [] && s[0].1 >= x.1 {
      var rest := InsertByCount(x, s[1..]);
      InsertByCountSorted(x, s[1..]);
      InsertByCountPerm(x, s[1..]);
      forall b | 0 <= b < |rest| ensures s[0].1 >= rest[b].1 {
        assert rest[b] in multiset(s[1..]) + multiset{x};
        if rest[b] != x {
          var k :| 0 <= k < |s[1..]| && s[1..][k] == rest[b];
          assert s[k + 1] == rest[b];
        }
      }
      assert InsertByCount(x, s) == [s[0]] + rest;
    }
  }

  /** Sorting yields a non-increasing permutation of its input. */
  lemma {:induction false} SortByCountCorrect(ps: seq<(string, nat)>)
    ensures NonIncreasing(SortByCount(ps))
    ensures multiset(SortByCount(ps)) == multiset(ps)
  {
    if ps != [] {
      var init := ps[..|ps| - 1];
      SortByCountCorrect(init);
      InsertByCountSorted(ps[|ps| - 1], SortByCount(init));
      InsertByCountPerm(ps[|ps| - 1], SortByCount(init));
      assert init + [ps[|ps| - 1]] == ps;
    }
  }

  /** `sorted_errors[:10]`. */
  function TopTen(s: seq<(string, nat)>): seq<(string, nat)> {
    if |s| <= 10 then s else s[..10]
  }

  /** `_get_common_errors()`. */
  function CommonErrors(entries: seq<ErrorEntry>): seq<(string, nat)> {
    TopTen(SortByCount(Tally(Messages(entries))))
  }

  /** A list of (message, count) pairs that reports every message of `msgs` with its true count. */
  predicate ReportsCounts(s: seq<(string, nat)>, msgs: seq<string>) {
    (forall k :: 0 <= k < |s| ==> s[k].0 in msgs && s[k].1 == multiset(msgs)[s[k].0]) &&
    (forall m :: m in msgs ==> exists k :: 0 <= k < |s| && s[k].0 == m)
  }

  /** Sorting the tally keeps every pair: the sorted list still reports every message's count. */
  lemma SortedTallyReports(msgs: seq<string>)
    ensures NonIncreasing(SortByCount(Tally(msgs)))
    ensures ReportsCounts(SortByCount(Tally(msgs)), msgs)
  {
    var t := Tally(msgs);
    var sorted := SortByCount(t);
    TallyCounts(msgs);
    SortByCountCorrect(t);
    forall k | 0 <= k < |sorted| ensures sorted[k].0 in msgs && sorted[k].1 == multiset(msgs)[sorted[k].0] {
      assert sorted[k] in multiset(t);
    }
    forall m | m in msgs ensures exists k :: 0 <= k < |sorted| && sorted[k].0 == m {
      var j :| 0 <= j < |t| && t[j].0 == m;
      assert t[j] in multiset(sorted);
    }
  }

  /** The first ten of a sorted report are the most frequent messages. */
  lemma TopTenOfSorted(sorted: seq<(string, nat)>, msgs: seq<string>)
    requires NonIncreasing(sorted) && ReportsCounts(sorted, msgs)
    ensures var r := TopTen(sorted);
      |r| <= 10 && NonIncreasing(r) &&
      (forall k :: 0 <= k < |r| ==> r[k].0 in msgs && r[k].1 == multiset(msgs)[r[k].0]) &&
      (forall m :: m in msgs && (forall k :: 0 <= k < |r| ==> r[k].0 != m) ==>
        |r| == 10 && forall k :: 0 <= k < |r| ==> r[k].1 >= multiset(msgs)[m])
  {
    var r := TopTen(sorted);
    assert forall k :: 0 <= k < |r| ==> r[k] == sorted[k];
    forall m | m in msgs && (forall k :: 0 <= k < |r| ==> r[k].0 != m)
      ensures |r| == 10 && forall k :: 0 <= k < |r| ==> r[k].1 >= multiset(msgs)[m]
    {
      var q :| 0 <= q < |sorted| && sorted[q].0 == m;
    }
  }

  /** At most ten pairs in non-increasing count order, each a message of the log with its true
      count, and an occurring message is left out only when ten others count at least as often. */
  lemma CommonErrorsTopTen(entries: seq<ErrorEntry>)
    ensures var r := CommonErrors(entries);
      |r| <= 10 && NonIncreasing(r) &&
      (forall k :: 0 <= k < |r| ==>
        r[k].0 in Messages(entries) && r[k].1 == multiset(Messages(entries))[r[k].0]) &&
      (forall m :: m in Messages(entries) && (forall k :: 0 <= k < |r| ==> r[k].0 != m) ==>
        |r| == 10 && forall k :: 0 <= k < |r| ==> r[k].1 >= multiset(Messages(entries))[m])
  {
    SortedTallyReports(Messages(entries));
    TopTenOfSorted(SortByCount(Tally(Messages(entries))), Messages(entries));
  }

  /** `get_validation_summary()`. */
  function SummaryOf(entries: seq<ErrorEntry>): Summary {
    Summary(|entries|, SourceCounts(entries), CommonErrors(entries))
  }

  /** Nothing in the validator appends to its log, so the summary of a fresh validator reports no
      error at all. */
  lemma EmptyLogSummary()
    ensures SummaryOf([]) == Summary(0, map[], [])
  {
  }
}
