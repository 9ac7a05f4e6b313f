/** The delivery verifier: count a manifest, then count a stream against it. */
module DeliveryCheck {
  import opened Core

  /** One line: blank, not JSON, one the scanner cannot read at all, or an entry. */
  datatype Line = Blank | Broken | Unreadable | Entry(traceId: string)

  /** What one fetch brings. */
  datatype Fetch = FetchError | Undecodable | Message(traceId: string)

  datatype Manifest = Manifest(expected: map<string, nat>, seen: set<string>, uniques: nat, lines: nat)

  datatype Report = Report(observed: nat, duplicates: nat, successRate: real, pass: bool)

  /** The ids the manifest lists, in order; None when a line cannot be read or parsed. */
  function Listed(lines: seq<Line>): Option<seq<string>> {
    if lines == [] then Some([])
    else
      var rest := Listed(lines[..|lines| - 1]);
      match lines[|lines| - 1]
      case Blank => rest
      case Broken => None
      case Unreadable => None
      case Entry(id) => if rest.Some? then Some(rest.value + [id]) else None
  }

  lemma {:induction false} ListedPrefix(lines: seq<Line>, k: nat)
    requires k <= |lines| && Listed(lines).Some?
    ensures Listed(lines[..k]).Some?
    decreases |lines|
  {
    if k < |lines| {
      assert lines[..|lines| - 1][..k] == lines[..k];
      ListedPrefix(lines[..|lines| - 1], k);
    } else {
      assert lines[..k] == lines;
    }
  }

  /** What a manifest's counts mean. */
  ghost predicate Counts(m: Manifest, ids: seq<string>) {
    && (forall id :: CountsId(m, ids, id))
    && m.uniques == |m.seen| && m.lines == |ids|
  }

  predicate CountsId(m: Manifest, ids: seq<string>, id: string) {
    && (id in m.seen <==> id in ids) && (id in m.expected <==> id in ids)
    && (id in m.expected ==> m.expected[id] == multiset(ids)[id])
  }

  function OneMoreLine(m: Manifest, id: string): Manifest {
    Manifest(m.expected[id := 1 + if id in m.expected then m.expected[id] else 0],
             m.seen + {id}, if id in m.seen then m.uniques else m.uniques + 1, m.lines + 1)
  }

  lemma CountsOneMore(m: Manifest, ids: seq<string>, id: string)
    requires Counts(m, ids)
    ensures Counts(OneMoreLine(m, id), ids + [id])
  {
    var m' := OneMoreLine(m, id);
    assert CountsId(m, ids, id);
    if id in m.seen { assert m.seen + {id} == m.seen; }
    forall x ensures CountsId(m', ids + [id], x) {
      assert CountsId(m, ids, x);
      assert multiset(ids + [id])[x] == multiset(ids)[x] + if x == id then 1 else 0;
      assert x in ids + [id] <==> x in ids || x == id;
      assert id !in ids ==> multiset(ids)[id] == 0;
    }
  }

  /** Count one entry. */
  method AddLine(m: Manifest, id: string) returns (m': Manifest)
    ensures m' == OneMoreLine(m, id)
  {
    m' := m.(lines := m.lines + 1, expected := m.expected[id := 1 + if id in m.expected then m.expected[id] else 0]);
    if id !in m.seen {
      m' := m'.(seen := m.seen + {id}, uniques := m.uniques + 1);
    } else {
      assert m.seen + {id} == m.seen;
    }
  }

  lemma ListedLast(lines: seq<Line>, i: nat)
    requires i < |lines|
    ensures Listed(lines[..i + 1]) == match lines[i]
                                      case Blank => Listed(lines[..i])
                                      case Broken => None
                                      case Unreadable => None
                                      case Entry(id) =>
                                        if Listed(lines[..i]).Some? then Some(Listed(lines[..i]).value + [id]) else None
  {
    assert lines[..i + 1][..i] == lines[..i];
  }

  lemma NoUniques(m: Manifest, ids: seq<string>)
    requires Counts(m, ids)
    ensures m.uniques == 0 <==> ids == []
  {
    if ids != [] {
      assert CountsId(m, ids, ids[0]);
    }
    if m.seen != {} {
      var id :| id in m.seen;
      assert CountsId(m, ids, id);
    }
  }

  /** A line that cannot be read or parsed, or a manifest without ids, is fatal. */
  method CountManifest(lines: seq<Line>) returns (r: Option<Manifest>)
    ensures r.Some? <==> Listed(lines).Some? && Listed(lines).value != []
    ensures r.Some? ==> Counts(r.value, Listed(lines).value)
  {
    var m := Manifest(map[], {}, 0, 0);
    ghost var ids: seq<string> := [];
    var i := 0;
    while i < |lines|
      invariant 0 <= i <= |lines|
      invariant Listed(lines[..i]) == Some(ids) && Counts(m, ids)
    {
      ListedLast(lines, i);
      // The scanner stops at a line it cannot read; its error is checked after the loop.
      if lines[i].Broken? || lines[i].Unreadable? {
        if Listed(lines).Some? { ListedPrefix(lines, i + 1); }
        return None;
      }
      if lines[i].Entry? {
        CountsOneMore(m, ids, lines[i].traceId);
        m := AddLine(m, lines[i].traceId);
        ids := ids + [lines[i].traceId];
      }
      i := i + 1;
    }
    assert lines[..i] == lines;
    NoUniques(m, ids);
    r := if m.uniques == 0 then None else Some(m);
  }

  // ---- Sums over a set of ids ----

  ghost function SumOver(s: set<string>, f: string -> nat): nat
    decreases |s|
  {
    if s == {} then 0 else
      var x :| x in s;
      f(x) + SumOver(s - {x}, f)
  }

  /** The order of summation does not matter. */
  lemma {:induction false} SumTakesOut(s: set<string>, x: string, f: string -> nat)
    requires x in s
    ensures SumOver(s, f) == f(x) + SumOver(s - {x}, f)
    decreases |s|
  {
    var y :| y in s && SumOver(s, f) == f(y) + SumOver(s - {y}, f);
    if y != x {
      SumTakesOut(s - {y}, x, f);
      SumTakesOut(s - {x}, y, f);
      assert s - {x} - {y} == s - {y} - {x};
    }
  }

  lemma {:induction false} SumSame(s: set<string>, f: string -> nat, g: string -> nat)
    requires forall x :: x in s ==> f(x) == g(x)
    ensures SumOver(s, f) == SumOver(s, g)
    decreases |s|
  {
    if s != {} {
      var x :| x in s;
      SumTakesOut(s, x, f);
      SumTakesOut(s, x, g);
      SumSame(s - {x}, f, g);
    }
  }

  lemma {:induction false} SumMonotone(s: set<string>, f: string -> nat, g: string -> nat)
    requires forall x :: x in s ==> f(x) <= g(x)
    ensures SumOver(s, f) <= SumOver(s, g)
    ensures SumOver(s, f) == SumOver(s, g) <==> forall x :: x in s ==> f(x) == g(x)
    decreases |s|
  {
    if s != {} {
      var x :| x in s;
      SumTakesOut(s, x, f);
      SumTakesOut(s, x, g);
      SumMonotone(s - {x}, f, g);
      assert forall y :: y in s ==> y == x || y in s - {x};
    }
  }

  // ---- What a stream means ----

  /** Copies of an id in a stream; an empty id is never counted. */
  function Copies(stream: seq<Fetch>, id: string): nat {
    if stream == [] then 0
    else Copies(stream[..|stream| - 1], id) + if stream[|stream| - 1] == Message(id) && id != "" then 1 else 0
  }

  lemma CopiesSnoc(stream: seq<Fetch>, f: Fetch, id: string)
    ensures Copies(stream + [f], id) == Copies(stream, id) + if f == Message(id) && id != "" then 1 else 0
  {
    assert (stream + [f])[..|stream|] == stream;
  }

  lemma {:induction false} CopiesGrow(stream: seq<Fetch>, n: nat, id: string)
    requires n <= |stream|
    ensures Copies(stream[..n], id) <= Copies(stream, id)
    decreases |stream| - n
  {
    if n < |stream| {
      assert stream[..n + 1] == stream[..n] + [stream[n]];
      CopiesSnoc(stream[..n], stream[n], id);
      CopiesGrow(stream, n + 1, id);
    } else {
      assert stream[..n] == stream;
    }
  }

  /** Copies of an id beyond those the manifest announces. */
  function ExcessOf(m: Manifest, stream: seq<Fetch>, id: string): nat {
    if id in m.expected && Copies(stream, id) > m.expected[id] then Copies(stream, id) - m.expected[id] else 0
  }

  function Excess(m: Manifest, stream: seq<Fetch>): string -> nat { (id: string) => ExcessOf(m, stream, id) }

  ghost function Observed(m: Manifest, stream: seq<Fetch>): set<string> {
    set id | id in m.seen && Copies(stream, id) > 0
  }

  predicate AllSeen(m: Manifest, stream: seq<Fetch>) { forall id :: id in m.seen ==> Copies(stream, id) > 0 }

  lemma AllSeenBySize(m: Manifest, ids: seq<string>, stream: seq<Fetch>)
    requires Counts(m, ids)
    ensures AllSeen(m, stream) <==> |Observed(m, stream)| == m.uniques
    ensures |Observed(m, stream)| <= m.uniques
  {
    var seen := Observed(m, stream);
    SubsetOfSameSize(seen, m.seen);
    if AllSeen(m, stream) { assert seen == m.seen; }
    if seen == m.seen {
      forall id | id in m.seen ensures Copies(stream, id) > 0 { assert id in seen; }
    }
  }

  lemma NothingSeen(m: Manifest, ids: seq<string>)
    requires Counts(m, ids) && ids != []
    ensures Tallied(m, [], map[], 0, 0) && m.uniques > 0
  {
    NoUniques(m, ids);
    assert Observed(m, []) == {};
    SumOfNone(m);
    forall id ensures TalliedId(m, [], map[], id) { assert CountsId(m, ids, id); }
  }

  /** A message counts for its own id, if the manifest has it. */
  predicate Relevant(m: Manifest, f: Fetch) {
    f.Message? && f.traceId != "" && f.traceId in m.seen && f.traceId in m.expected
  }

  lemma ObservedMoves(m: Manifest, stream: seq<Fetch>, f: Fetch)
    requires f.Message? && f.traceId in m.seen ==> f.traceId in m.expected
    ensures Observed(m, stream + [f]) == Observed(m, stream) + if Relevant(m, f) then {f.traceId} else {}
  {
    forall id
      ensures id in Observed(m, stream + [f]) <==> id in Observed(m, stream) || (Relevant(m, f) && id == f.traceId)
    {
      CopiesSnoc(stream, f, id);
    }
  }

  lemma ExcessMoves(m: Manifest, stream: seq<Fetch>, f: Fetch)
    ensures var one := Relevant(m, f) && Copies(stream, f.traceId) + 1 > m.expected[f.traceId];
            SumOver(m.seen, Excess(m, stream + [f])) == SumOver(m.seen, Excess(m, stream)) + if one then 1 else 0
  {
    var g, h := Excess(m, stream), Excess(m, stream + [f]);
    forall id | id in m.seen && !(Relevant(m, f) && id == f.traceId) ensures g(id) == h(id) {
      CopiesSnoc(stream, f, id);
    }
    if Relevant(m, f) {
      CopiesSnoc(stream, f, f.traceId);
      SumTakesOut(m.seen, f.traceId, g);
      SumTakesOut(m.seen, f.traceId, h);
      SumSame(m.seen - {f.traceId}, g, h);
    } else {
      SumSame(m.seen, g, h);
    }
  }

  /** The loop's counters say what they should of the fetches consumed so far. */
  ghost predicate Tallied(m: Manifest, stream: seq<Fetch>, counts: map<string, nat>, observed: nat, duplicates: nat) {
    && (forall id :: TalliedId(m, stream, counts, id))
    && observed == |Observed(m, stream)|
    && duplicates == SumOver(m.seen, Excess(m, stream))
  }

  predicate TalliedId(m: Manifest, stream: seq<Fetch>, counts: map<string, nat>, id: string) {
    (id in m.seen <==> id in m.expected) && Tally(counts, id) == if id in m.seen then Copies(stream, id) else 0
  }

  function Tally(counts: map<string, nat>, id: string): nat { if id in counts then counts[id] else 0 }

  lemma TallyIrrelevant(m: Manifest, stream: seq<Fetch>, f: Fetch, counts: map<string, nat>, observed: nat,
        duplicates: nat)
    requires Tallied(m, stream, counts, observed, duplicates)
    requires !f.Message? || f.traceId == "" || f.traceId !in m.seen
    ensures Tallied(m, stream + [f], counts, observed, duplicates)
  {
    if f.Message? { assert TalliedId(m, stream, counts, f.traceId); }
    ObservedMoves(m, stream, f);
    ExcessMoves(m, stream, f);
    forall id ensures TalliedId(m, stream + [f], counts, id) {
      assert TalliedId(m, stream, counts, id);
      CopiesSnoc(stream, f, id);
    }
  }

  lemma TallyMessage(m: Manifest, stream: seq<Fetch>, id: string, counts: map<string, nat>, observed: nat,
        duplicates: nat)
    requires Tallied(m, stream, counts, observed, duplicates) && id != "" && id in m.seen
    ensures id in m.expected
    ensures var n := Tally(counts, id) + 1;
            Tallied(m, stream + [Message(id)], counts[id := n], observed + (if n == 1 then 1 else 0),
                    duplicates + if n > m.expected[id] then 1 else 0)
  {
    var f, n := Message(id), Tally(counts, id) + 1;
    var counts' := counts[id := n];
    assert TalliedId(m, stream, counts, id);
    ObservedMoves(m, stream, f);
    ExcessMoves(m, stream, f);
    forall x ensures TalliedId(m, stream + [f], counts', x) {
      assert TalliedId(m, stream, counts, x);
      CopiesSnoc(stream, f, x);
    }
    assert id in Observed(m, stream) <==> n > 1;
    if n > 1 { assert Observed(m, stream) + {id} == Observed(m, stream); }
  }

  /** Count one fetch; all but the messages the manifest knows are skipped. */
  method Note(m: Manifest, ghost stream: seq<Fetch>, f: Fetch, counts: map<string, nat>, observed: nat, duplicates: nat)
    returns (counts': map<string, nat>, observed': nat, duplicates': nat)
    requires Tallied(m, stream, counts, observed, duplicates)
    ensures Tallied(m, stream + [f], counts', observed', duplicates')
  {
    counts', observed', duplicates' := counts, observed, duplicates;
    if !f.Message? || f.traceId == "" || f.traceId !in m.seen {
      TallyIrrelevant(m, stream, f, counts, observed, duplicates);
      return;
    }
    var id := f.traceId;
    TallyMessage(m, stream, id, counts, observed, duplicates);
    counts' := counts[id := 1 + if id in counts then counts[id] else 0];
    if counts'[id] == 1 { observed' := observed + 1; }
    if counts'[id] > m.expected[id] { duplicates' := duplicates + 1; }
  }

  lemma TalliedSizes(m: Manifest, ids: seq<string>, stream: seq<Fetch>, counts: map<string, nat>, observed: nat,
        duplicates: nat)
    requires Counts(m, ids) && Tallied(m, stream, counts, observed, duplicates)
    ensures observed == m.uniques <==> AllSeen(m, stream)
  {
    AllSeenBySize(m, ids, stream);
  }

  /** Consume until every manifest id was seen or the stream (the timeout) ends.
      `n` is how far it got: the first moment all were seen, if ever. */
  method Observe(m: Manifest, ghost ids: seq<string>, stream: seq<Fetch>)
    returns (observed: nat, duplicates: nat, n: nat)
    requires Counts(m, ids) && ids != []
    ensures n <= |stream|
    ensures observed == |Observed(m, stream[..n])|
    ensures duplicates == SumOver(m.seen, Excess(m, stream[..n]))
    ensures n < |stream| ==> AllSeen(m, stream[..n])
    ensures forall k :: 0 <= k < n ==> !AllSeen(m, stream[..k])
  {
    var observedCount: map<string, nat> := map[];
    observed, duplicates, n := 0, 0, 0;
    assert stream[..0] == [];
    NothingSeen(m, ids);
    while n < |stream| && observed != m.uniques
      invariant 0 <= n <= |stream|
      invariant Tallied(m, stream[..n], observedCount, observed, duplicates)
      invariant forall k :: 0 <= k < n ==> !AllSeen(m, stream[..k])
    {
      TalliedSizes(m, ids, stream[..n], observedCount, observed, duplicates);
      assert stream[..n + 1] == stream[..n] + [stream[n]];
      observedCount, observed, duplicates := Note(m, stream[..n], stream[n], observedCount, observed, duplicates);
      n := n + 1;
    }
    TalliedSizes(m, ids, stream[..n], observedCount, observed, duplicates);
  }

  lemma SumOfNone(m: Manifest)
    ensures SumOver(m.seen, Excess(m, [])) == 0
  {
    SumSame(m.seen, Excess(m, []), (_: string) => 0);
    SumOfZeros(m.seen);
  }

  lemma {:induction false} SumOfZeros(s: set<string>)
    ensures SumOver(s, (_: string) => 0) == 0
    decreases |s|
  {
    if s != {} {
      var x :| x in s;
      SumTakesOut(s, x, (_: string) => 0);
      SumOfZeros(s - {x});
    }
  }

  lemma SubsetOfSameSize(a: set<string>, b: set<string>)
    requires a <= b
    ensures |a| <= |b|
    ensures |a| == |b| ==> a == b
  {
    assert b == a + (b - a);
  }

  /** The report of a run over a stream. */
  method Verify(lines: seq<Line>, stream: seq<Fetch>, target: real, allowDups: nat) returns (r: Option<Report>)
    ensures r.Some? <==> Listed(lines).Some? && Listed(lines).value != []
    ensures r.Some? ==>
              exists m, n :: Counts(m, Listed(lines).value) && Reports(m, stream, n, target, allowDups, r.value)
  {
    var m := CountManifest(lines);
    if m.None? { return None; }
    ghost var ids := Listed(lines).value;
    NoUniques(m.value, ids);
    var observed, duplicates, n := Observe(m.value, ids, stream);
    var rate := observed as real / m.value.uniques as real;
    var report := Report(observed, duplicates, rate, rate >= target && duplicates <= allowDups);
    assert Reports(m.value, stream, n, target, allowDups, report);
    r := Some(report);
  }

  /** What a report says about the prefix of `n` fetches that was consumed. */
  ghost predicate Reports(m: Manifest, stream: seq<Fetch>, n: nat, target: real, allowDups: nat, r: Report) {
    && n <= |stream| && m.uniques > 0
    && r.observed == |Observed(m, stream[..n])|
    && r.duplicates == SumOver(m.seen, Excess(m, stream[..n]))
    && r.successRate == r.observed as real / m.uniques as real
    && (n < |stream| ==> AllSeen(m, stream[..n]))
    && (forall k :: 0 <= k < n ==> !AllSeen(m, stream[..k]))
    && (r.pass <==> r.successRate >= target && r.duplicates <= allowDups)
  }

  /** The success rate is 1 exactly when the whole stream held every manifest id;
      an id that is empty can never be delivered. */
  lemma FullRateExact(m: Manifest, ids: seq<string>, stream: seq<Fetch>, n: nat, target: real, allowDups: nat,
        r: Report)
    requires Counts(m, ids) && Reports(m, stream, n, target, allowDups, r)
    ensures r.successRate <= 1.0
    ensures r.successRate == 1.0 <==> forall id :: id in ids ==> Message(id) in stream && id != ""
  {
    AllSeenBySize(m, ids, stream[..n]);
    assert r.successRate == 1.0 <==> AllSeen(m, stream[..n]);
    assert stream[..|stream|] == stream;
    forall id | id in ids
      ensures Copies(stream[..n], id) <= Copies(stream, id)
      ensures Copies(stream, id) > 0 <==> Message(id) in stream && id != ""
    {
      CopiesGrow(stream, n, id);
      CopiesPositive(stream, id);
    }
    forall id ensures id in ids <==> id in m.seen { assert CountsId(m, ids, id); }
  }

  lemma {:induction false} CopiesPositive(stream: seq<Fetch>, id: string)
    ensures Copies(stream, id) > 0 <==> Message(id) in stream && id != ""
    decreases |stream|
  {
    if stream != [] {
      assert stream == stream[..|stream| - 1] + [stream[|stream| - 1]];
      CopiesPositive(stream[..|stream| - 1], id);
    }
  }

  /** Duplicates behind the stopping point are not reported: the count is that of
      the whole stream exactly when no id goes over its expected count there. */
  lemma EarlyStopExact(m: Manifest, ids: seq<string>, stream: seq<Fetch>, n: nat, target: real, allowDups: nat,
        r: Report)
    requires Counts(m, ids) && Reports(m, stream, n, target, allowDups, r)
    ensures r.duplicates <= SumOver(m.seen, Excess(m, stream))
    ensures r.duplicates == SumOver(m.seen, Excess(m, stream)) <==>
            forall id :: id in m.expected && Copies(stream, id) > Copies(stream[..n], id)
                ==> Copies(stream, id) <= m.expected[id]
  {
    var g, h := Excess(m, stream[..n]), Excess(m, stream);
    forall id
      ensures id in m.seen <==> id in m.expected
      ensures g(id) <= h(id)
      ensures id in m.expected ==>
                (g(id) == h(id) <==> (Copies(stream, id) > Copies(stream[..n], id)
                    ==> Copies(stream, id) <= m.expected[id]))
    {
      CopiesGrow(stream, n, id);
      assert CountsId(m, ids, id);
    }
    SumMonotone(m.seen, g, h);
  }
}
