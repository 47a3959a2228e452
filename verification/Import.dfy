/** The record loop of the OpenAI cost import: every item of a cost report becomes one usage row,
    found again by its import key. */
module Import {
  import opened Sequences
  import opened Strings
  import opened Wrappers
  import opened Usage
  import opened UsageCases

  datatype Item = Item(project: string, line: string, value: real, currency: string)
  datatype Bucket = Bucket(start: int, end: int, results: seq<Item>)

  /** One item with the bucket and the position it comes from. */
  datatype Charge = Charge(start: int, end: int, idx: nat, item: Item)

  function Key(c: Charge): string {
    "openai-costs:" + FormatInt(c.start) + ":" + FormatInt(c.end) + ":" + c.item.project + ":" + c.item.line + ":" + Itoa(c.idx)
  }

  function ChargesOf(b: Bucket): (cs: seq<Charge>)
    ensures |cs| == |b.results|
    ensures forall i :: 0 <= i < |cs| ==> cs[i] == Charge(b.start, b.end, i, b.results[i])
  {
    seq(|b.results|, i requires 0 <= i < |b.results| => Charge(b.start, b.end, i, b.results[i]))
  }

  function Charges(payload: seq<Bucket>): seq<Charge> {
    if payload == [] then [] else Charges(payload[..|payload|-1]) + ChargesOf(payload[|payload|-1])
  }

  /** The row the import-key lookup looks for. */
  predicate IsRowOf(u: Row, providerId: string, c: Charge) {
    && u.providerId == providerId && u.periodStart == c.start && u.periodEnd == c.end && u.metric == "cost_usd"
    && "import_key" in u.raw && u.raw["import_key"] == Key(c)
  }

  predicate Recorded(rows: seq<Row>, providerId: string, c: Charge) {
    exists u :: u in rows && IsRowOf(u, providerId, c)
  }

  function NewRow(providerId: string, providerName: string, c: Charge): Row {
    Row(providerId, providerName, c.start, c.end, "cost_usd", c.item.value, c.item.value, None, None, None,
        map["source" := "openai_costs_api", "import_key" := Key(c), "currency" := c.item.currency,
            "project_id" := c.item.project, "line_item" := c.item.line])
  }

  datatype Tally = Tally(rows: seq<Row>, imported: nat, skipped: nat)

  function ImportOne(t: Tally, providerId: string, providerName: string, c: Charge): Tally {
    if Recorded(t.rows, providerId, c) then t.(skipped := t.skipped + 1)
    else t.(rows := t.rows + [NewRow(providerId, providerName, c)], imported := t.imported + 1)
  }

  function ImportAll(t: Tally, providerId: string, providerName: string, cs: seq<Charge>): Tally {
    if cs == [] then t
    else ImportOne(ImportAll(t, providerId, providerName, cs[..|cs|-1]), providerId, providerName, cs[|cs|-1])
  }

  lemma ImportAppend(t: Tally, providerId: string, providerName: string, cs: seq<Charge>, c: Charge)
    ensures ImportAll(t, providerId, providerName, cs + [c])
         == ImportOne(ImportAll(t, providerId, providerName, cs), providerId, providerName, c)
  {
    assert (cs + [c])[..|cs|] == cs;
  }

  datatype Lookup = Found | Missing | Broken

  predicate FailsAt(failures: seq<bool>, n: nat) {
    n < |failures| && failures[n]
  }

  /** The first n operations of the script have been made, without a failure. */
  ghost predicate Working(failures: seq<bool>, now: seq<bool>, n: nat) {
    now == Rest(failures, n) && forall k :: 0 <= k < n ==> !FailsAt(failures, k)
  }

  /** n operations have been made, and only the last of them failed, if any did. */
  ghost predicate Worked(failures: seq<bool>, after: seq<bool>, n: nat, err: bool) {
    && after == Rest(failures, n) && (forall k :: 0 <= k < n - 1 ==> !FailsAt(failures, k))
    && (err <==> n > 0 && FailsAt(failures, n - 1))
  }

  lemma NoneWorked(failures: seq<bool>)
    ensures Working(failures, failures, 0)
  {
  }

  lemma OneMore(failures: seq<bool>, now: seq<bool>, n: nat)
    requires Working(failures, now, n)
    ensures !FailsAt(now, 0) ==> Working(failures, Rest(now, 1), n + 1)
    ensures FailsAt(now, 0) ==> Worked(failures, Rest(now, 1), n + 1, true)
  {
    assert FailsAt(now, 0) == FailsAt(failures, n);
    assert Rest(now, 1) == Rest(failures, n + 1);
  }

  lemma AllWorked(failures: seq<bool>, now: seq<bool>, n: nat)
    requires Working(failures, now, n)
    ensures Worked(failures, now, n, false)
  {
  }

  /** The usage table; any of its operations may fail. */
  class UsageTable {
    var rows: seq<Row>
    var failures: seq<bool>

    constructor (rows: seq<Row>, failures: seq<bool>)
      ensures this.rows == rows && this.failures == failures
    {
      this.rows, this.failures := rows, failures;
    }

    method Fails() returns (failed: bool)
      modifies this
      ensures rows == old(rows)
      ensures failed == FailsAt(old(failures), 0) && failures == Rest(old(failures), 1)
    {
      failed := failures != [] && failures[0];
      failures := if failures == [] then [] else failures[1..];
    }

    method Find(providerId: string, c: Charge) returns (l: Lookup)
      modifies this
      ensures rows == old(rows)
      ensures l.Found? ==> Recorded(rows, providerId, c)
      ensures l.Missing? ==> !Recorded(rows, providerId, c)
      ensures (l.Broken? <==> FailsAt(old(failures), 0)) && failures == Rest(old(failures), 1)
    {
      var failed := Fails();
      return if failed then Broken else if Recorded(rows, providerId, c) then Found else Missing;
    }

    method Create(u: Row) returns (ok: bool)
      modifies this
      ensures rows == if ok then old(rows) + [u] else old(rows)
      ensures (ok <==> !FailsAt(old(failures), 0)) && failures == Rest(old(failures), 1)
    {
      var failed := Fails();
      if !failed {
        rows := rows + [u];
      }
      return !failed;
    }

    /** Runs the report to its end, or stops at the first failed operation with everything
        before it in place; `done` counts the items dealt with. */
    method ImportCosts(providerId: string, providerName: string, payload: seq<Bucket>)
      returns (imported: nat, skipped: nat, err: bool, ghost done: nat, ghost ops: nat)
      modifies this
      ensures done <= |Charges(payload)| && (!err ==> done == |Charges(payload)|)
      ensures Worked(old(failures), failures, ops, err)
      ensures !err ==> ops == done + imported
      ensures Tally(rows, imported, skipped) == ImportAll(Tally(old(rows), 0, 0), providerId, providerName, Charges(payload)[..done])
    {
      hide Recorded, NewRow, Charges, ImportAll, Working, Worked, FailsAt, Rest;
      ghost var script := failures;
      ghost var start := Tally(rows, 0, 0);
      ghost var all := Charges(payload);
      imported, skipped, err, done, ops := 0, 0, false, 0, 0;
      NoneWorked(script);
      NothingYet(start, providerId, providerName, payload);
      for i := 0 to |payload|
        invariant done == |Charges(payload[..i])| && Charges(payload[..i]) <= all
        invariant Working(script, failures, ops) && ops == done + imported && !err
        invariant Tally(rows, imported, skipped) == ImportAll(start, providerId, providerName, all[..done])
      {
        var bucket := payload[i];
        ghost var mine := ChargesOf(bucket);
        ChargesStep(payload, i);
        ChargesPrefix(payload, i + 1);
        ghost var before := done;
        for idx := 0 to |bucket.results|
          invariant done == before + idx
          invariant Working(script, failures, ops) && ops == done + imported && !err
          invariant Tally(rows, imported, skipped) == ImportAll(start, providerId, providerName, all[..done])
        {
          var c := Charge(bucket.start, bucket.end, idx, bucket.results[idx]);
          assert all[done] == mine[idx] == c;
          ImportAppend(start, providerId, providerName, all[..done], c);
          assert all[..done+1] == all[..done] + [c];
          OneMore(script, failures, ops);
          var l := Find(providerId, c);
          ops := ops + 1;
          if l == Found {
            skipped, done := skipped + 1, done + 1;
            continue;
          }
          if l == Broken {
            return imported, skipped, true, done, ops;
          }
          OneMore(script, failures, ops);
          var ok := Create(NewRow(providerId, providerName, c));
          ops := ops + 1;
          if !ok {
            return imported, skipped, true, done, ops;
          }
          imported, done := imported + 1, done + 1;
        }
      }
      assert payload[..|payload|] == payload;
      AllWorked(script, failures, ops);
    }
  }

  lemma NothingYet(t: Tally, p: string, name: string, payload: seq<Bucket>)
    ensures Charges(payload[..0]) == [] && ImportAll(t, p, name, []) == t
  {
  }

  lemma ChargesStep(payload: seq<Bucket>, i: nat)
    requires i < |payload|
    ensures Charges(payload[..i+1]) == Charges(payload[..i]) + ChargesOf(payload[i])
  {
    assert payload[..i+1][..i] == payload[..i];
  }

  lemma {:induction false} ChargesPrefix(payload: seq<Bucket>, i: nat)
    requires i <= |payload|
    ensures Charges(payload[..i]) <= Charges(payload)
    decreases |payload| - i
  {
    if i < |payload| {
      assert payload[..i+1][..i] == payload[..i];
      ChargesPrefix(payload, i + 1);
    } else {
      assert payload[..i] == payload;
    }
  }

  // -------------------------------------------------------------- idempotence

  /** Rows are only ever appended, every item dealt with is recorded, and the counts add up. */
  lemma {:induction false} ImportRecords(t: Tally, p: string, name: string, cs: seq<Charge>)
    ensures var r := ImportAll(t, p, name, cs);
      && t.rows <= r.rows
      && r.imported + r.skipped == t.imported + t.skipped + |cs|
      && r.imported - t.imported == |r.rows| - |t.rows| <= |cs|
      && forall c :: c in cs ==> Recorded(r.rows, p, c)
  {
    hide Recorded, NewRow, Key;
    if cs != [] {
      var before := cs[..|cs|-1];
      var last := cs[|cs|-1];
      ImportRecords(t, p, name, before);
      var m := ImportAll(t, p, name, before);
      NewRowRecords(m.rows, p, name, last, last);
      forall c | c in before ensures Recorded(ImportOne(m, p, name, last).rows, p, c) {
        RecordedStays(m.rows, ImportOne(m, p, name, last).rows, p, c);
      }
      assert cs == before + [last];
    }
  }

  lemma RecordedStays(a: seq<Row>, b: seq<Row>, p: string, c: Charge)
    requires a <= b && Recorded(a, p, c)
    ensures Recorded(b, p, c)
  {
    var u :| u in a && IsRowOf(u, p, c);
    assert u in b;
  }

  lemma {:induction false} RecordedAreSkipped(t: Tally, p: string, name: string, cs: seq<Charge>)
    requires forall c :: c in cs ==> Recorded(t.rows, p, c)
    ensures ImportAll(t, p, name, cs) == t.(skipped := t.skipped + |cs|)
  {
    if cs != [] {
      assert cs[|cs|-1] in cs;
      RecordedAreSkipped(t, p, name, cs[..|cs|-1]);
    }
  }

  /** The rows do not depend on the counters. */
  lemma {:induction false} CountersApart(t: Tally, v: Tally, p: string, name: string, cs: seq<Charge>)
    requires t.rows == v.rows
    ensures ImportAll(t, p, name, cs).rows == ImportAll(v, p, name, cs).rows
    ensures ImportAll(t, p, name, cs).imported - t.imported == ImportAll(v, p, name, cs).imported - v.imported
  {
    if cs != [] {
      CountersApart(t, v, p, name, cs[..|cs|-1]);
    }
  }

  lemma {:induction false} ImportConcat(t: Tally, p: string, name: string, a: seq<Charge>, b: seq<Charge>)
    ensures ImportAll(t, p, name, a + b) == ImportAll(ImportAll(t, p, name, a), p, name, b)
  {
    if b == [] {
      assert a + b == a;
    } else {
      assert (a + b)[..|a + b|-1] == a + b[..|b|-1];
      ImportConcat(t, p, name, a, b[..|b|-1]);
    }
  }

  /** Running the report again after any prefix of it (an interrupted run, or with done == |cs| a
      completed one) leaves exactly the table of one uninterrupted run, skips everything the first
      run dealt with, and the two runs together import what one run would have. */
  lemma ImportResumes(rows: seq<Row>, p: string, name: string, cs: seq<Charge>, done: nat)
    requires done <= |cs|
    ensures var first := ImportAll(Tally(rows, 0, 0), p, name, cs[..done]);
            var second := ImportAll(Tally(first.rows, 0, 0), p, name, cs);
            var whole := ImportAll(Tally(rows, 0, 0), p, name, cs);
            && second.rows == whole.rows
            && first.imported + second.imported == whole.imported
            && second.imported + second.skipped == |cs|
            && (done == |cs| ==> second.imported == 0 && second.skipped == |cs|)
  {
    var start := Tally(rows, 0, 0);
    var a, b := cs[..done], cs[done..];
    assert cs == a + b;
    var first := ImportAll(start, p, name, a);
    var again := Tally(first.rows, 0, 0);
    ImportRecords(start, p, name, a);
    RecordedAreSkipped(again, p, name, a);
    ImportConcat(start, p, name, a, b);
    ImportConcat(again, p, name, a, b);
    CountersApart(first, again.(skipped := again.skipped + |a|), p, name, b);
    ImportRecords(again, p, name, cs);
  }

  // ------------------------------------------------- which items share a key

  predicate SameKey(c: Charge, d: Charge) {
    c.start == d.start && c.end == d.end && Key(c) == Key(d)
  }

  /** Two items are taken for one another exactly when they sit at the same position of two
      buckets of the same period and their project and line run together to the same text. */
  lemma SameKeyExactly(c: Charge, d: Charge)
    ensures SameKey(c, d) <==>
              c.start == d.start && c.end == d.end && c.idx == d.idx
              && c.item.project + ":" + c.item.line == d.item.project + ":" + d.item.line
  {
    var hc := "openai-costs:" + FormatInt(c.start) + ":" + FormatInt(c.end) + ":";
    var hd := "openai-costs:" + FormatInt(d.start) + ":" + FormatInt(d.end) + ":";
    var tc, td := c.item.project + ":" + c.item.line, d.item.project + ":" + d.item.line;
    assert Key(c) == hc + tc + [':'] + Itoa(c.idx);
    assert Key(d) == hd + td + [':'] + Itoa(d.idx);
    if SameKey(c, d) {
      NoColon(c.idx);
      NoColon(d.idx);
      LastFieldUnique(hc + tc, Itoa(c.idx), hd + td, Itoa(d.idx), ':');
      ItoaInjective(c.idx, d.idx);
      assert hc == hd && (hc + tc)[|hc|..] == tc && (hd + td)[|hd|..] == td;
    }
  }

  lemma NoColon(n: nat)
    ensures ':' !in Itoa(n)
  {
  }

  /** No two buckets of the report cover the same period. */
  predicate PeriodsDiffer(payload: seq<Bucket>) {
    forall i, j :: 0 <= i < j < |payload| ==> payload[i].start != payload[j].start || payload[i].end != payload[j].end
  }

  predicate Apart(cs: seq<Charge>) {
    forall i, j :: 0 <= i < j < |cs| ==> !SameKey(cs[i], cs[j])
  }

  lemma {:induction false} ChargesApart(payload: seq<Bucket>)
    requires PeriodsDiffer(payload)
    ensures Apart(Charges(payload))
    ensures forall c :: c in Charges(payload) ==> exists b :: b in payload && c.start == b.start && c.end == b.end
  {
    if payload != [] {
      var before := payload[..|payload|-1];
      var b := payload[|payload|-1];
      ChargesApart(before);
      var cs, mine := Charges(before), ChargesOf(b);
      var all := cs + mine;
      forall i, j | 0 <= i < j < |all| ensures !SameKey(all[i], all[j]) {
        if i >= |cs| {
          SameKeyExactly(all[i], all[j]);
        } else if j >= |cs| {
          assert cs[i] in cs;
        }
      }
      forall c | c in all ensures exists b :: b in payload && c.start == b.start && c.end == b.end {
        if c in cs {
          var x :| x in before && c.start == x.start && c.end == x.end;
          assert x in payload;
        } else {
          assert c in mine && b in payload;
        }
      }
    }
  }

  lemma NewRowRecords(rows: seq<Row>, p: string, name: string, c: Charge, d: Charge)
    ensures Recorded(rows + [NewRow(p, name, c)], p, d) <==> Recorded(rows, p, d) || SameKey(c, d)
  {
    hide Key;
    var u := NewRow(p, name, c);
    assert IsRowOf(u, p, d) <==> SameKey(c, d);
    assert u in rows + [u];
    assert forall v :: v in rows + [u] <==> v in rows || v == u;
  }

  lemma {:induction false} ApartAllImported(t: Tally, p: string, name: string, cs: seq<Charge>)
    requires Apart(cs) && forall c :: c in cs ==> !Recorded(t.rows, p, c)
    ensures ImportAll(t, p, name, cs).imported == t.imported + |cs|
    ensures forall d :: (forall c :: c in cs ==> !SameKey(c, d)) && !Recorded(t.rows, p, d)
              ==> !Recorded(ImportAll(t, p, name, cs).rows, p, d)
  {
    hide Recorded, SameKey, NewRow;
    if cs != [] {
      var before := cs[..|cs|-1];
      var last := cs[|cs|-1];
      ApartAllImported(t, p, name, before);
      var m := ImportAll(t, p, name, before);
      forall c | c in before ensures !SameKey(c, last) {
        var i :| 0 <= i < |before| && before[i] == c;
        assert cs[i] == c;
      }
      assert last in cs && !Recorded(m.rows, p, last);
      forall d | (forall c :: c in cs ==> !SameKey(c, d)) && !Recorded(t.rows, p, d)
        ensures !Recorded(ImportAll(t, p, name, cs).rows, p, d)
      {
        assert forall c :: c in before ==> c in cs;
        NewRowRecords(m.rows, p, name, last, d);
      }
    }
  }

  lemma SameKeySameRow(rows: seq<Row>, p: string, c: Charge, d: Charge)
    requires SameKey(c, d) && Recorded(rows, p, c)
    ensures Recorded(rows, p, d)
  {
    hide Key;
    var u :| u in rows && IsRowOf(u, p, c);
    assert IsRowOf(u, p, d);
  }

  lemma {:induction false} AllImportedAreApart(t: Tally, p: string, name: string, cs: seq<Charge>)
    ensures ImportAll(t, p, name, cs).imported == t.imported + |cs| ==>
              Apart(cs) && forall c :: c in cs ==> !Recorded(t.rows, p, c)
  {
    hide Recorded, SameKey, NewRow;
    if cs != [] && ImportAll(t, p, name, cs).imported == t.imported + |cs| {
      var n := |cs| - 1;
      var m := ImportAll(t, p, name, cs[..n]);
      ImportRecords(t, p, name, cs[..n]);
      AllImportedAreApart(t, p, name, cs[..n]);
      assert !Recorded(m.rows, p, cs[n]);
      if Recorded(t.rows, p, cs[n]) { RecordedStays(t.rows, m.rows, p, cs[n]); }
      forall i | 0 <= i < n ensures !SameKey(cs[i], cs[n]) {
        assert cs[..n][i] in cs[..n];
        if SameKey(cs[i], cs[n]) { SameKeySameRow(m.rows, p, cs[i], cs[n]); }
      }
      forall i, j | 0 <= i < j < |cs| ensures !SameKey(cs[i], cs[j]) {
        assert j < n ==> !SameKey(cs[..n][i], cs[..n][j]);
      }
      assert cs == cs[..n] + [cs[n]];
    }
  }

  /** An import records every item as a new row exactly when none is in the table yet and no two
      of them share a key. */
  lemma AllImportedExactly(rows: seq<Row>, p: string, name: string, cs: seq<Charge>)
    ensures ImportAll(Tally(rows, 0, 0), p, name, cs).imported == |cs|
       <==> Apart(cs) && forall c :: c in cs ==> !Recorded(rows, p, c)
  {
    hide Apart, Recorded, ImportAll;
    var t := Tally(rows, 0, 0);
    if ImportAll(t, p, name, cs).imported == |cs| { AllImportedAreApart(t, p, name, cs); }
    if Apart(cs) && forall c :: c in cs ==> !Recorded(rows, p, c) { ApartAllImported(t, p, name, cs); }
  }

  /** A first import of a report whose buckets cover different periods records every item: none is
      lost to a key clash, whatever the project and line texts are. */
  lemma NothingLost(rows: seq<Row>, p: string, name: string, payload: seq<Bucket>)
    requires PeriodsDiffer(payload)
    requires forall c :: c in Charges(payload) ==> !Recorded(rows, p, c)
    ensures ImportAll(Tally(rows, 0, 0), p, name, Charges(payload)).imported == |Charges(payload)|
  {
    ChargesApart(payload);
    ApartAllImported(Tally(rows, 0, 0), p, name, Charges(payload));
  }

  /** With two buckets of one period this fails: two different charges can share a key, and the
      second one's money is never recorded. */
  lemma ClashLosesCharge(p: string, name: string)
    ensures var payload := [Bucket(0, 1, [Item("a:b", "c", 1.0, "usd")]), Bucket(0, 1, [Item("a", "b:c", 2.0, "usd")])];
            ImportAll(Tally([], 0, 0), p, name, Charges(payload)) == Tally([NewRow(p, name, Charges(payload)[0])], 1, 1)
  {
    var b1 := Bucket(0, 1, [Item("a:b", "c", 1.0, "usd")]);
    var b2 := Bucket(0, 1, [Item("a", "b:c", 2.0, "usd")]);
    var c := Charge(0, 1, 0, b1.results[0]);
    var d := Charge(0, 1, 0, b2.results[0]);
    assert [b1, b2][..1] == [b1] && [b1][..0] == [];
    assert Charges([b1]) == [] + ChargesOf(b1) == [c];
    assert Charges([b1, b2]) == [c] + ChargesOf(b2) == [c, d];
    assert "a:b" + ":" + "c" == "a" + ":" + "b:c";
    SameKeyExactly(c, d);
    ImportAppend(Tally([], 0, 0), p, name, [], c);
    ImportAppend(Tally([], 0, 0), p, name, [c], d);
    assert [] + [c] == [c] && [c] + [d] == [c, d];
    assert IsRowOf(NewRow(p, name, c), p, d);
  }

  // ------------------------------------------------------ what a row carries

  /** An item counts as recorded exactly when a row of the provider has its bucket's period, the metric
      of costs and the item's key. */
  lemma RecordedExactly(rows: seq<Row>, p: string, c: Charge)
    ensures Recorded(rows, p, c) <==>
      exists u :: u in rows && u.providerId == p && u.periodStart == c.start && u.periodEnd == c.end
                  && u.metric == "cost_usd" && "import_key" in u.raw && u.raw["import_key"] == Key(c)
  {
    hide Key;
    if Recorded(rows, p, c) {
      var u :| u in rows && IsRowOf(u, p, c);
      assert u in rows && u.providerId == p && u.metric == "cost_usd";
    }
  }

  /** The key of an item, spelled out on an example. */
  lemma KeyText(item: Item)
    requires item.project == "proj" && item.line == "line"
    ensures Key(Charge(1, 2, 3, item)) == "openai-costs:1:2:proj:line:3"
  {
    assert Itoa(1) == "1" && Itoa(2) == "2" && Itoa(3) == "3";
  }

  /** A recorded item carries its value as cost and quantity, its bucket's period, and the source by
      which it supersedes estimates. */
  lemma RowCarries(p: string, name: string, c: Charge)
    ensures var u := NewRow(p, name, c);
      && u.providerId == p && u.providerName == name && u.periodStart == c.start && u.periodEnd == c.end
      && u.metric == "cost_usd" && u.cost == u.quantity == c.item.value && FromReport(u)
      && "import_key" in u.raw && u.raw["import_key"] == Key(c)
      && u.owner == None && u.workspace == None && u.tenant == None
  {
    hide TrimSpace, ToLower, Key;
    PlainText("openai_costs_api");
    var u := NewRow(p, name, c);
    assert "source" in u.raw && u.raw["source"] == "openai_costs_api";
  }

  /** So importing one item replaces the provider's estimate of the period by the item's value. */
  lemma ImportReplacesEstimate(p: string, name: string, c: Charge, v: Row, start: int)
    requires v.periodStart >= start && c.start >= start
    ensures var r := ImportAll(Tally([v], 0, 0), p, name, [c]);
            FromGateway(v) && EqualFold(v.providerName, name) && !Recorded([v], p, c) ==>
              Cost([v], start, Everything) == v.cost && Cost(r.rows, start, Everything) == c.item.value
  {
    hide Cost, FromGateway, FromReport, EqualFold, Recorded;
    ImportAppend(Tally([v], 0, 0), p, name, [], c);
    assert [] + [c] == [c];
    RowCarries(p, name, c);
    var u := NewRow(p, name, c);
    assert [v] + [u] == [v, u];
    SameNames(name, v.providerName);
    ReportSupersedesEstimate(u, v, start, Everything);
    OneRowCost(v, start, Everything);
  }

  lemma SameNames(a: string, b: string)
    ensures EqualFold(a, b) <==> EqualFold(b, a)
  {
  }
}
