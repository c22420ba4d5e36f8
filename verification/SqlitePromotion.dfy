/** The SQLite adapter: one transaction per batch over a table of documents. */
module SqlitePromotion {
  import opened Wrappers
  import opened PromotionRepository
  import opened RecordCodec
  import opened TextOrder
  import Store = PromotionStore

  /** A row of `promotion`; the table's primary key is the asset ID. */
  datatype Row = Row(identityKey: string, document: Json)

  type Table = map<string, Row>

  datatype SqlError =
    | Refused(reason: Error)       // the batch conflicts with durable state
    | Constraint                   // UNIQUE(identity_key) violated
    | Unreadable                   // a stored document cannot be decoded

  function RowOf(r: Record): Row {
    Row(r.identityKey, RecordData(r))
  }

  function TableOf(s: State): Table {
    map id | id in s.byAsset :: RowOf(s.byAsset[id])
  }

  /** The same repository without what documents do not hold. */
  function StrippedState(s: State): State {
    s.(byAsset := map id | id in s.byAsset :: Stripped(s.byAsset[id]))
  }

  /** The table is what some in-memory repository without a plant would have written. */
  ghost predicate Stores(table: Table, s: State) {
    Consistent(s) && s.plant.None? && table == TableOf(s)
  }

  // ----- Planning and committing do not look outside the documents

  function StrippedPlan(p: Planned): Planned {
    p.(record := Stripped(p.record))
  }

  /** Two plans that write the same documents and report the same statuses. */
  ghost predicate SamePlan(a: Result<seq<Planned>, Error>, b: Result<seq<Planned>, Error>) {
    match (a, b)
    case (Success(p), Success(q)) =>
      |p| == |q| && forall n :: 0 <= n < |p| ==> StrippedPlan(p[n]) == StrippedPlan(q[n])
    case (Failure(e), Failure(f)) => e == f
    case _ => false
  }

  lemma StrippedPlanOne(s: State, r: Record)
    requires s.plant.None?
    ensures match (PlanOne(s, r), PlanOne(StrippedState(s), r))
            case (Success(p), Success(q)) => StrippedPlan(p) == StrippedPlan(q)
            case (Failure(e), Failure(f)) => e == f
            case _ => false
  {
    if r.asset.id in s.byAsset {
      assert Signature(Signature(s.byAsset[r.asset.id].asset)) == Signature(s.byAsset[r.asset.id].asset);
    }
  }

  lemma {:induction false} StrippedPlans(s: State, batch: seq<Record>, assets: set<string>, identities: set<string>)
    requires s.plant.None?
    ensures SamePlan(Plan(s, batch, assets, identities), Plan(StrippedState(s), batch, assets, identities))
    decreases batch
  {
    hide PlanOne, StrippedState, StrippedPlan;
    if batch != [] {
      var r := batch[0];
      StrippedPlanOne(s, r);
      StrippedPlans(s, batch[1..], assets + {r.asset.id}, identities + {r.identityKey});
    }
  }

  /** Two states with the same documents and the same identity index. */
  ghost predicate SameStored(a: State, b: State) {
    TableOf(a) == TableOf(b) && a.byIdentity == b.byIdentity && a.plant.None? && b.plant.None?
  }

  lemma CommittedRow(s: State, p: Planned)
    requires s.plant.None? && !p.status.Unchanged?
    ensures TableOf(CommitOne(s, p)) == TableOf(s)[p.record.asset.id := RowOf(p.record)]
  {
    hide RowOf;
  }

  lemma SameRow(p: Planned, q: Planned)
    requires StrippedPlan(p) == StrippedPlan(q)
    ensures p.status == q.status && p.record.identityKey == q.record.identityKey
    ensures p.record.asset.id == q.record.asset.id && RowOf(p.record) == RowOf(q.record)
  {
    hide RecordData;
    assert Stripped(p.record).asset.id == p.record.asset.id && Stripped(q.record).asset.id == q.record.asset.id;
    SameDocument(p.record);
    SameDocument(q.record);
  }

  lemma SameCommitOne(a: State, b: State, p: Planned, q: Planned)
    requires SameStored(a, b) && StrippedPlan(p) == StrippedPlan(q)
    ensures SameStored(CommitOne(a, p), CommitOne(b, q))
  {
    hide RowOf, StrippedPlan, TableOf;
    SameRow(p, q);
    if !p.status.Unchanged? {
      CommittedRow(a, p);
      CommittedRow(b, q);
    }
  }

  lemma {:induction false} SameCommit(a: State, b: State, p: seq<Planned>, q: seq<Planned>)
    requires SameStored(a, b) && |p| == |q|
    requires forall n :: 0 <= n < |p| ==> StrippedPlan(p[n]) == StrippedPlan(q[n])
    ensures SameStored(Commit(a, p), Commit(b, q))
    decreases p
  {
    hide SameStored, StrippedPlan, CommitOne;
    if p != [] {
      SameCommitOne(a, b, p[0], q[0]);
      SameCommit(CommitOne(a, p[0]), CommitOne(b, q[0]), p[1..], q[1..]);
    }
  }

  lemma StrippedSameStored(s: State)
    requires s.plant.None?
    ensures SameStored(s, StrippedState(s))
  {
    forall id | id in s.byAsset ensures RowOf(Stripped(s.byAsset[id])) == RowOf(s.byAsset[id]) {
      SameDocument(s.byAsset[id]);
    }
  }

  lemma StrippedConsistent(s: State)
    requires Consistent(s)
    ensures Consistent(StrippedState(s))
  {
  }

  lemma PlanKeepsPlant(s: State, p: seq<Planned>)
    requires s.plant.None?
    ensures Commit(s, p).plant.None?
    decreases p
  {
    if p != [] { PlanKeepsPlant(CommitOne(s, p[0]), p[1..]); }
  }

  lemma SameItems(p: seq<Planned>, q: seq<Planned>)
    requires |p| == |q| && forall n :: 0 <= n < |p| ==> StrippedPlan(p[n]) == StrippedPlan(q[n])
    ensures ItemsOf(p) == ItemsOf(q)
  {
    forall n | 0 <= n < |p| ensures ItemOf(p[n]) == ItemOf(q[n]) {
      assert Stripped(p[n].record).asset.id == p[n].record.asset.id;
      assert Stripped(q[n].record).asset.id == q[n].record.asset.id;
    }
  }

  /** One step on the stripped state answers alike and leaves the same table. */
  lemma StrippedStep(s: State, batch: seq<Record>)
    requires Consistent(s) && s.plant.None?
    ensures Step(StrippedState(s), batch).1 == Step(s, batch).1
    ensures TableOf(Step(StrippedState(s), batch).0) == TableOf(Step(s, batch).0)
    ensures Consistent(Step(s, batch).0) && Step(s, batch).0.plant.None?
  {
    hide Plan, Commit, ItemsOf, Consistent, StrippedState, StrippedPlan;
    StrippedPlans(s, batch, {}, {});
    StrippedSameStored(s);
    StepConsistent(s, batch);
    var a, b := Plan(s, batch, {}, {}), Plan(StrippedState(s), batch, {}, {});
    if a.Success? {
      SameCommit(s, StrippedState(s), a.value, b.value);
      SameItems(a.value, b.value);
      PlanKeepsPlant(s, a.value);
    }
  }

  // ----- The adapter

  lemma IdentityRows(table: Table, s: State)
    requires Stores(table, s)
    ensures forall key :: key in s.byIdentity ==>
      s.byIdentity[key] in table && table[s.byIdentity[key]].identityKey == key
  {
    hide RecordData;
  }

  /** No other row carries the identity. */
  predicate IdentityFree(table: Table, id: string, key: string) {
    forall other :: other in table && other != id ==> table[other].identityKey != key
  }

  method Upsert(table: Table, id: string, row: Row) returns (r: Option<Table>)
    ensures r == if IdentityFree(table, id, row.identityKey) then Some(table[id := row]) else None
  {
    var others := table.Keys - {id};
    while others != {}
      invariant others <= table.Keys - {id}
      invariant forall other :: other in table && other != id && other !in others ==> table[other].identityKey != row.identityKey
      decreases |others|
    {
      var other := AnyOf(others);
      if table[other].identityKey == row.identityKey { return None; }
      others := others - {other};
    }
    return Some(table[id := row]);
  }

  class SqlitePromotionRepository {
    var table: Table

    constructor ()
      ensures table == map[]
    {
      table := map[];
    }

    /** The record stored for an asset. */
    function GetByAssetId(id: string): Option<Record>
      reads this
    {
      if id in table then RecordOf(table[id].document) else None
    }

    /** The record stored under an identity. */
    method GetByIdentityKey(key: string) returns (r: Option<Record>)
      ensures forall s :: Stores(table, s) ==>
        r == if key in s.byIdentity then Some(Stripped(s.byAsset[s.byIdentity[key]])) else None
    {
      hide RecordData, RecordOf;
      var ids := table.Keys;
      while ids != {}
        invariant ids <= table.Keys
        invariant forall id :: id in table && id !in ids ==> table[id].identityKey != key
        decreases |ids|
      {
        var id := AnyOf(ids);
        if table[id].identityKey == key {
          forall s | Stores(table, s)
            ensures key in s.byIdentity && s.byIdentity[key] == id
            ensures RecordOf(table[id].document) == Some(Stripped(s.byAsset[id]))
          {
            RoundTrip(s.byAsset[id]);
          }
          return RecordOf(table[id].document);
        }
        ids := ids - {id};
      }
      forall s | Stores(table, s) ensures key !in s.byIdentity { IdentityRows(table, s); }
      return None;
    }

    /** All rows, decoded. */
    method Load() returns (r: Option<seq<Record>>)
      ensures forall s :: Stores(table, s) ==> r.Some? && Holds(r.value, StrippedState(s))
    {
      hide RecordOf, RecordData, Consistent;
      var records: seq<Record> := [];
      var ids := table.Keys;
      while ids != {}
        invariant ids <= table.Keys && |records| + |ids| == |table|
        invariant forall s :: Stores(table, s) ==> HoldsBut(records, StrippedState(s), ids)
        decreases |ids|
      {
        var id := AnyOf(ids);
        var record := RecordOf(table[id].document);
        forall s | Stores(table, s) ensures record == Some(StrippedState(s).byAsset[id]) {
          RoundTrip(s.byAsset[id]);
        }
        if record == None { return None; }
        forall s | Stores(table, s) ensures HoldsBut(records + [record.value], StrippedState(s), ids - {id}) {
          StoredId(s, id);
          OneMore(records, StrippedState(s), ids, id);
        }
        records := records + [record.value];
        ids := ids - {id};
      }
      return Some(records);
    }

    /** One batch against the latest committed rows; any refusal rolls back. */
    method Apply(batch: seq<Record>) returns (result: Result<seq<Item>, SqlError>)
      modifies this
      ensures result.Failure? ==> table == old(table)
      ensures forall s :: Stores(old(table), s) ==>
        && Stores(table, Step(s, batch).0)
        && match Step(s, batch).1
           case Failure(e) => result == Failure(Refused(e))
           case Success(items) => result == Success(Sort(items, Store.ItemKey))
    {
      hide RecordOf, RecordData, Consistent, Holds, StrippedState, TableOf, Step, StepAgrees, Older, RowOf, Sort, NoRepeats;
      var records := Load();
      if records == None { return Failure(Unreadable); }
      var reference := Store.Open(null, records.value);
      if reference.Failure? {
        forall s | Stores(table, s) ensures false { OpensOn(records.value, s); }
        return Failure(Refused(reference.error));
      }
      ghost var loaded := reference.value.Current();
      forall s | Stores(table, s) ensures loaded == StrippedState(s) { LoadedState(records.value, s, loaded); }
      var outcome := reference.value.Apply(batch);
      ghost var after := reference.value.Current();
      StepConsistent(loaded, batch);
      forall s | Stores(table, s) ensures StepAgrees(table, s, batch, after) { StepFromLoaded(table, s, batch); }
      if outcome.Failure? {
        forall s | Stores(table, s) ensures Step(s, batch) == (s, Failure(outcome.error)) {
          assert StepAgrees(table, s, batch, after);
          AgreesOlder(table, s, batch, after);
          StepConsistent(s, batch);
        }
        return Failure(Refused(outcome.error));
      }
      var rows := reference.value.Records();
      AllHeld(rows, after);
      var written := WriteAll(rows, after);
      if written == None {
        forall s | Stores(table, s) ensures false { assert StepAgrees(table, s, batch, after); AgreesOlder(table, s, batch, after); }
        return Failure(Constraint);
      }
      forall s | Stores(table, s)
        ensures Stores(written.value, Step(s, batch).0) && Step(s, batch).1 == Step(loaded, batch).1
      {
        assert StepAgrees(table, s, batch, after);
        AgreesOlder(table, s, batch, after);
      }
      table := written.value;
      return Success(outcome.value);
    }

    /** The upsert loop, against a copy that is only committed when every row went in. */
    method WriteAll(records: seq<Record>, ghost after: State) returns (r: Option<Table>)
      requires Holds(records, after) && Consistent(after)
      ensures Older(table, after) ==> r == Some(TableOf(after))
    {
      hide RecordData, Consistent;
      var pending := table;
      for n := 0 to |records|
        invariant Older(table, after) ==> Pending(table, after, records[..n], pending)
      {
        var id := records[n].asset.id;
        var next := Upsert(pending, id, RowOf(records[n]));
        if Older(table, after) { NextRow(table, after, records, n, pending); }
        if next == None { return None; }
        pending := next.value;
      }
      assert records[..|records|] == records;
      if Older(table, after) { AllWritten(table, after, records, pending); }
      return Some(pending);
    }
  }

  /** Every stored row belongs to an asset that keeps its identity in the new state. */
  ghost predicate Older(table: Table, after: State) {
    forall id :: id in table ==> id in after.byAsset && table[id].identityKey == after.byAsset[id].identityKey
  }

  ghost predicate Pending(table: Table, after: State, done: seq<Record>, pending: Table) {
    forall id :: if id in Store.IdsOf(done) then id in after.byAsset && id in pending && pending[id] == RowOf(after.byAsset[id])
                 else (id in pending <==> id in table) && (id in table ==> pending[id] == table[id])
  }

  lemma NextRow(table: Table, after: State, records: seq<Record>, n: nat, pending: Table)
    requires Holds(records, after) && Consistent(after) && Older(table, after) && n < |records|
    requires Pending(table, after, records[..n], pending)
    ensures IdentityFree(pending, records[n].asset.id, records[n].identityKey)
    ensures Pending(table, after, records[..n + 1], pending[records[n].asset.id := RowOf(records[n])])
  {
    hide RecordData, NoRepeats;
    var record, id := records[n], records[n].asset.id;
    assert record in records;
    MoreIds(records, n);
    forall other | other in pending && other != id ensures pending[other].identityKey != record.identityKey {
      assert other in after.byAsset && pending[other].identityKey == after.byAsset[other].identityKey;
      assert after.byIdentity[after.byAsset[other].identityKey] == other;
    }
  }

  lemma MoreIds(records: seq<Record>, n: nat)
    requires n < |records|
    ensures forall k :: k in Store.IdsOf(records[..n + 1]) <==> k in Store.IdsOf(records[..n]) || k == records[n].asset.id
  {
    assert Store.IdsOf(records[..n + 1]) == Store.IdsOf(records[..n]) + [records[n].asset.id];
  }

  lemma AllWritten(table: Table, after: State, records: seq<Record>, pending: Table)
    requires Holds(records, after) && Consistent(after) && Older(table, after)
    requires Pending(table, after, records, pending)
    ensures pending == TableOf(after)
  {
    hide RowOf;
    forall id | id in after.byAsset ensures id in Store.IdsOf(records) { HeldId(records, after, id); }
  }

  lemma HeldId(records: seq<Record>, s: State, id: string)
    requires Holds(records, s) && Consistent(s) && id in s.byAsset
    ensures id in Store.IdsOf(records)
  {
    assert s.byAsset[id] in records;
    var n :| 0 <= n < |records| && records[n] == s.byAsset[id];
    assert Store.IdsOf(records)[n] == id;
  }

  /** `after` is the step on what was loaded: it answers and stores as the step on `s` does. */
  ghost predicate StepAgrees(table: Table, s: State, batch: seq<Record>, after: State) {
    && after == Step(StrippedState(s), batch).0
    && Step(StrippedState(s), batch).1 == Step(s, batch).1
    && TableOf(after) == TableOf(Step(s, batch).0)
    && Older(table, after) && Consistent(Step(s, batch).0) && Step(s, batch).0.plant.None?
  }

  lemma StepFromLoaded(table: Table, s: State, batch: seq<Record>)
    requires Stores(table, s)
    ensures StepAgrees(table, s, batch, Step(StrippedState(s), batch).0)
  {
    hide Step, RecordData;
    StrippedStep(s, batch);
    StrippedConsistent(s);
    RunExtends(StrippedState(s), [batch]);
    OneRun(StrippedState(s), batch);
    var after := Step(StrippedState(s), batch).0;
    forall id | id in table ensures id in after.byAsset && table[id].identityKey == after.byAsset[id].identityKey {
      assert id in StrippedState(s).byAsset;
    }
  }

  lemma OneRun(s: State, batch: seq<Record>)
    ensures Run(s, [batch]) == Step(s, batch).0
  {
    hide Step;
    assert [batch][1..] == [];
    assert Run(Step(s, batch).0, []) == Step(s, batch).0;
  }

  lemma AgreesOlder(table: Table, s: State, batch: seq<Record>, after: State)
    requires StepAgrees(table, s, batch, after)
    ensures Older(table, after) && Stores(TableOf(after), Step(s, batch).0)
    ensures Step(StrippedState(s), batch).1 == Step(s, batch).1
  {
  }

  lemma AllHeld(records: seq<Record>, s: State)
    requires NoRepeats(Store.IdsOf(records))
    requires forall r :: r in records <==> r.asset.id in s.byAsset && s.byAsset[r.asset.id] == r
    ensures Holds(records, s)
  {
  }

  /** Decoded rows never repeat an identity either, so the reference repository opens. */
  lemma OpensOn(records: seq<Record>, s: State)
    requires Consistent(s) && Holds(records, StrippedState(s))
    ensures NoRepeats(Store.IdsOf(records)) && NoRepeats(Store.IdentitiesOf(records))
  {
    var keys := Store.IdentitiesOf(records);
    StrippedConsistent(s);
    forall i, j | 0 <= i < j < |keys| ensures keys[i] != keys[j] {
      assert records[i] in records && records[j] in records;
      assert Store.IdsOf(records)[i] != Store.IdsOf(records)[j];
    }
  }

  lemma LoadedState(records: seq<Record>, s: State, loaded: State)
    requires Consistent(s) && s.plant.None? && Holds(records, StrippedState(s))
    requires Consistent(loaded) && loaded.plant.None?
    requires forall id :: id in loaded.byAsset ==> loaded.byAsset[id] in records
    requires forall r :: r in records ==> r.asset.id in loaded.byAsset && loaded.byAsset[r.asset.id] == r
    ensures loaded == StrippedState(s)
  {
    var t := StrippedState(s);
    StrippedConsistent(s);
    forall id ensures id in loaded.byAsset <==> id in t.byAsset {
      if id in t.byAsset { assert t.byAsset[id] in records; }
    }
    forall id | id in t.byAsset ensures loaded.byAsset[id] == t.byAsset[id] { assert t.byAsset[id] in records; }
    assert loaded.byAsset == t.byAsset;
    SameIdentities(loaded, t);
  }

  lemma SameIdentities(a: State, b: State)
    requires Consistent(a) && Consistent(b) && a.byAsset == b.byAsset
    ensures a.byIdentity == b.byIdentity
  {
    forall key ensures key in a.byIdentity <==> key in b.byIdentity {
      if key in a.byIdentity { assert a.byAsset[a.byIdentity[key]].identityKey == key; }
      if key in b.byIdentity { assert b.byAsset[b.byIdentity[key]].identityKey == key; }
    }
  }

  /** The records are those of the state, each once. */
  ghost predicate Holds(records: seq<Record>, s: State) {
    HoldsBut(records, s, {})
  }

  ghost predicate HoldsBut(records: seq<Record>, s: State, ids: set<string>) {
    && NoRepeats(Store.IdsOf(records))
    && forall r :: r in records <==> r.asset.id in s.byAsset && r.asset.id !in ids && s.byAsset[r.asset.id] == r
  }

  lemma StoredId(s: State, id: string)
    requires Consistent(s) && id in s.byAsset
    ensures StrippedState(s).byAsset[id].asset.id == id
  {
  }

  lemma OneMore(records: seq<Record>, s: State, ids: set<string>, id: string)
    requires HoldsBut(records, s, ids) && id in ids && id in s.byAsset && s.byAsset[id].asset.id == id
    ensures HoldsBut(records + [s.byAsset[id]], s, ids - {id})
  {
    var more := records + [s.byAsset[id]];
    forall m | 0 <= m < |records| ensures Store.IdsOf(more)[m] != id {
      assert records[m] in records;
    }
    forall i, j | 0 <= i < j < |more| ensures Store.IdsOf(more)[i] != Store.IdsOf(more)[j] {
      if j < |records| { assert Store.IdsOf(records)[i] != Store.IdsOf(records)[j]; }
    }
  }

  /** Each asset's row reads back as its in-memory record, up to what documents do not hold. */
  lemma SameRecordPerAsset(repository: SqlitePromotionRepository, s: State, id: string)
    requires Stores(repository.table, s)
    ensures repository.GetByAssetId(id) == if id in s.byAsset then Some(Stripped(s.byAsset[id])) else None
  {
    hide RecordOf, RecordData;
    if id in s.byAsset { RoundTrip(s.byAsset[id]); }
  }

  // ----- Whole runs

  /** The outcomes of a run of batches, one after the other. */
  function Outcomes(s: State, batches: seq<seq<Record>>): seq<Result<seq<Item>, Error>>
    decreases batches
  {
    if batches == [] then []
    else [Step(s, batches[0]).1] + Outcomes(Step(s, batches[0]).0, batches[1..])
  }

  /** What the adapter answers to one batch, from its rows alone. */
  function Answer(outcome: Result<seq<Item>, Error>): Result<seq<Item>, SqlError> {
    match outcome
    case Success(items) => Success(Sort(items, Store.ItemKey))
    case Failure(e) => Failure(Refused(e))
  }

  /**
   * Any serialized run of batches against the table answers exactly as the in-memory repository
   * does, and leaves the table that stores its final state.
   */
  method ApplyAll(repository: SqlitePromotionRepository, batches: seq<seq<Record>>, ghost s: State)
    returns (answers: seq<Result<seq<Item>, SqlError>>)
    requires Stores(repository.table, s)
    modifies repository
    ensures Stores(repository.table, Run(s, batches))
    ensures |answers| == |Outcomes(s, batches)| == |batches|
    ensures forall n :: 0 <= n < |answers| ==> answers[n] == Answer(Outcomes(s, batches)[n])
  {
    hide Stores, Step, Sort, Answer;
    answers := [];
    ghost var now, past := s, [];
    for n := 0 to |batches|
      invariant Stores(repository.table, now) && Run(s, batches) == Run(now, batches[n..])
      invariant Outcomes(s, batches) == past + Outcomes(now, batches[n..])
      invariant |answers| == |past| == n && forall k :: 0 <= k < n ==> answers[k] == Answer(past[k])
    {
      RunOn(now, batches, n);
      var answer := ApplyOne(repository, batches[n], now);
      answers := answers + [answer];
      past := past + [Step(now, batches[n]).1];
      now := Step(now, batches[n]).0;
    }
    assert past + [] == past;
  }

  lemma RunOn(s: State, batches: seq<seq<Record>>, n: nat)
    requires n < |batches|
    ensures Run(s, batches[n..]) == Run(Step(s, batches[n]).0, batches[n + 1..])
    ensures forall past ::
      (past + Outcomes(s, batches[n..])
       == past + [Step(s, batches[n]).1] + Outcomes(Step(s, batches[n]).0, batches[n + 1..]))
  {
    hide Step;
    assert batches[n..][1..] == batches[n + 1..];
  }

  method ApplyOne(repository: SqlitePromotionRepository, batch: seq<Record>, ghost s: State)
    returns (answer: Result<seq<Item>, SqlError>)
    requires Stores(repository.table, s)
    modifies repository
    ensures Stores(repository.table, Step(s, batch).0) && answer == Answer(Step(s, batch).1)
  {
    hide Step, Sort, Consistent, TableOf;
    answer := repository.Apply(batch);
  }
}
