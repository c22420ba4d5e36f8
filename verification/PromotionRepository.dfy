/** The repository of approved core-asset promotions: two indexes, advanced one batch at a time. */
module PromotionRepository {
  import opened Wrappers

  datatype DeviceType = Drive | Instrument | IoDevice | Controller | CommunicationDevice | OtherType | Unknown

  /** `rest` stands for everything about the object that promotions do not look at. */
  datatype Asset =
    | Plain(id: string, name: string, rest: string)
    | Device(id: string, name: string, deviceType: DeviceType,
             manufacturer: Option<string>, model: Option<string>, catalogNumber: Option<string>, rest: string)

  datatype Evidence = Evidence(protocol: string, observationTarget: string, identifier: string, description: string)

  datatype Record = Record(
    asset: Asset, identityKey: string, generations: seq<int>, targetKeys: seq<string>,
    promotedBy: string, promotedAt: string, rationale: string,
    evidence: seq<Evidence>, acknowledged: bool)

  datatype Status = Created | Updated | Unchanged

  datatype Item = Item(assetId: string, identityKey: string, status: Status)

  datatype Error =
    | DuplicateInitialAssets | DuplicateInitialIdentities
    | DuplicateAsset(assetId: string) | DuplicateIdentity(identityKey: string)
    | IdentityLinkedElsewhere(identityKey: string) | AssetLinkedElsewhere(assetId: string)
    | CoreFieldsDiffer(assetId: string) | HistoryDoesNotAdvance(assetId: string) | EvidenceDiscarded(assetId: string)
    | AssetInPlant(assetId: string)

  /** The core fields compared on every update. */
  function Signature(asset: Asset): Asset {
    asset.(rest := "")
  }

  function EvidenceKeys(r: Record): set<Evidence> {
    set e | e in r.evidence
  }

  datatype PlantView = PlantView(assets: seq<Asset>, otherIds: set<string>)

  /** The two indexes, and the plant's asset list when there is a plant. */
  datatype State = State(byAsset: map<string, Record>, byIdentity: map<string, string>, plant: Option<PlantView>)

  predicate InPlant(p: PlantView, id: string) {
    id in p.otherIds || exists n :: 0 <= n < |p.assets| && p.assets[n].id == id
  }

  datatype Planned = Planned(record: Record, status: Status)

  // ----- One record against the stored state

  function PlanNew(s: State, r: Record): Result<Planned, Error> {
    if s.plant.Some? && InPlant(s.plant.value, r.asset.id) then Failure(AssetInPlant(r.asset.id))
    else Success(Planned(r, Created))
  }

  function PlanAdvance(existing: Record, r: Record): Result<Planned, Error> {
    if existing.identityKey != r.identityKey then Failure(AssetLinkedElsewhere(r.asset.id))
    else if Signature(existing.asset) != Signature(r.asset) then Failure(CoreFieldsDiffer(r.asset.id))
    else if !(existing.generations <= r.generations) then Failure(HistoryDoesNotAdvance(r.asset.id))
    else if !(EvidenceKeys(existing) <= EvidenceKeys(r)) then Failure(EvidenceDiscarded(r.asset.id))
    else Success(Planned(r.(asset := existing.asset),
                         if existing.generations == r.generations then Unchanged else Updated))
  }

  function PlanOne(s: State, r: Record): Result<Planned, Error> {
    if r.identityKey in s.byIdentity && s.byIdentity[r.identityKey] != r.asset.id
    then Failure(IdentityLinkedElsewhere(r.identityKey))
    else if r.asset.id !in s.byAsset then PlanNew(s, r)
    else PlanAdvance(s.byAsset[r.asset.id], r)
  }

  // ----- A batch: all records are planned against the same state, then all are committed

  function Plan(s: State, batch: seq<Record>, assets: set<string>, identities: set<string>): Result<seq<Planned>, Error>
    decreases batch
  {
    if batch == [] then Success([])
    else
      var r := batch[0];
      if r.asset.id in assets then Failure(DuplicateAsset(r.asset.id))
      else if r.identityKey in identities then Failure(DuplicateIdentity(r.identityKey))
      else
        var first :- PlanOne(s, r);
        var rest :- Plan(s, batch[1..], assets + {r.asset.id}, identities + {r.identityKey});
        Success([first] + rest)
  }

  function CommitOne(s: State, p: Planned): State {
    if p.status.Unchanged? then s
    else
      var id := p.record.asset.id;
      State(s.byAsset[id := p.record], s.byIdentity[p.record.identityKey := id],
            if p.status.Created? && s.plant.Some?
            then Some(s.plant.value.(assets := s.plant.value.assets + [p.record.asset])) else s.plant)
  }

  function Commit(s: State, planned: seq<Planned>): State
    decreases planned
  {
    if planned == [] then s else Commit(CommitOne(s, planned[0]), planned[1..])
  }

  function ItemOf(p: Planned): Item {
    Item(p.record.asset.id, p.record.identityKey, p.status)
  }

  function ItemsOf(planned: seq<Planned>): seq<Item> {
    seq(|planned|, n requires 0 <= n < |planned| => ItemOf(planned[n]))
  }

  /** One `apply`: the next state, and the items in batch order or the reason for refusal. */
  function Step(s: State, batch: seq<Record>): (State, Result<seq<Item>, Error>) {
    match Plan(s, batch, {}, {})
    case Success(planned) => (Commit(s, planned), Success(ItemsOf(planned)))
    case Failure(e) => (s, Failure(e))
  }

  /** Any sequence of accepted and rejected batches. */
  function Run(s: State, batches: seq<seq<Record>>): State
    decreases batches
  {
    if batches == [] then s else Run(Step(s, batches[0]).0, batches[1..])
  }

  // ----- The indexes stay mutual inverses

  ghost predicate Consistent(s: State) {
    && (forall id :: id in s.byAsset ==>
          && s.byAsset[id].asset.id == id
          && s.byAsset[id].identityKey in s.byIdentity
          && s.byIdentity[s.byAsset[id].identityKey] == id)
    && (forall key :: key in s.byIdentity ==>
          && s.byIdentity[key] in s.byAsset
          && s.byAsset[s.byIdentity[key]].identityKey == key)
  }

  /** What planning a record against a state guarantees about the planned record. */
  ghost predicate Plannable(s: State, p: Planned) {
    var id, key := p.record.asset.id, p.record.identityKey;
    && (key in s.byIdentity ==> s.byIdentity[key] == id)
    && (p.status.Created? ==> id !in s.byAsset && (s.plant.Some? ==> !InPlant(s.plant.value, id)))
    && (!p.status.Created? ==> id in s.byAsset && Advances(s.byAsset[id], p.record))
    && (p.status.Unchanged? ==> s.byAsset[id].generations == p.record.generations)
  }

  /** `r` is a later version of `old`: same asset and identity, longer history, no evidence lost. */
  ghost predicate Advances(earlier: Record, r: Record) {
    && r.asset == earlier.asset && r.identityKey == earlier.identityKey
    && earlier.generations <= r.generations && EvidenceKeys(earlier) <= EvidenceKeys(r)
  }

  lemma PlanOneSound(s: State, r: Record)
    requires Consistent(s) && PlanOne(s, r).Success?
    ensures Plannable(s, PlanOne(s, r).value)
    ensures PlanOne(s, r).value.record.asset.id == r.asset.id
    ensures PlanOne(s, r).value.record.identityKey == r.identityKey
    ensures Signature(PlanOne(s, r).value.record.asset) == Signature(r.asset)
  {
    if r.asset.id in s.byAsset {
      assert Signature(s.byAsset[r.asset.id].asset).id == s.byAsset[r.asset.id].asset.id;
    }
  }

  lemma CommitOneConsistent(s: State, p: Planned)
    requires Consistent(s) && Plannable(s, p)
    ensures Consistent(CommitOne(s, p))
  {
  }

  /** Planned records of one batch name distinct assets and distinct identities. */
  ghost predicate Distinct(planned: seq<Planned>, assets: set<string>, identities: set<string>) {
    && (forall n :: 0 <= n < |planned| ==>
          planned[n].record.asset.id !in assets && planned[n].record.identityKey !in identities)
    && (forall m, n :: 0 <= m < n < |planned| ==>
          && planned[m].record.asset.id != planned[n].record.asset.id
          && planned[m].record.identityKey != planned[n].record.identityKey)
  }

  lemma {:induction false} PlanSound(s: State, batch: seq<Record>, assets: set<string>, identities: set<string>)
    requires Consistent(s) && Plan(s, batch, assets, identities).Success?
    ensures var planned := Plan(s, batch, assets, identities).value;
            && |planned| == |batch| && Distinct(planned, assets, identities)
            && forall n :: 0 <= n < |planned| ==>
                 Plannable(s, planned[n]) && PlanOne(s, batch[n]) == Success(planned[n])
    decreases batch
  {
    if batch != [] {
      hide Consistent, Plannable, PlanOne;
      var r := batch[0];
      PlanOneSound(s, r);
      PlanSound(s, batch[1..], assets + {r.asset.id}, identities + {r.identityKey});
      var planned := Plan(s, batch, assets, identities).value;
      var rest := Plan(s, batch[1..], assets + {r.asset.id}, identities + {r.identityKey}).value;
      assert planned == [PlanOne(s, r).value] + rest;
      forall n | 0 <= n < |planned| ensures Plannable(s, planned[n]) && PlanOne(s, batch[n]) == Success(planned[n]) {
        if n > 0 { assert planned[n] == rest[n - 1] && batch[n] == batch[1..][n - 1]; }
      }
      forall m, n | 0 <= m < n < |planned|
        ensures planned[m].record.asset.id != planned[n].record.asset.id
        ensures planned[m].record.identityKey != planned[n].record.identityKey
      {
        assert planned[n] == rest[n - 1];
        if m > 0 { assert planned[m] == rest[m - 1]; }
      }
    }
  }

  /** Committing one record leaves the others of the same batch plannable. */
  lemma StillPlannable(s: State, p: Planned, q: Planned)
    requires Plannable(s, p) && Plannable(s, q)
    requires p.record.asset.id != q.record.asset.id && p.record.identityKey != q.record.identityKey
    ensures Plannable(CommitOne(s, p), q)
  {
    var s' := CommitOne(s, p);
    if s.plant.Some? && q.status.Created? {
      var before, after := s.plant.value, s'.plant.value;
      forall n | 0 <= n < |after.assets| ensures after.assets[n].id != q.record.asset.id {
        if n < |before.assets| { assert after.assets[n] == before.assets[n]; }
      }
    }
  }

  lemma {:induction false} CommitConsistent(s: State, planned: seq<Planned>, assets: set<string>, identities: set<string>)
    requires Consistent(s) && Distinct(planned, assets, identities)
    requires forall n :: 0 <= n < |planned| ==> Plannable(s, planned[n])
    ensures Consistent(Commit(s, planned))
    decreases planned
  {
    if planned != [] {
      hide Consistent, Plannable, CommitOne;
      var s' := CommitOne(s, planned[0]);
      CommitOneConsistent(s, planned[0]);
      forall n | 0 <= n < |planned[1..]| ensures Plannable(s', planned[1..][n]) {
        StillPlannable(s, planned[0], planned[n + 1]);
      }
      forall m, n | 0 <= m < n < |planned[1..]|
        ensures planned[1..][m].record.asset.id != planned[1..][n].record.asset.id
        ensures planned[1..][m].record.identityKey != planned[1..][n].record.identityKey
      {
        assert planned[1..][m] == planned[m + 1] && planned[1..][n] == planned[n + 1];
      }
      CommitConsistent(s', planned[1..], {}, {});
    }
  }

  lemma StepConsistent(s: State, batch: seq<Record>)
    requires Consistent(s)
    ensures Consistent(Step(s, batch).0)
    ensures Step(s, batch).1.Failure? ==> Step(s, batch).0 == s
  {
    hide Consistent, Plannable;
    if Plan(s, batch, {}, {}).Success? {
      PlanSound(s, batch, {}, {});
      CommitConsistent(s, Plan(s, batch, {}, {}).value, {}, {});
    }
  }

  /** In every reachable state the two indexes are mutual inverses that agree with the records. */
  lemma {:induction false} RunConsistent(s: State, batches: seq<seq<Record>>)
    requires Consistent(s)
    ensures Consistent(Run(s, batches))
    decreases batches
  {
    hide Consistent, Step;
    if batches != [] {
      StepConsistent(s, batches[0]);
      RunConsistent(Step(s, batches[0]).0, batches[1..]);
    }
  }

  // ----- History only moves forward

  /** Everything stored before is still stored, in a later version, under the same identity. */
  ghost predicate Extends(a: State, b: State) {
    forall id :: id in a.byAsset ==> id in b.byAsset && Advances(a.byAsset[id], b.byAsset[id])
  }

  lemma {:induction false} CommitExtends(s: State, planned: seq<Planned>, assets: set<string>, identities: set<string>)
    requires Distinct(planned, assets, identities)
    requires forall n :: 0 <= n < |planned| ==> Plannable(s, planned[n])
    ensures Extends(s, Commit(s, planned))
    decreases planned
  {
    if planned != [] {
      hide Plannable, CommitOne, Advances;
      var s' := CommitOne(s, planned[0]);
      CommitOneExtends(s, planned[0]);
      forall n | 0 <= n < |planned[1..]| ensures Plannable(s', planned[1..][n]) {
        StillPlannable(s, planned[0], planned[n + 1]);
      }
      forall m, n | 0 <= m < n < |planned[1..]|
        ensures planned[1..][m].record.asset.id != planned[1..][n].record.asset.id
        ensures planned[1..][m].record.identityKey != planned[1..][n].record.identityKey
      {
        assert planned[1..][m] == planned[m + 1] && planned[1..][n] == planned[n + 1];
      }
      CommitExtends(s', planned[1..], {}, {});
      ExtendsTransitive(s, s', Commit(s, planned));
    } else {
      ExtendsReflexive(s);
    }
  }

  lemma CommitOneExtends(s: State, p: Planned)
    requires Plannable(s, p)
    ensures Extends(s, CommitOne(s, p))
  {
  }

  lemma ExtendsReflexive(s: State)
    ensures Extends(s, s)
  {
  }

  lemma ExtendsTransitive(a: State, b: State, c: State)
    requires Extends(a, b) && Extends(b, c)
    ensures Extends(a, c)
  {
    forall id | id in a.byAsset ensures id in c.byAsset && Advances(a.byAsset[id], c.byAsset[id]) {
      assert Advances(a.byAsset[id], b.byAsset[id]) && Advances(b.byAsset[id], c.byAsset[id]);
      PrefixTransitive(a.byAsset[id].generations, b.byAsset[id].generations, c.byAsset[id].generations);
    }
  }

  lemma PrefixTransitive(a: seq<int>, b: seq<int>, c: seq<int>)
    requires a <= b <= c
    ensures a <= c
  {
  }

  /**
   * Over any run each stored asset keeps its core asset and durable identity, its generations
   * only grow at the end, and no retained evidence is lost.
   */
  lemma {:induction false} RunExtends(s: State, batches: seq<seq<Record>>)
    requires Consistent(s)
    ensures Extends(s, Run(s, batches))
    decreases batches
  {
    hide Consistent, Plannable, Extends, Commit;
    if batches == [] {
      ExtendsReflexive(s);
    } else {
      var s' := Step(s, batches[0]).0;
      if Plan(s, batches[0], {}, {}).Success? {
        PlanSound(s, batches[0], {}, {});
        CommitExtends(s, Plan(s, batches[0], {}, {}).value, {}, {});
      } else {
        ExtendsReflexive(s);
      }
      StepConsistent(s, batches[0]);
      RunExtends(s', batches[1..]);
      ExtendsTransitive(s, s', Run(s, batches));
    }
  }
}
