/** The in-memory repository, updated in place. */
module PromotionStore {
  import opened Wrappers
  import opened PromotionRepository
  import opened TextOrder

  class Plant {
    var assets: seq<Asset>
    var otherIds: set<string>          // of controllers and networks

    constructor (assets: seq<Asset>, otherIds: set<string>)
      ensures this.assets == assets && this.otherIds == otherIds
    {
      this.assets, this.otherIds := assets, otherIds;
    }

    method AddAsset(asset: Asset)
      modifies this
      ensures assets == old(assets) + [asset] && otherIds == old(otherIds)
    {
      assets := assets + [asset];
    }
  }

  /** The planned records of a batch prefix, in front of what planning the rest gives. */
  function Resumed(planned: seq<Planned>, rest: Result<seq<Planned>, Error>): Result<seq<Planned>, Error> {
    if rest.Failure? then rest else Success(planned + rest.value)
  }

  lemma PlanResumes(s: State, batch: seq<Record>, n: nat, planned: seq<Planned>, assets: set<string>, identities: set<string>)
    requires n < |batch| && batch[n].asset.id !in assets && batch[n].identityKey !in identities
    ensures PlanOne(s, batch[n]).Success? ==>
      Resumed(planned, Plan(s, batch[n..], assets, identities))
      == Resumed(planned + [PlanOne(s, batch[n]).value],
                 Plan(s, batch[n + 1..], assets + {batch[n].asset.id}, identities + {batch[n].identityKey}))
    ensures PlanOne(s, batch[n]).Failure? ==>
      Resumed(planned, Plan(s, batch[n..], assets, identities)) == Failure(PlanOne(s, batch[n]).error)
  {
    hide PlanOne;
    assert batch[n..][0] == batch[n] && batch[n..][1..] == batch[n + 1..];
    if PlanOne(s, batch[n]).Success? {
      var rest := Plan(s, batch[n + 1..], assets + {batch[n].asset.id}, identities + {batch[n].identityKey});
      if rest.Success? {
        var p := PlanOne(s, batch[n]).value;
        assert planned + ([p] + rest.value) == planned + [p] + rest.value;
      }
    }
  }

  function ItemKey(item: Item): string {
    item.assetId
  }

  class InMemoryPromotionRepository {
    const plant: Plant?
    var byAsset: map<string, Record>
    var byIdentity: map<string, string>

    function Current(): State
      reads this, plant
    {
      State(byAsset, byIdentity, if plant == null then None else Some(PlantView(plant.assets, plant.otherIds)))
    }

    constructor (plant: Plant?, byAsset: map<string, Record>, byIdentity: map<string, string>)
      ensures this.plant == plant && this.byAsset == byAsset && this.byIdentity == byIdentity
    {
      this.plant, this.byAsset, this.byIdentity := plant, byAsset, byIdentity;
    }

    function GetByAssetId(id: string): Option<Record>
      reads this
    {
      if id in byAsset then Some(byAsset[id]) else None
    }

    function GetByIdentityKey(key: string): Option<Record>
      reads this
    {
      if key in byIdentity then GetByAssetId(byIdentity[key]) else None
    }

    /** The identity index finds exactly the record stored under the identity. */
    lemma IdentityLookup(key: string)
      requires Consistent(Current())
      ensures GetByIdentityKey(key).Some? <==> exists id :: id in byAsset && byAsset[id].identityKey == key
      ensures forall id :: id in byAsset && byAsset[id].identityKey == key ==> GetByIdentityKey(key) == Some(byAsset[id])
    {
      if key in byIdentity { assert byIdentity[key] in byAsset; }
    }

    method Apply(batch: seq<Record>) returns (result: Result<seq<Item>, Error>)
      modifies this, plant
      ensures Current() == Step(old(Current()), batch).0
      ensures match Step(old(Current()), batch).1
              case Failure(e) => result == Failure(e)
              case Success(items) => result == Success(Sort(items, ItemKey))
    {
      hide Plan, PlanOne, Commit, CommitOne, Sort;
      ghost var s := Current();
      var planned := PlanBatch(batch);
      if planned.Failure? { return Failure(planned.error); }
      CommitBatch(planned.value);
      return Success(Sort(ItemsOf(planned.value), ItemKey));
    }

    /** The first loop of `apply`: every record is checked against the state before the batch. */
    method PlanBatch(batch: seq<Record>) returns (result: Result<seq<Planned>, Error>)
      ensures result == Plan(Current(), batch, {}, {})
    {
      hide PlanOne, PlanNew, PlanAdvance, InPlant;
      var planned: seq<Planned>, assets: set<string>, identities: set<string> := [], {}, {};
      var s := Current();
      assert batch[0..] == batch;
      assert Resumed([], Plan(s, batch, {}, {})) == Plan(s, batch, {}, {}) by {
        if Plan(s, batch, {}, {}).Success? { assert [] + Plan(s, batch, {}, {}).value == Plan(s, batch, {}, {}).value; }
      }
      for n := 0 to |batch|
        invariant Plan(s, batch, {}, {}) == Resumed(planned, Plan(s, batch[n..], assets, identities))
      {
        var record := batch[n];
        var id, key := record.asset.id, record.identityKey;
        assert batch[n..][0] == record;
        if id in assets { return Failure(DuplicateAsset(id)); }
        if key in identities { return Failure(DuplicateIdentity(key)); }
        PlanResumes(s, batch, n, planned, assets, identities);
        assets, identities := assets + {id}, identities + {key};
        var one := CheckRecord(record);
        if one.Failure? { return Failure(one.error); }
        planned := planned + [one.value];
      }
      assert planned + [] == planned;
      return Success(planned);
    }

    method CheckRecord(record: Record) returns (result: Result<Planned, Error>)
      ensures result == PlanOne(Current(), record)
    {
      var id, key := record.asset.id, record.identityKey;
      if key in byIdentity && byIdentity[key] != id { return Failure(IdentityLinkedElsewhere(key)); }
      var found := GetByAssetId(id);
      if found.None? {
        if plant != null && InPlant(PlantView(plant.assets, plant.otherIds), id) { return Failure(AssetInPlant(id)); }
        return Success(Planned(record, Created));
      }
      var existing := found.value;
      if existing.identityKey != key { return Failure(AssetLinkedElsewhere(id)); }
      if Signature(existing.asset) != Signature(record.asset) { return Failure(CoreFieldsDiffer(id)); }
      if !(existing.generations <= record.generations) { return Failure(HistoryDoesNotAdvance(id)); }
      if !(EvidenceKeys(existing) <= EvidenceKeys(record)) { return Failure(EvidenceDiscarded(id)); }
      var status := if existing.generations == record.generations then Unchanged else Updated;
      return Success(Planned(record.(asset := existing.asset), status));
    }

    /** The second loop of `apply`: only now are the indexes and the plant written. */
    method CommitBatch(planned: seq<Planned>)
      modifies this, plant
      ensures Current() == Commit(old(Current()), planned)
    {
      ghost var s := Current();
      for n := 0 to |planned|
        invariant Commit(s, planned) == Commit(Current(), planned[n..])
      {
        ghost var before := Current();
        assert planned[n..][1..] == planned[n + 1..];
        var record, status := planned[n].record, planned[n].status;
        if status != Unchanged {
          byAsset := byAsset[record.asset.id := record];
          byIdentity := byIdentity[record.identityKey := record.asset.id];
          if status == Created && plant != null {
            plant.AddAsset(record.asset);
          }
        }
        assert Current() == CommitOne(before, planned[n]);
      }
    }

    /** `records()`: the stored records by asset ID. */
    method Records() returns (records: seq<Record>)
      requires Consistent(Current())
      ensures SortedBy(records, RecordKey) && NoRepeats(IdsOf(records))
      ensures forall r :: r in records <==> r.asset.id in byAsset && byAsset[r.asset.id] == r
    {
      hide AtMost, Sort, InPlant;
      var unsorted: seq<Record> := [];
      var ids := byAsset.Keys;
      while ids != {}
        invariant ids <= byAsset.Keys && |unsorted| + |ids| == |byAsset|
        invariant forall r :: r in unsorted <==> r.asset.id in byAsset && r.asset.id !in ids && byAsset[r.asset.id] == r
        decreases |ids|
      {
        var id := AnyOf(ids);
        unsorted := unsorted + [byAsset[id]];
        ids := ids - {id};
      }
      records := Sort(unsorted, RecordKey);
      SortSorts(unsorted, RecordKey);
      Rearranged(unsorted, records);
      AllIdsOnce(records, byAsset);
    }
  }

  function RecordKey(r: Record): string {
    r.asset.id
  }

  function IdsOf(s: seq<Record>): seq<string> {
    seq(|s|, n requires 0 <= n < |s| => s[n].asset.id)
  }

  function IdentitiesOf(s: seq<Record>): seq<string> {
    seq(|s|, n requires 0 <= n < |s| => s[n].identityKey)
  }

  lemma Rearranged(s: seq<Record>, t: seq<Record>)
    requires multiset(s) == multiset(t)
    ensures |s| == |t| && forall r :: r in t <==> r in s
  {
    assert |multiset(s)| == |s| && |multiset(t)| == |t|;
    forall r ensures r in t <==> r in s {
      assert r in t <==> r in multiset(t);
      assert r in s <==> r in multiset(s);
    }
  }

  lemma AllIdsOnce(s: seq<Record>, byAsset: map<string, Record>)
    requires |s| == |byAsset| && forall r :: r in s <==> r.asset.id in byAsset && byAsset[r.asset.id] == r
    requires forall id :: id in byAsset ==> byAsset[id].asset.id == id
    ensures NoRepeats(IdsOf(s))
  {
    hide NoRepeats;
    NoRepeatsBySize(IdsOf(s));
    forall id ensures id in IdsOf(s) <==> id in byAsset {
      if id in byAsset {
        var n :| 0 <= n < |s| && s[n] == byAsset[id];
        assert IdsOf(s)[n] == id;
      }
      if id in IdsOf(s) {
        var n :| 0 <= n < |s| && IdsOf(s)[n] == id;
        assert s[n] in s;
      }
    }
    assert (set id | id in IdsOf(s)) == byAsset.Keys;
    assert |byAsset.Keys| == |byAsset|;
  }

  // ----- Opening a repository on initial records

  /** The dictionaries after reading `s`, a later record overwriting an earlier one. */
  ghost predicate Indexed(s: seq<Record>, byAsset: map<string, Record>, byIdentity: map<string, string>) {
    && (forall r :: r in s ==> r.asset.id in byAsset && r.identityKey in byIdentity)
    && (forall id {:trigger Kept(s, byAsset, id)} :: id in byAsset ==> Kept(s, byAsset, id))
    && (forall key {:trigger Finds(s, key, byIdentity[key])} :: key in byIdentity ==> Finds(s, key, byIdentity[key]))
  }

  ghost predicate Kept(s: seq<Record>, byAsset: map<string, Record>, id: string)
    requires id in byAsset
  {
    byAsset[id] in s && byAsset[id].asset.id == id
  }

  ghost predicate Finds(s: seq<Record>, key: string, id: string) {
    exists r :: r in s && r.identityKey == key && r.asset.id == id
  }

  lemma IndexOne(s: seq<Record>, r: Record, byAsset: map<string, Record>, byIdentity: map<string, string>)
    requires Indexed(s, byAsset, byIdentity)
    ensures Indexed(s + [r], byAsset[r.asset.id := r], byIdentity[r.identityKey := r.asset.id])
  {
    var byAsset', byIdentity' := byAsset[r.asset.id := r], byIdentity[r.identityKey := r.asset.id];
    forall id | id in byAsset' ensures Kept(s + [r], byAsset', id) {
      if id != r.asset.id { assert Kept(s, byAsset, id); }
    }
    forall key | key in byIdentity' ensures Finds(s + [r], key, byIdentity'[key]) {
      if key != r.identityKey {
        assert Finds(s, key, byIdentity[key]);
        var q :| q in s && q.identityKey == key && q.asset.id == byIdentity[key];
        assert q in s + [r];
      } else {
        assert r in s + [r];
      }
    }
  }

  lemma IndexSizes(s: seq<Record>, byAsset: map<string, Record>, byIdentity: map<string, string>)
    requires Indexed(s, byAsset, byIdentity)
    ensures |byAsset| == |s| <==> NoRepeats(IdsOf(s))
    ensures |byIdentity| == |s| <==> NoRepeats(IdentitiesOf(s))
  {
    hide NoRepeats;
    NoRepeatsBySize(IdsOf(s));
    NoRepeatsBySize(IdentitiesOf(s));
    assert (set id | id in IdsOf(s)) == byAsset.Keys by { IdsAreKeys(s, byAsset, byIdentity); }
    assert (set key | key in IdentitiesOf(s)) == byIdentity.Keys by { IdsAreKeys(s, byAsset, byIdentity); }
    assert |byAsset.Keys| == |byAsset| && |byIdentity.Keys| == |byIdentity|;
  }

  lemma IdsAreKeys(s: seq<Record>, byAsset: map<string, Record>, byIdentity: map<string, string>)
    requires Indexed(s, byAsset, byIdentity)
    ensures forall id :: id in IdsOf(s) <==> id in byAsset
    ensures forall key :: key in IdentitiesOf(s) <==> key in byIdentity
  {
    forall id ensures id in IdsOf(s) <==> id in byAsset {
      if id in byAsset {
        assert Kept(s, byAsset, id);
        var n :| 0 <= n < |s| && s[n] == byAsset[id];
        assert IdsOf(s)[n] == id;
      }
      if id in IdsOf(s) {
        var n :| 0 <= n < |s| && IdsOf(s)[n] == id;
        assert s[n] in s;
      }
    }
    forall key ensures key in IdentitiesOf(s) <==> key in byIdentity {
      if key in byIdentity {
        assert Finds(s, key, byIdentity[key]);
        var r :| r in s && r.identityKey == key && r.asset.id == byIdentity[key];
        var n :| 0 <= n < |s| && s[n] == r;
        assert IdentitiesOf(s)[n] == key;
      }
      if key in IdentitiesOf(s) {
        var n :| 0 <= n < |s| && IdentitiesOf(s)[n] == key;
        assert s[n] in s;
      }
    }
  }

  lemma SameRecord(s: seq<Record>, r: Record, q: Record)
    requires r in s && q in s
    ensures NoRepeats(IdsOf(s)) && r.asset.id == q.asset.id ==> r == q
    ensures NoRepeats(IdentitiesOf(s)) && r.identityKey == q.identityKey ==> r == q
  {
    var m :| 0 <= m < |s| && s[m] == r;
    var n :| 0 <= n < |s| && s[n] == q;
    assert IdsOf(s)[m] == r.asset.id && IdsOf(s)[n] == q.asset.id;
    assert IdentitiesOf(s)[m] == r.identityKey && IdentitiesOf(s)[n] == q.identityKey;
  }

  lemma IndexConsistent(s: seq<Record>, byAsset: map<string, Record>, byIdentity: map<string, string>)
    requires Indexed(s, byAsset, byIdentity) && NoRepeats(IdsOf(s)) && NoRepeats(IdentitiesOf(s))
    ensures forall plant :: Consistent(State(byAsset, byIdentity, plant))
    ensures forall r :: r in s ==> byAsset[r.asset.id] == r
  {
    hide NoRepeats;
    forall r | r in s ensures byAsset[r.asset.id] == r && byIdentity[r.identityKey] == r.asset.id {
      assert Kept(s, byAsset, r.asset.id);
      SameRecord(s, r, byAsset[r.asset.id]);
      assert Finds(s, r.identityKey, byIdentity[r.identityKey]);
      var q :| q in s && q.identityKey == r.identityKey && q.asset.id == byIdentity[r.identityKey];
      SameRecord(s, r, q);
    }
    forall id | id in byAsset ensures byAsset[id] in s && byAsset[id].asset.id == id {
      assert Kept(s, byAsset, id);
    }
    forall key | key in byIdentity
      ensures byIdentity[key] in byAsset && byAsset[byIdentity[key]].identityKey == key
    {
      assert Finds(s, key, byIdentity[key]);
      var q :| q in s && q.identityKey == key && q.asset.id == byIdentity[key];
    }
  }

  /** The initial records must not repeat an asset or an identity. */
  method Open(plant: Plant?, initial: seq<Record>) returns (result: Result<InMemoryPromotionRepository, Error>)
    ensures result.Success? <==> NoRepeats(IdsOf(initial)) && NoRepeats(IdentitiesOf(initial))
    ensures result.Failure? ==>
      result.error == if NoRepeats(IdsOf(initial)) then DuplicateInitialIdentities else DuplicateInitialAssets
    ensures result.Success? ==> fresh(result.value) && result.value.plant == plant && Consistent(result.value.Current())
    ensures result.Success? ==> forall id :: id in result.value.byAsset ==> result.value.byAsset[id] in initial
    ensures result.Success? ==>
      forall r :: r in initial ==> r.asset.id in result.value.byAsset && result.value.byAsset[r.asset.id] == r
  {
    hide NoRepeats, Consistent, Finds;
    var byAsset: map<string, Record>, byIdentity: map<string, string> := map[], map[];
    for n := 0 to |initial|
      invariant Indexed(initial[..n], byAsset, byIdentity)
    {
      assert initial[..n + 1] == initial[..n] + [initial[n]];
      IndexOne(initial[..n], initial[n], byAsset, byIdentity);
      byAsset := byAsset[initial[n].asset.id := initial[n]];
      byIdentity := byIdentity[initial[n].identityKey := initial[n].asset.id];
    }
    assert initial[..|initial|] == initial;
    IndexSizes(initial, byAsset, byIdentity);
    if |byAsset| != |initial| { return Failure(DuplicateInitialAssets); }
    if |byIdentity| != |initial| { return Failure(DuplicateInitialIdentities); }
    IndexConsistent(initial, byAsset, byIdentity);
    forall id | id in byAsset ensures byAsset[id] in initial { assert Kept(initial, byAsset, id); }
    var repository := new InMemoryPromotionRepository(plant, byAsset, byIdentity);
    return Success(repository);
  }
}
