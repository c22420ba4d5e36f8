/** What a batch means: its records one at a time, and nothing the second time. */
module PromotionBatches {
  import opened Wrappers
  import opened PromotionRepository

  /** No asset and no identity occurs twice in the batch, or in the sets already seen. */
  ghost predicate DistinctBatch(batch: seq<Record>, assets: set<string>, identities: set<string>) {
    && (forall n :: 0 <= n < |batch| ==> batch[n].asset.id !in assets && batch[n].identityKey !in identities)
    && (forall m, n :: 0 <= m < n < |batch| ==>
          batch[m].asset.id != batch[n].asset.id && batch[m].identityKey != batch[n].identityKey)
  }

  /** The records applied as batches of one. */
  function OneByOne(s: State, batch: seq<Record>): Result<State, Error>
    decreases batch
  {
    if batch == [] then Success(s)
    else
      var (s', result) := Step(s, [batch[0]]);
      if result.Failure? then Failure(result.error) else OneByOne(s', batch[1..])
  }

  lemma StepOfOne(s: State, r: Record)
    ensures Step(s, [r]).1.Success? <==> PlanOne(s, r).Success?
    ensures PlanOne(s, r).Success? ==> Step(s, [r]).0 == CommitOne(s, PlanOne(s, r).value)
  {
    hide PlanOne;
    assert [r][1..] == [];
    assert Plan(s, [], {} + {r.asset.id}, {} + {r.identityKey}) == Success([]);
    if PlanOne(s, r).Success? {
      var p := PlanOne(s, r).value;
      assert Plan(s, [r], {}, {}) == Success([p] + []);
      assert [p] + [] == [p] && [p][1..] == [];
      assert Commit(s, [p]) == Commit(CommitOne(s, p), []);
    }
  }

  /** Committing one record does not change how a record of another asset and identity is planned. */
  lemma PlanOneFrame(s: State, p: Planned, r: Record)
    requires p.record.asset.id != r.asset.id && p.record.identityKey != r.identityKey
    ensures PlanOne(CommitOne(s, p), r) == PlanOne(s, r)
  {
    var s' := CommitOne(s, p);
    if s.plant.Some? && s' != s {
      var before, after := s.plant.value, s'.plant.value;
      assert InPlant(before, r.asset.id) <==> InPlant(after, r.asset.id) by {
        if after.assets != before.assets {
          assert after.assets == before.assets + [p.record.asset];
          forall n | 0 <= n < |before.assets| ensures before.assets[n] == after.assets[n] {}
        }
      }
    }
  }

  lemma {:induction false} PlanFrame(s: State, p: Planned, batch: seq<Record>, assets: set<string>, identities: set<string>)
    requires forall n :: 0 <= n < |batch| ==>
      p.record.asset.id != batch[n].asset.id && p.record.identityKey != batch[n].identityKey
    ensures Plan(CommitOne(s, p), batch, assets, identities) == Plan(s, batch, assets, identities)
    decreases batch
  {
    hide PlanOne, CommitOne;
    if batch != [] {
      var r := batch[0];
      PlanOneFrame(s, p, r);
      forall n | 0 <= n < |batch[1..]|
        ensures p.record.asset.id != batch[1..][n].asset.id && p.record.identityKey != batch[1..][n].identityKey
      {
        assert batch[1..][n] == batch[n + 1];
      }
      PlanFrame(s, p, batch[1..], assets + {r.asset.id}, identities + {r.identityKey});
    }
  }

  lemma DistinctRest(batch: seq<Record>, assets: set<string>, identities: set<string>)
    requires batch != []
    ensures DistinctBatch(batch, assets, identities) <==>
      && batch[0].asset.id !in assets && batch[0].identityKey !in identities
      && DistinctBatch(batch[1..], assets + {batch[0].asset.id}, identities + {batch[0].identityKey})
  {
    var rest := batch[1..];
    if batch[0].asset.id !in assets && batch[0].identityKey !in identities
       && DistinctBatch(rest, assets + {batch[0].asset.id}, identities + {batch[0].identityKey}) {
      forall n | 0 <= n < |batch| ensures batch[n].asset.id !in assets && batch[n].identityKey !in identities {
        if n > 0 { assert batch[n] == rest[n - 1]; }
      }
      forall m, n | 0 <= m < n < |batch|
        ensures batch[m].asset.id != batch[n].asset.id && batch[m].identityKey != batch[n].identityKey
      {
        assert batch[n] == rest[n - 1];
        if m > 0 { assert batch[m] == rest[m - 1]; }
      }
    }
    if DistinctBatch(batch, assets, identities) {
      forall n | 0 <= n < |rest|
        ensures rest[n].asset.id !in assets + {batch[0].asset.id}
        ensures rest[n].identityKey !in identities + {batch[0].identityKey}
      {
        assert rest[n] == batch[n + 1];
      }
      forall m, n | 0 <= m < n < |rest|
        ensures rest[m].asset.id != rest[n].asset.id && rest[m].identityKey != rest[n].identityKey
      {
        assert rest[m] == batch[m + 1] && rest[n] == batch[n + 1];
      }
    }
  }

  /**
   * A batch is accepted exactly when its assets and identities are distinct and its records
   * are accepted one at a time; and then it leaves the same indexes and plant.
   */
  lemma {:induction false} BatchIsSequence(s: State, batch: seq<Record>, assets: set<string>, identities: set<string>)
    requires Consistent(s)
    ensures Plan(s, batch, assets, identities).Success? <==>
      DistinctBatch(batch, assets, identities) && OneByOne(s, batch).Success?
    ensures Plan(s, batch, assets, identities).Success? ==>
      OneByOne(s, batch) == Success(Commit(s, Plan(s, batch, assets, identities).value))
    decreases batch
  {
    hide Consistent, PlanOne, CommitOne, Step, DistinctBatch, Plannable;
    if batch == [] {
      EmptyBatch(assets, identities);
    } else {
      var r, rest := batch[0], batch[1..];
      DistinctRest(batch, assets, identities);
      StepOfOne(s, r);
      if PlanOne(s, r).Success? {
        var p := PlanOne(s, r).value;
        PlanOneSound(s, r);
        CommitOneConsistent(s, p);
        BatchIsSequence(CommitOne(s, p), rest, assets + {r.asset.id}, identities + {r.identityKey});
        if DistinctBatch(batch, assets, identities) {
          RestDiffers(batch, assets, identities);
          PlanFrame(s, p, rest, assets + {r.asset.id}, identities + {r.identityKey});
        }
        PlanDistinct(s, rest, assets + {r.asset.id}, identities + {r.identityKey});
        PlanUnfold(s, batch, assets, identities);
      }
    }
  }

  lemma EmptyBatch(assets: set<string>, identities: set<string>)
    ensures DistinctBatch([], assets, identities)
  {
  }

  lemma RestDiffers(batch: seq<Record>, assets: set<string>, identities: set<string>)
    requires batch != [] && DistinctBatch(batch, assets, identities)
    ensures forall n :: 0 <= n < |batch[1..]| ==>
      batch[0].asset.id != batch[1..][n].asset.id && batch[0].identityKey != batch[1..][n].identityKey
  {
    forall n | 0 <= n < |batch[1..]|
      ensures batch[0].asset.id != batch[1..][n].asset.id && batch[0].identityKey != batch[1..][n].identityKey
    {
      assert batch[1..][n] == batch[n + 1];
    }
  }

  /** Acceptance implies distinctness, whatever the state. */
  lemma {:induction false} PlanDistinct(s: State, batch: seq<Record>, assets: set<string>, identities: set<string>)
    ensures Plan(s, batch, assets, identities).Success? ==> DistinctBatch(batch, assets, identities)
    decreases batch
  {
    hide PlanOne, DistinctBatch;
    if batch == [] {
      EmptyBatch(assets, identities);
    } else {
      DistinctRest(batch, assets, identities);
      PlanDistinct(s, batch[1..], assets + {batch[0].asset.id}, identities + {batch[0].identityKey});
    }
  }

  lemma PlanUnfold(s: State, batch: seq<Record>, assets: set<string>, identities: set<string>)
    requires batch != [] && PlanOne(s, batch[0]).Success?
    ensures var p, r := PlanOne(s, batch[0]).value, batch[0];
            var rest := Plan(s, batch[1..], assets + {r.asset.id}, identities + {r.identityKey});
            && (Plan(s, batch, assets, identities).Success? <==>
                  r.asset.id !in assets && r.identityKey !in identities && rest.Success?)
            && (Plan(s, batch, assets, identities).Success? ==>
                  Commit(s, Plan(s, batch, assets, identities).value) == Commit(CommitOne(s, p), rest.value))
  {
    hide PlanOne, CommitOne;
    var r := batch[0];
    var rest := Plan(s, batch[1..], assets + {r.asset.id}, identities + {r.identityKey});
    if Plan(s, batch, assets, identities).Success? {
      var p := PlanOne(s, r).value;
      assert Plan(s, batch, assets, identities).value == [p] + rest.value;
      assert ([p] + rest.value)[1..] == rest.value;
    }
  }

  // ----- Applying a batch again

  /** What is stored for an asset after a commit. */
  lemma {:induction false} CommitLookup(s: State, planned: seq<Planned>, assets: set<string>, identities: set<string>, id: string)
    requires Distinct(planned, assets, identities)
    ensures var after := Commit(s, planned).byAsset;
      && (forall n :: 0 <= n < |planned| && planned[n].record.asset.id == id && !planned[n].status.Unchanged? ==>
            id in after && after[id] == planned[n].record)
      && ((forall n :: 0 <= n < |planned| && planned[n].record.asset.id == id ==> planned[n].status.Unchanged?) ==>
            (id in after <==> id in s.byAsset) && (id in after ==> after[id] == s.byAsset[id]))
    decreases planned
  {
    if planned != [] {
      var rest, s' := planned[1..], CommitOne(s, planned[0]);
      forall n | 0 <= n < |rest| ensures rest[n] == planned[n + 1] {}
      assert Distinct(rest, {}, {}) by {
        forall m, n | 0 <= m < n < |rest|
          ensures rest[m].record.asset.id != rest[n].record.asset.id
          ensures rest[m].record.identityKey != rest[n].record.identityKey
        {
          assert rest[m] == planned[m + 1] && rest[n] == planned[n + 1];
        }
      }
      CommitLookup(s', rest, {}, {}, id);
      if planned[0].record.asset.id == id {
        forall n | 0 <= n < |rest| ensures rest[n].record.asset.id != id { assert rest[n] == planned[n + 1]; }
      }
    }
  }

  /** Once accepted, a record meets its stored version again as unchanged. */
  lemma ReplanOne(s: State, r: Record)
    requires Consistent(s) && r.asset.id in s.byAsset
    requires s.byAsset[r.asset.id].identityKey == r.identityKey
    requires Signature(s.byAsset[r.asset.id].asset) == Signature(r.asset)
    requires s.byAsset[r.asset.id].generations == r.generations
    requires EvidenceKeys(s.byAsset[r.asset.id]) <= EvidenceKeys(r)
    ensures PlanOne(s, r) == Success(Planned(r.(asset := s.byAsset[r.asset.id].asset), Unchanged))
  {
  }

  /** A batch whose records all come out unchanged is accepted and changes nothing. */
  lemma {:induction false} AllUnchanged(s: State, batch: seq<Record>, assets: set<string>, identities: set<string>)
    requires DistinctBatch(batch, assets, identities)
    requires forall n :: 0 <= n < |batch| ==> PlanOne(s, batch[n]).Success? && PlanOne(s, batch[n]).value.status.Unchanged?
    ensures Plan(s, batch, assets, identities).Success?
    ensures Commit(s, Plan(s, batch, assets, identities).value) == s
    ensures forall n :: 0 <= n < |Plan(s, batch, assets, identities).value| ==>
      Plan(s, batch, assets, identities).value[n].status.Unchanged?
    decreases batch
  {
    hide PlanOne, DistinctBatch;
    if batch != [] {
      DistinctRest(batch, assets, identities);
      var rest := batch[1..];
      assert PlanOne(s, batch[0]).Success?;
      forall n | 0 <= n < |rest| ensures PlanOne(s, rest[n]).Success? && PlanOne(s, rest[n]).value.status.Unchanged? {
        assert rest[n] == batch[n + 1];
      }
      AllUnchanged(s, rest, assets + {batch[0].asset.id}, identities + {batch[0].identityKey});
      PlanUnfold(s, batch, assets, identities);
      assert CommitOne(s, PlanOne(s, batch[0]).value) == s;
    }
  }

  /** Re-applying an accepted batch right away yields UNCHANGED for every item and the same state. */
  lemma Reapply(s: State, batch: seq<Record>)
    requires Consistent(s) && Step(s, batch).1.Success?
    ensures var s' := Step(s, batch).0;
      && Step(s', batch).0 == s' && Step(s', batch).1.Success?
      && |Step(s', batch).1.value| == |batch|
      && forall n :: 0 <= n < |batch| ==> Step(s', batch).1.value[n].status == Unchanged
  {
    hide Consistent, PlanOne, Plannable, Distinct, DistinctBatch, CommitOne, Commit, Plan;
    var s', planned := Step(s, batch).0, Plan(s, batch, {}, {}).value;
    StepConsistent(s, batch);
    PlanSound(s, batch, {}, {});
    PlanDistinct(s, batch, {}, {});
    forall n | 0 <= n < |batch| ensures PlanOne(s', batch[n]).Success? && PlanOne(s', batch[n]).value.status.Unchanged? {
      ReplanAfter(s, batch, planned, n);
    }
    AllUnchanged(s', batch, {}, {});
    PlanSound(s', batch, {}, {});
  }

  lemma ReplanAfter(s: State, batch: seq<Record>, planned: seq<Planned>, n: nat)
    requires Consistent(s) && Consistent(Commit(s, planned)) && Distinct(planned, {}, {})
    requires n < |batch| == |planned| && PlanOne(s, batch[n]) == Success(planned[n]) && Plannable(s, planned[n])
    ensures PlanOne(Commit(s, planned), batch[n]).Success?
    ensures PlanOne(Commit(s, planned), batch[n]).value.status.Unchanged?
  {
    hide Consistent, Commit, CommitOne;
    var r, p, id := batch[n], planned[n], planned[n].record.asset.id;
    PlanOneSound(s, r);
    OthersDiffer(planned, n);
    CommitLookup(s, planned, {}, {}, id);
    PlannedVersion(s, r);
    ReplanOne(Commit(s, planned), r);
  }

  lemma OthersDiffer(planned: seq<Planned>, n: nat)
    requires Distinct(planned, {}, {}) && n < |planned|
    ensures forall m :: 0 <= m < |planned| && planned[m].record.asset.id == planned[n].record.asset.id ==> m == n
  {
  }

  /** The planned record, or the stored one if nothing changes, is a version the record repeats. */
  lemma PlannedVersion(s: State, r: Record)
    requires Consistent(s) && PlanOne(s, r).Success?
    ensures var p := PlanOne(s, r).value;
      var kept := if p.status.Unchanged? then s.byAsset[r.asset.id] else p.record;
      && (p.status.Unchanged? ==> r.asset.id in s.byAsset)
      && kept.identityKey == r.identityKey && Signature(kept.asset) == Signature(r.asset)
      && kept.generations == r.generations && EvidenceKeys(kept) <= EvidenceKeys(r)
  {
  }

  // ----- Which records are accepted, and which evidence is stored

  /** The core fields of the two assets agree; a device agrees with devices only. */
  predicate SameCore(a: Asset, b: Asset) {
    && a.id == b.id && a.name == b.name && (a.Device? <==> b.Device?)
    && (a.Device? && b.Device? ==>
          && a.deviceType == b.deviceType && a.manufacturer == b.manufacturer
          && a.model == b.model && a.catalogNumber == b.catalogNumber)
  }

  /** The history of `r` starts with the stored one. */
  predicate Continues(stored: Record, r: Record) {
    && |stored.generations| <= |r.generations|
    && forall k :: 0 <= k < |stored.generations| ==> r.generations[k] == stored.generations[k]
  }

  predicate KeepsEvidence(stored: Record, r: Record) {
    forall e :: e in stored.evidence ==> e in r.evidence
  }

  predicate KnownToPlant(s: State, id: string) {
    s.plant.Some? && (id in s.plant.value.otherIds || exists a :: a in s.plant.value.assets && a.id == id)
  }

  ghost predicate HeldByAnother(s: State, r: Record) {
    exists id :: id in s.byAsset && id != r.asset.id && s.byAsset[id].identityKey == r.identityKey
  }

  lemma CoreIsSignature(a: Asset, b: Asset)
    ensures Signature(a) == Signature(b) <==> SameCore(a, b)
  {
  }

  lemma PrefixContinues(stored: Record, r: Record)
    ensures stored.generations <= r.generations <==> Continues(stored, r)
    ensures EvidenceKeys(stored) <= EvidenceKeys(r) <==> KeepsEvidence(stored, r)
  {
    if Continues(stored, r) { assert r.generations[..|stored.generations|] == stored.generations; }
    assert forall e :: e in stored.evidence <==> e in EvidenceKeys(stored);
    assert forall e :: e in r.evidence <==> e in EvidenceKeys(r);
  }

  lemma PlantKnows(s: State, id: string)
    ensures s.plant.Some? && InPlant(s.plant.value, id) <==> KnownToPlant(s, id)
  {
    if s.plant.Some? {
      var assets := s.plant.value.assets;
      if a :| a in assets && a.id == id {
        var n :| 0 <= n < |assets| && assets[n] == a;
        assert assets[n].id == id;
      }
      if n :| 0 <= n < |assets| && assets[n].id == id { assert assets[n] in assets; }
    }
  }

  /**
   * A record is accepted exactly when no other asset holds its identity and it either names an
   * asset unknown to the plant or is a later version of the stored one with the same core fields.
   * What is planned then carries the stored asset object on, and is UNCHANGED exactly when the
   * history has not grown.
   */
  lemma AcceptedExactly(s: State, r: Record)
    requires Consistent(s)
    ensures PlanOne(s, r).Success? <==>
      && !HeldByAnother(s, r)
      && (if r.asset.id in s.byAsset then
            var stored := s.byAsset[r.asset.id];
            && stored.identityKey == r.identityKey && SameCore(stored.asset, r.asset)
            && Continues(stored, r) && KeepsEvidence(stored, r)
          else !KnownToPlant(s, r.asset.id))
    ensures PlanOne(s, r).Success? ==>
      var p := PlanOne(s, r).value;
      && (p.status.Created? <==> r.asset.id !in s.byAsset)
      && (p.status.Unchanged? <==> r.asset.id in s.byAsset && s.byAsset[r.asset.id].generations == r.generations)
      && p.record == if p.status.Created? then r else r.(asset := s.byAsset[r.asset.id].asset)
  {
    RefusedExactly(s, r);
  }

  /** The reason for a refusal: the first of the checks that fails, in the order the repository makes them. */
  lemma RefusedExactly(s: State, r: Record)
    requires Consistent(s)
    ensures HeldByAnother(s, r) ==> PlanOne(s, r) == Failure(IdentityLinkedElsewhere(r.identityKey))
    ensures !HeldByAnother(s, r) ==>
      if r.asset.id !in s.byAsset then
        if KnownToPlant(s, r.asset.id) then PlanOne(s, r) == Failure(AssetInPlant(r.asset.id)) else PlanOne(s, r).Success?
      else
        var stored := s.byAsset[r.asset.id];
        if stored.identityKey != r.identityKey then PlanOne(s, r) == Failure(AssetLinkedElsewhere(r.asset.id))
        else if !SameCore(stored.asset, r.asset) then PlanOne(s, r) == Failure(CoreFieldsDiffer(r.asset.id))
        else if !Continues(stored, r) then PlanOne(s, r) == Failure(HistoryDoesNotAdvance(r.asset.id))
        else if !KeepsEvidence(stored, r) then PlanOne(s, r) == Failure(EvidenceDiscarded(r.asset.id))
        else PlanOne(s, r).Success?
  {
    hide Signature, EvidenceKeys, SameCore, Continues, KeepsEvidence, InPlant, KnownToPlant;
    PlantKnows(s, r.asset.id);
    if r.identityKey in s.byIdentity {
      assert s.byAsset[s.byIdentity[r.identityKey]].identityKey == r.identityKey;
    }
    if r.asset.id in s.byAsset {
      CoreIsSignature(s.byAsset[r.asset.id].asset, r.asset);
      PrefixContinues(s.byAsset[r.asset.id], r);
    }
  }

  /** Record `n` repeats the asset or the identity of an earlier record of its batch. */
  predicate RepeatsAsset(batch: seq<Record>, n: nat)
    requires n < |batch|
  {
    exists m :: 0 <= m < n && batch[m].asset.id == batch[n].asset.id
  }

  predicate RepeatsIdentity(batch: seq<Record>, n: nat)
    requires n < |batch|
  {
    exists m :: 0 <= m < n && batch[m].identityKey == batch[n].identityKey
  }

  /** What is wrong with record `n` of a batch. */
  predicate WrongWith(s: State, batch: seq<Record>, n: nat, e: Error)
    requires n < |batch|
  {
    if RepeatsAsset(batch, n) then e == DuplicateAsset(batch[n].asset.id)
    else if RepeatsIdentity(batch, n) then e == DuplicateIdentity(batch[n].identityKey)
    else PlanOne(s, batch[n]) == Failure(e)
  }

  predicate Faultless(s: State, batch: seq<Record>, n: nat)
    requires n < |batch|
  {
    !RepeatsAsset(batch, n) && !RepeatsIdentity(batch, n) && PlanOne(s, batch[n]).Success?
  }

  /** A batch is refused for what is wrong with its first faulty record, and changes nothing then. */
  lemma FirstFault(s: State, batch: seq<Record>) returns (n: nat)
    ensures n <= |batch| && forall m :: 0 <= m < n ==> Faultless(s, batch, m)
    ensures Step(s, batch).1.Success? <==> n == |batch|
    ensures n < |batch| ==> (
      && Step(s, batch).1.Failure? && WrongWith(s, batch, n, Step(s, batch).1.error) && Step(s, batch).0 == s)
  {
    n := PlanFault(s, batch, 0, {}, {});
    assert batch[0..] == batch;
  }

  lemma {:induction false} PlanFault(s: State, batch: seq<Record>, k: nat, assets: set<string>, identities: set<string>)
    returns (n: nat)
    requires k <= |batch| && (forall id :: id in assets <==> exists m :: 0 <= m < k && batch[m].asset.id == id)
    requires forall key :: key in identities <==> exists m :: 0 <= m < k && batch[m].identityKey == key
    ensures k <= n <= |batch| && forall m :: k <= m < n ==> Faultless(s, batch, m)
    ensures match Plan(s, batch[k..], assets, identities)
            case Success(_) => n == |batch|
            case Failure(e) => n < |batch| && WrongWith(s, batch, n, e)
    decreases |batch| - k
  {
    hide PlanOne;
    n := k;
    if k < |batch| {
      var r := batch[k];
      assert batch[k..][0] == r && batch[k..][1..] == batch[k + 1..];
      assert r.asset.id in assets <==> RepeatsAsset(batch, k);
      assert r.identityKey in identities <==> RepeatsIdentity(batch, k);
      if Faultless(s, batch, k) {
        n := PlanFault(s, batch, k + 1, assets + {r.asset.id}, identities + {r.identityKey});
      }
    }
  }

  /**
   * The evidence of an accepted record is stored exactly when the asset is new, its history has
   * grown, or the stored record had that evidence already: an UNCHANGED record loses what it adds.
   */
  lemma EvidenceStored(s: State, batch: seq<Record>, n: nat)
    requires Consistent(s) && Step(s, batch).1.Success? && n < |batch|
    ensures var r, after := batch[n], Step(s, batch).0.byAsset;
      && r.asset.id in after
      && (EvidenceKeys(r) <= EvidenceKeys(after[r.asset.id]) <==>
            || r.asset.id !in s.byAsset
            || s.byAsset[r.asset.id].generations != r.generations
            || EvidenceKeys(r) <= EvidenceKeys(s.byAsset[r.asset.id]))
  {
    hide Consistent, PlanOne, Plannable, Distinct, Commit, CommitOne, Plan, EvidenceKeys;
    var r, planned := batch[n], Plan(s, batch, {}, {}).value;
    PlanSound(s, batch, {}, {});
    PlanOneSound(s, r);
    AcceptedExactly(s, r);
    OthersDiffer(planned, n);
    CommitLookup(s, planned, {}, {}, r.asset.id);
    SameEvidence(r, planned[n].record);
  }

  lemma SameEvidence(r: Record, planned: Record)
    requires r.evidence == planned.evidence
    ensures EvidenceKeys(r) == EvidenceKeys(planned)
  {
  }

  /** A new piece of evidence without a new generation: accepted, answered UNCHANGED, and not stored. */
  lemma EvidenceLost(stored: Record, r: Record, e: Evidence)
    requires r == stored.(evidence := stored.evidence + [e]) && e !in EvidenceKeys(stored)
    ensures var s := State(map[r.asset.id := stored], map[r.identityKey := r.asset.id], None);
      && Consistent(s) && Step(s, [r]).1.Success? && Step(s, [r]).0 == s
      && e in EvidenceKeys(r) && e !in EvidenceKeys(Step(s, [r]).0.byAsset[r.asset.id])
  {
    var s := State(map[r.asset.id := stored], map[r.identityKey := r.asset.id], None);
    assert Consistent(s);
    MoreEvidence(stored, r, e);
    AcceptedExactly(s, r);
    StepOfOne(s, r);
  }

  lemma MoreEvidence(stored: Record, r: Record, e: Evidence)
    requires r.evidence == stored.evidence + [e]
    ensures EvidenceKeys(r) == EvidenceKeys(stored) + {e}
  {
  }

  // ----- What a batch answers, and what it adds to the plant

  /** Each record of an accepted batch is answered, in its place, with its own asset and identity. */
  lemma ItemsAnswerRecords(s: State, batch: seq<Record>)
    requires Consistent(s) && Step(s, batch).1.Success?
    ensures var items := Step(s, batch).1.value;
      && |items| == |batch|
      && forall n :: 0 <= n < |batch| ==>
           && items[n].assetId == batch[n].asset.id && items[n].identityKey == batch[n].identityKey
           && (items[n].status.Created? <==> batch[n].asset.id !in s.byAsset)
           && (items[n].status.Unchanged? <==>
                 batch[n].asset.id in s.byAsset && s.byAsset[batch[n].asset.id].generations == batch[n].generations)
  {
    hide Consistent, PlanOne, Plannable, Distinct, Commit, CommitOne, Plan;
    PlanSound(s, batch, {}, {});
    forall n | 0 <= n < |batch|
      ensures var item := Step(s, batch).1.value[n];
        && item.assetId == batch[n].asset.id && item.identityKey == batch[n].identityKey
        && (item.status.Created? <==> batch[n].asset.id !in s.byAsset)
        && (item.status.Unchanged? <==>
              batch[n].asset.id in s.byAsset && s.byAsset[batch[n].asset.id].generations == batch[n].generations)
    {
      PlanOneSound(s, batch[n]);
      AcceptedExactly(s, batch[n]);
    }
  }

  /** The assets of the records that name an asset not stored, in batch order. */
  function NewAssets(stored: set<string>, batch: seq<Record>): seq<Asset> {
    if batch == [] then []
    else (if batch[0].asset.id in stored then [] else [batch[0].asset]) + NewAssets(stored, batch[1..])
  }

  /** A plant's list grows by the new assets of an accepted batch, in batch order, and by nothing else. */
  lemma PlantGrows(s: State, batch: seq<Record>)
    requires Consistent(s)
    ensures s.plant.Some? <==> Step(s, batch).0.plant.Some?
    ensures s.plant.Some? && Step(s, batch).1.Success? ==>
      && Step(s, batch).0.plant.value.assets == s.plant.value.assets + NewAssets(s.byAsset.Keys, batch)
      && Step(s, batch).0.plant.value.otherIds == s.plant.value.otherIds
    ensures s.plant.Some? && Step(s, batch).1.Failure? ==> Step(s, batch).0.plant == s.plant
  {
    hide Consistent, PlanOne, Plannable, Distinct, Commit, CommitOne;
    if Step(s, batch).1.Success? {
      PlanSound(s, batch, {}, {});
      var planned := Plan(s, batch, {}, {}).value;
      forall n | 0 <= n < |batch| ensures NewOrNot(s.byAsset.Keys, batch[n], planned[n]) {
        AcceptedExactly(s, batch[n]);
      }
      CommitGrows(s, s.byAsset.Keys, batch, planned);
    }
  }

  predicate NewOrNot(stored: set<string>, r: Record, p: Planned) {
    && (p.status.Created? <==> r.asset.id !in stored)
    && (p.status.Created? ==> p.record == r)
  }

  lemma {:induction false} CommitGrows(s: State, stored: set<string>, batch: seq<Record>, planned: seq<Planned>)
    requires |batch| == |planned| && forall n :: 0 <= n < |batch| ==> NewOrNot(stored, batch[n], planned[n])
    ensures s.plant.Some? <==> Commit(s, planned).plant.Some?
    ensures s.plant.Some? ==>
      && Commit(s, planned).plant.value.assets == s.plant.value.assets + NewAssets(stored, batch)
      && Commit(s, planned).plant.value.otherIds == s.plant.value.otherIds
    decreases planned
  {
    if planned == [] {
      assert s.plant.Some? ==> s.plant.value.assets + [] == s.plant.value.assets;
    } else {
      assert NewOrNot(stored, batch[0], planned[0]);
      forall n | 0 <= n < |batch[1..]| ensures NewOrNot(stored, batch[1..][n], planned[1..][n]) {
        assert NewOrNot(stored, batch[n + 1], planned[n + 1]);
      }
      CommitGrows(CommitOne(s, planned[0]), stored, batch[1..], planned[1..]);
    }
  }

  ghost predicate DistinctIds(assets: seq<Asset>) {
    forall m, n :: 0 <= m < n < |assets| ==> assets[m].id != assets[n].id
  }

  /** Everything a run has added to the plant: assets stored now, that were neither stored nor in the plant before, once each. */
  ghost predicate AddedOnce(s: State, after: State, added: seq<Asset>) {
    && s.plant.Some? && after.plant.Some?
    && after.plant.value.assets == s.plant.value.assets + added && after.plant.value.otherIds == s.plant.value.otherIds
    && DistinctIds(added)
    && (forall n :: 0 <= n < |added| ==>
          && added[n].id in after.byAsset && added[n].id !in s.byAsset && !KnownToPlant(s, added[n].id))
    && s.byAsset.Keys <= after.byAsset.Keys
  }

  lemma NewAssetsFrom(stored: set<string>, batch: seq<Record>, n: nat) returns (k: nat)
    requires n < |NewAssets(stored, batch)|
    ensures k < |batch| && NewAssets(stored, batch)[n] == batch[k].asset && batch[k].asset.id !in stored
    ensures n > 0 ==> k > 0
    decreases batch
  {
    if batch[0].asset.id in stored {
      var k' := NewAssetsFrom(stored, batch[1..], n);
      k := k' + 1;
    } else if n == 0 {
      k := 0;
    } else {
      var k' := NewAssetsFrom(stored, batch[1..], n - 1);
      k := k' + 1;
    }
  }

  lemma {:induction false} NewAssetsOnce(stored: set<string>, batch: seq<Record>)
    requires DistinctBatch(batch, {}, {})
    ensures DistinctIds(NewAssets(stored, batch))
    decreases batch
  {
    if batch != [] {
      var rest := NewAssets(stored, batch[1..]);
      forall m, n | 0 <= m < n < |batch[1..]|
        ensures batch[1..][m].asset.id != batch[1..][n].asset.id && batch[1..][m].identityKey != batch[1..][n].identityKey
      {
        assert batch[1..][m] == batch[m + 1] && batch[1..][n] == batch[n + 1];
      }
      NewAssetsOnce(stored, batch[1..]);
      forall n | 0 <= n < |rest| ensures rest[n].id != batch[0].asset.id {
        var k := NewAssetsFrom(stored, batch[1..], n);
        assert batch[1..][k] == batch[k + 1];
      }
      var added := NewAssets(stored, batch);
      var head := if batch[0].asset.id in stored then [] else [batch[0].asset];
      assert added == head + rest;
      forall m, n | 0 <= m < n < |added| ensures added[m].id != added[n].id {
        assert added[n] == rest[n - |head|];
        assert m >= |head| ==> added[m] == rest[m - |head|];
      }
    }
  }

  lemma StepAddsOnce(s: State, batch: seq<Record>) returns (added: seq<Asset>)
    requires Consistent(s) && s.plant.Some?
    ensures AddedOnce(s, Step(s, batch).0, added)
  {
    hide Consistent, PlanOne, Plannable, Commit, CommitOne, Plan, Advances, KnownToPlant;
    PlantGrows(s, batch);
    StepExtendsKeys(s, batch);
    if Step(s, batch).1.Success? {
      added := NewAssets(s.byAsset.Keys, batch);
      PlanDistinct(s, batch, {}, {});
      NewAssetsOnce(s.byAsset.Keys, batch);
      forall n | 0 <= n < |added|
        ensures added[n].id in Step(s, batch).0.byAsset && added[n].id !in s.byAsset && !KnownToPlant(s, added[n].id)
      {
        var k := NewAssetsFrom(s.byAsset.Keys, batch, n);
        EvidenceStored(s, batch, k);
        NewNotInPlant(s, batch, k);
      }
    } else {
      added := [];
      assert s.plant.value.assets + [] == s.plant.value.assets;
    }
  }

  lemma NewNotInPlant(s: State, batch: seq<Record>, k: nat)
    requires Consistent(s) && Step(s, batch).1.Success? && k < |batch|
    requires s.plant.Some? && batch[k].asset.id !in s.byAsset
    ensures !KnownToPlant(s, batch[k].asset.id)
  {
    hide Consistent, PlanOne, KnownToPlant, Commit;
    PlanSound(s, batch, {}, {});
    AcceptedExactly(s, batch[k]);
  }

  lemma StepExtendsKeys(s: State, batch: seq<Record>)
    requires Consistent(s)
    ensures s.byAsset.Keys <= Step(s, batch).0.byAsset.Keys
  {
    RunExtends(s, [batch]);
    assert Run(s, [batch]) == Step(s, batch).0;
  }

  /** Over any run the plant's list grows at its end, and no asset is added to it twice. */
  lemma {:induction false} RunAddsOnce(s: State, batches: seq<seq<Record>>) returns (added: seq<Asset>)
    requires Consistent(s) && s.plant.Some?
    ensures AddedOnce(s, Run(s, batches), added)
    decreases batches
  {
    hide Consistent, Step, KnownToPlant;
    if batches == [] {
      added := [];
      assert s.plant.value.assets + [] == s.plant.value.assets;
    } else {
      var next := Step(s, batches[0]).0;
      StepConsistent(s, batches[0]);
      var first := StepAddsOnce(s, batches[0]);
      var later := RunAddsOnce(next, batches[1..]);
      added := first + later;
      AddedTwice(s, next, Run(s, batches), first, later);
    }
  }

  lemma AddedTwice(s: State, next: State, after: State, first: seq<Asset>, later: seq<Asset>)
    requires AddedOnce(s, next, first) && AddedOnce(next, after, later)
    ensures AddedOnce(s, after, first + later)
  {
    var all := first + later;
    assert s.plant.value.assets + first + later == s.plant.value.assets + all;
    forall n | 0 <= n < |all|
      ensures all[n].id in after.byAsset && all[n].id !in s.byAsset && !KnownToPlant(s, all[n].id)
    {
      if n < |first| { assert all[n] == first[n]; } else { StillInPlant(s, next, first, all[n].id); }
    }
    forall m, n | 0 <= m < n < |all| ensures all[m].id != all[n].id {
      if m < |first| <= n { assert all[m].id in next.byAsset && all[n].id !in next.byAsset; }
    }
  }

  lemma StillInPlant(s: State, next: State, first: seq<Asset>, id: string)
    requires s.plant.Some? && next.plant.Some? && next.plant.value.assets == s.plant.value.assets + first
    requires next.plant.value.otherIds == s.plant.value.otherIds
    ensures KnownToPlant(s, id) ==> KnownToPlant(next, id)
  {
    if a :| a in s.plant.value.assets && a.id == id { assert a in next.plant.value.assets; }
  }
}
