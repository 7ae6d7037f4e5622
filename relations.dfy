/**
 * `updateEndpointsWithRelations`: attach the rows of the relations table to
 * every endpoint detail of the snapshot. An endpoint's `Provides` list gets
 * one entry per relation it provides (the entry names the target); its
 * `Receives` list gets one entry per relation it is the target of, unless it
 * is also that relation's provider: the source tests the provider first and
 * the target only in the `else` branch, so a self-relation lands in
 * `Provides` alone.
 */
module RelationIndex {
  import opened Types

  /** The two lists of an endpoint's relations. */
  datatype Side = Provides | Receives

  /** Whether relation `r` contributes an entry to the `side` list of the
      endpoint whose GUID is `guid` (the provider test wins). */
  predicate Belongs(r: Relation, guid: string, side: Side)
  {
    match side
    case Provides => r.provider == guid
    case Receives => r.provider != guid && r.target == guid
  }

  /** The entry a relation contributes: it names the endpoint at the other end. */
  function EntryFor(r: Relation, side: Side): (e: EndpointRelation)
    ensures e.relationType == r.relationType && e.metadata == r.metadata
    ensures e.guid == (if side == Provides then r.target else r.provider)
  {
    EndpointRelation(if side == Provides then r.target else r.provider, r.relationType, r.metadata)
  }

  /** The entries the relations `rels`, scanned in order, add to the `side`
      list of the endpoint whose GUID is `guid`. */
  function Entries(rels: seq<Relation>, guid: string, side: Side): seq<EndpointRelation>
    decreases |rels|
  {
    if rels == [] then []
    else
      var last := rels[|rels| - 1];
      Entries(rels[..|rels| - 1], guid, side) + (if Belongs(last, guid, side) then [EntryFor(last, side)] else [])
  }

  /** The positions in `rels` of the relations that belong to `side` of
      `guid`, in increasing order: an independent account of which relations
      are selected. */
  function MatchingIndices(rels: seq<Relation>, guid: string, side: Side): (idx: seq<nat>)
    ensures forall k | 0 <= k < |idx| :: idx[k] < |rels| && Belongs(rels[idx[k]], guid, side)
    ensures forall k1, k2 | 0 <= k1 < k2 < |idx| :: idx[k1] < idx[k2]
    ensures forall i | 0 <= i < |rels| && Belongs(rels[i], guid, side) :: i in idx
    decreases |rels|
  {
    if rels == [] then []
    else
      var n := |rels| - 1;
      var prev := MatchingIndices(rels[..n], guid, side);
      assert forall k | 0 <= k < |prev| :: rels[prev[k]] == rels[..n][prev[k]];
      assert forall i | 0 <= i < n :: rels[i] == rels[..n][i];
      prev + (if Belongs(rels[n], guid, side) then [n] else [])
  }

  /** The `side` list gets exactly one entry per selected relation, in the
      order of the relation list, and each entry is that relation's entry. */
  lemma {:induction false} EntriesFollowMatches(rels: seq<Relation>, guid: string, side: Side)
    ensures |Entries(rels, guid, side)| == |MatchingIndices(rels, guid, side)|
    ensures forall k | 0 <= k < |Entries(rels, guid, side)| ::
      Entries(rels, guid, side)[k] == EntryFor(rels[MatchingIndices(rels, guid, side)[k]], side)
    decreases |rels|
  {
    if rels != [] {
      var n := |rels| - 1;
      EntriesFollowMatches(rels[..n], guid, side);
      var prev := MatchingIndices(rels[..n], guid, side);
      var before := Entries(rels[..n], guid, side);
      var es := Entries(rels, guid, side);
      var idx := MatchingIndices(rels, guid, side);
      forall k | 0 <= k < |es| ensures es[k] == EntryFor(rels[idx[k]], side) {
        if k < |before| {
          assert es[k] == before[k] && idx[k] == prev[k];
          assert rels[prev[k]] == rels[..n][prev[k]];
        }
      }
    }
  }

  /** Entries of a concatenation are the concatenation of the entries. */
  lemma {:induction false} EntriesAppend(a: seq<Relation>, b: seq<Relation>, guid: string, side: Side)
    ensures Entries(a + b, guid, side) == Entries(a, guid, side) + Entries(b, guid, side)
    decreases |b|
  {
    if b != [] {
      var n := |b| - 1;
      assert (a + b)[..|a + b| - 1] == a + b[..n];
      EntriesAppend(a, b[..n], guid, side);
    } else {
      assert a + b == a;
    }
  }

  /** Scanning a single relation adds its entry exactly when it belongs. */
  lemma EntriesOfOne(r: Relation, guid: string, side: Side)
    ensures Entries([r], guid, side) == if Belongs(r, guid, side) then [EntryFor(r, side)] else []
  {
  }

  /** The entries of `a + [r] + b` are those of `a`, then `r`'s, then those of `b`. */
  lemma {:induction false} EntriesAround(a: seq<Relation>, r: Relation, b: seq<Relation>, guid: string, side: Side)
    ensures Entries(a + [r] + b, guid, side) == Entries(a, guid, side) + Entries([r], guid, side) + Entries(b, guid, side)
  {
    EntriesAppend(a + [r], b, guid, side);
    EntriesAppend(a, [r], guid, side);
  }

  /** A relation whose provider and target are both other endpoints (for
      instance one whose endpoint was deleted) changes neither list. */
  lemma {:induction false} UnrelatedRelationIgnored(a: seq<Relation>, r: Relation, b: seq<Relation>, guid: string, side: Side)
    requires r.provider != guid && r.target != guid
    ensures Entries(a + [r] + b, guid, side) == Entries(a + b, guid, side)
  {
    EntriesAround(a, r, b, guid, side);
    EntriesAppend(a, b, guid, side);
    EntriesOfOne(r, guid, side);
  }

  /** A self-relation (provider = target = `guid`) is selected for
      `Provides` and never for `Receives`. */
  lemma SelfRelationProvidesOnly(rels: seq<Relation>, guid: string, i: nat)
    requires i < |rels| && rels[i].provider == guid && rels[i].target == guid
    ensures i in MatchingIndices(rels, guid, Provides)
    ensures i !in MatchingIndices(rels, guid, Receives)
  {
  }

  /** The relations of a detail once the relation list has been scanned for
      it: a missing `Relations` starts as two empty lists, existing entries
      are kept and the new ones follow them. */
  function Attached(existing: Option<EndpointRelations>, rels: seq<Relation>, guid: string): EndpointRelations
  {
    var base := if existing.None? then EndpointRelations([], []) else existing.value;
    EndpointRelations(base.providing + Entries(rels, guid, Provides), base.receiving + Entries(rels, guid, Receives))
  }

  /** Wherever it stands in the relation list, a relation between two
      different endpoints adds, at its place, one entry to the provider's
      `Provides` naming the target and one to the target's `Receives` naming
      the provider, and nothing to the provider's `Receives` or the target's
      `Provides`. */
  lemma {:induction false} RelationReachesBothEnds(a: seq<Relation>, r: Relation, b: seq<Relation>)
    requires r.provider != r.target
    ensures Entries(a + [r] + b, r.provider, Provides) ==
      Entries(a, r.provider, Provides) + [EndpointRelation(r.target, r.relationType, r.metadata)] + Entries(b, r.provider, Provides)
    ensures Entries(a + [r] + b, r.target, Receives) ==
      Entries(a, r.target, Receives) + [EndpointRelation(r.provider, r.relationType, r.metadata)] + Entries(b, r.target, Receives)
    ensures Entries(a + [r] + b, r.provider, Receives) == Entries(a, r.provider, Receives) + Entries(b, r.provider, Receives)
    ensures Entries(a + [r] + b, r.target, Provides) == Entries(a, r.target, Provides) + Entries(b, r.target, Provides)
  {
    AddsAtItsPlace(a, r, b, r.provider, Provides);
    AddsAtItsPlace(a, r, b, r.target, Receives);
    AddsAtItsPlace(a, r, b, r.provider, Receives);
    AddsAtItsPlace(a, r, b, r.target, Provides);
  }

  /** The `side` list of `guid` over `a + [r] + b`: `a`'s entries, then `r`'s
      entry when it belongs, then `b`'s. */
  lemma {:induction false} AddsAtItsPlace(a: seq<Relation>, r: Relation, b: seq<Relation>, guid: string, side: Side)
    ensures Entries(a + [r] + b, guid, side) ==
      Entries(a, guid, side) + (if Belongs(r, guid, side) then [EntryFor(r, side)] else []) + Entries(b, guid, side)
  {
    EntriesAround(a, r, b, guid, side);
    EntriesOfOne(r, guid, side);
  }

  /** Wherever it stands in the relation list, a self-relation adds one
      entry to its endpoint's `Provides` and none to its `Receives`. */
  lemma {:induction false} SelfRelationOnlyProvided(a: seq<Relation>, r: Relation, b: seq<Relation>)
    requires r.provider == r.target
    ensures Entries(a + [r] + b, r.provider, Provides) ==
      Entries(a, r.provider, Provides) + [EndpointRelation(r.target, r.relationType, r.metadata)] + Entries(b, r.provider, Provides)
    ensures Entries(a + [r] + b, r.provider, Receives) == Entries(a, r.provider, Receives) + Entries(b, r.provider, Receives)
  {
    AddsAtItsPlace(a, r, b, r.provider, Provides);
    AddsAtItsPlace(a, r, b, r.provider, Receives);
  }

  /** The detail with its relations attached; no other field changes. */
  function WithRelations(d: EndpointDetail, rels: seq<Relation>): EndpointDetail
  {
    d.(relations := Some(Attached(d.relations, rels, d.record.guid)))
  }

  /** Every detail of the snapshot with its relations attached. */
  function AttachAll(endpoints: Buckets, rels: seq<Relation>): Buckets
  {
    map t | t in endpoints :: map g | g in endpoints[t] :: WithRelations(endpoints[t][g], rels)
  }

  /** The inner loop of `updateEndpointsWithRelations` for one endpoint. */
  method AttachRelations(endpoint: EndpointDetail, relations: seq<Relation>) returns (r: EndpointDetail)
    ensures r == endpoint.(relations := r.relations)
    ensures endpoint.relations.None? ==>
      r.relations == Some(EndpointRelations(Entries(relations, endpoint.record.guid, Provides),
                                            Entries(relations, endpoint.record.guid, Receives)))
    ensures endpoint.relations.Some? ==>
      r.relations == Some(EndpointRelations(
        endpoint.relations.value.providing + Entries(relations, endpoint.record.guid, Provides),
        endpoint.relations.value.receiving + Entries(relations, endpoint.record.guid, Receives)))
    ensures r == WithRelations(endpoint, relations)
  {
    var guid := endpoint.record.guid;
    var lists := if endpoint.relations.None? then EndpointRelations([], []) else endpoint.relations.value;
    ghost var base := lists;
    for i := 0 to |relations|
      invariant lists.providing == base.providing + Entries(relations[..i], guid, Provides)
      invariant lists.receiving == base.receiving + Entries(relations[..i], guid, Receives)
    {
      var relation := relations[i];
      assert relations[..i + 1][..i] == relations[..i];
      if relation.provider == guid {
        lists := lists.(providing := lists.providing + [EndpointRelation(relation.target, relation.relationType, relation.metadata)]);
      } else if relation.target == guid {
        lists := lists.(receiving := lists.receiving + [EndpointRelation(relation.provider, relation.relationType, relation.metadata)]);
      }
    }
    assert relations[..|relations|] == relations;
    assert endpoint.relations.None? ==> lists.providing == Entries(relations, guid, Provides) && lists.receiving == Entries(relations, guid, Receives);
    r := endpoint.(relations := Some(lists));
  }

  /** The message `updateEndpointsWithRelations` returns when the relation
      list cannot be read. */
  function FetchFailure(cause: string): string
  {
    "Failed to fetch relations: " + cause
  }

  /**
   * `updateEndpointsWithRelations`. `listed` is the answer of the relations
   * table. On failure the error is returned and no detail is touched;
   * otherwise every detail, in whatever order the maps are visited, gets its
   * relations attached. The Go code updates the details through their
   * pointers; here the updated buckets are returned.
   */
  method UpdateEndpointsWithRelations(endpoints: Buckets, listed: Lookup<seq<Relation>>)
    returns (updated: Buckets, err: Option<string>)
    ensures listed.Failed? ==> err == Some(FetchFailure(listed.message)) && updated == endpoints
    ensures listed.Found? ==> err.None?
    ensures updated.Keys == endpoints.Keys
    ensures forall t | t in endpoints :: updated[t].Keys == endpoints[t].Keys
    ensures listed.Found? ==> forall t, g | t in endpoints && g in endpoints[t] ::
      updated[t][g] == WithRelations(endpoints[t][g], listed.value)
    ensures listed.Found? ==> updated == AttachAll(endpoints, listed.value)
  {
    if listed.Failed? {
      return endpoints, Some(FetchFailure(listed.message));
    }
    var relations := listed.value;
    updated, err := endpoints, None;
    var types := endpoints.Keys;
    while types != {}
      invariant types <= endpoints.Keys
      invariant updated.Keys == endpoints.Keys
      invariant forall t | t in endpoints :: updated[t].Keys == endpoints[t].Keys
      invariant forall t | t in types :: updated[t] == endpoints[t]
      invariant forall t, g | t in endpoints && t !in types && g in endpoints[t] ::
        updated[t][g] == WithRelations(endpoints[t][g], relations)
      decreases types
    {
      var t :| t in types;
      var bucket := updated[t];
      var guids := bucket.Keys;
      while guids != {}
        invariant guids <= endpoints[t].Keys
        invariant bucket.Keys == endpoints[t].Keys
        invariant forall g | g in guids :: bucket[g] == endpoints[t][g]
        invariant forall g | g in endpoints[t] && g !in guids :: bucket[g] == WithRelations(endpoints[t][g], relations)
        decreases guids
      {
        var g :| g in guids;
        var endpoint := AttachRelations(bucket[g], relations);
        bucket := bucket[g := endpoint];
        guids := guids - {g};
      }
      updated := updated[t := bucket];
      types := types - {t};
    }
    forall t | t in updated ensures updated[t] == AttachAll(endpoints, relations)[t] {
      assert updated[t].Keys == AttachAll(endpoints, relations)[t].Keys;
    }
  }
}
