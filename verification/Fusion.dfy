/** Deduplication: candidates that share a key are merged into the first of them. */
module Deduplication {
  import opened Common
  import opened Store
  import opened Candidates
  import opened Ownership

  // ---------- keys ----------

  function Tagged(tag: string, value: Option<string>): Keys {
    if value.None? || value.value == "" then [] else [tag + value.value]
  }

  /** `_candidate_keys` */
  function CandidateKeys(m: Memory): Keys {
    ["memory_id:" + m.memoryId] + Tagged("stable_key:", m.stableKey)
      + Tagged("chunk_id:", m.chunkId) + Tagged("source_hash:", m.sourceHash)
  }

  ghost function KeysOf(cs: seq<Snapshot>): (r: seq<Keys>)
    ensures |r| == |cs|
  {
    seq(|cs|, i requires 0 <= i < |cs| => CandidateKeys(cs[i].memory))
  }

  // ---------- merging two candidates ----------

  ghost function MergedScores(owner: Scores, duplicate: Scores): Scores {
    map n | n in owner.Keys + duplicate.Keys ::
      if n in duplicate then RealMax(Get(owner, n), duplicate[n]) else owner[n]
  }

  ghost function MergedRanks(owner: map<string, nat>, duplicate: map<string, nat>): map<string, nat> {
    map n | n in owner.Keys + duplicate.Keys ::
      if n !in owner then duplicate[n]
      else if n !in duplicate then owner[n]
      else Min(owner[n], duplicate[n])
  }

  /** Append the members of `more` that are not there yet, in order. */
  function AppendNew<T(==)>(s: seq<T>, more: seq<T>): (r: seq<T>)
    ensures s <= r
  {
    if more == [] then s
    else
      var r := AppendNew(s, more[..|more| - 1]);
      if more[|more| - 1] in r then r else r + [more[|more| - 1]]
  }

  ghost function MergedDebug(ownerId: string, owner: Debug, duplicateId: string, duplicate: Debug): Debug {
    Debug(
      AppendNew(owner.sources, duplicate.sources),
      MergedRanks(owner.sourceRanks, duplicate.sourceRanks),
      if duplicateId == ownerId || duplicateId in owner.duplicateMemoryIds then owner.duplicateMemoryIds
      else owner.duplicateMemoryIds + [duplicateId],
      owner.graphExpanded || duplicate.graphExpanded,
      if duplicate.graphExpanded then AppendNew(owner.graphSources, duplicate.graphSources) else owner.graphSources,
      owner.rerankApplied, owner.rerankFailed
    )
  }

  /** `_merge_candidate` */
  ghost function MergeInto(owner: Snapshot, duplicate: Snapshot): (r: Snapshot)
    ensures r.memory == owner.memory
  {
    owner.(componentScores := MergedScores(owner.componentScores, duplicate.componentScores),
           debug := MergedDebug(owner.memory.memoryId, owner.debug, duplicate.memory.memoryId, duplicate.debug))
  }

  method MergeScores(owner: RetrievalCandidate, duplicate: RetrievalCandidate)
    requires owner != duplicate
    modifies owner`componentScores
    ensures owner.componentScores == MergedScores(old(owner.componentScores), duplicate.componentScores)
  {
    var names := duplicate.componentScores.Keys;
    ghost var was, added := owner.componentScores, duplicate.componentScores;
    while names != {}
      invariant names <= added.Keys && duplicate.componentScores == added
      invariant owner.componentScores.Keys == was.Keys + (added.Keys - names)
      invariant forall n :: n in owner.componentScores ==>
        owner.componentScores[n] == if n in added && n !in names then RealMax(Get(was, n), added[n]) else was[n]
      decreases names
    {
      var name :| name in names;
      names := names - {name};
      owner.componentScores := owner.componentScores[name := RealMax(Get(owner.componentScores, name), duplicate.componentScores[name])];
    }
  }

  method MergeRanks(owner: map<string, nat>, duplicate: map<string, nat>) returns (merged: map<string, nat>)
    ensures merged == MergedRanks(owner, duplicate)
  {
    merged := owner;
    var names := duplicate.Keys;
    while names != {}
      invariant names <= duplicate.Keys
      invariant merged.Keys == owner.Keys + (duplicate.Keys - names)
      invariant forall n :: n in merged ==>
        merged[n] == if n in duplicate && n !in names then MergedRanks(owner, duplicate)[n] else owner[n]
      decreases names
    {
      var name :| name in names;
      names := names - {name};
      merged := merged[name := if name in merged then Min(merged[name], duplicate[name]) else duplicate[name]];
    }
  }

  method AppendMissing<T(==)>(s: seq<T>, more: seq<T>) returns (r: seq<T>)
    ensures r == AppendNew(s, more)
  {
    r := s;
    for i := 0 to |more|
      invariant r == AppendNew(s, more[..i])
    {
      assert more[..i + 1][..i] == more[..i];
      if more[i] !in r {
        r := r + [more[i]];
      }
    }
    assert more[..|more|] == more;
  }

  method MergeCandidate(owner: RetrievalCandidate, duplicate: RetrievalCandidate)
    requires owner != duplicate
    modifies owner
    ensures owner.Value() == MergeInto(old(owner.Value()), duplicate.Value())
  {
    MergeScores(owner, duplicate);
    var sources := AppendMissing(owner.debug.sources, duplicate.debug.sources);
    var ranks := MergeRanks(owner.debug.sourceRanks, duplicate.debug.sourceRanks);
    var ids := owner.debug.duplicateMemoryIds;
    if duplicate.memory.memoryId != owner.memory.memoryId && duplicate.memory.memoryId !in ids {
      ids := ids + [duplicate.memory.memoryId];
    }
    owner.debug := owner.debug.(sources := sources, sourceRanks := ranks, duplicateMemoryIds := ids);
    if duplicate.debug.graphExpanded {
      var graphSources := AppendMissing(owner.debug.graphSources, duplicate.debug.graphSources);
      owner.debug := owner.debug.(graphExpanded := true, graphSources := graphSources);
    }
  }

  // ---------- the whole pass ----------

  ghost predicate OwnersWithin(byKey: map<string, nat>, n: nat) {
    forall k :: k in byKey ==> byKey[k] < n
  }

  ghost function MergeOne(kept: seq<Snapshot>, byKey: map<string, nat>, c: Snapshot): seq<Snapshot>
    requires OwnersWithin(byKey, |kept|)
  {
    match FirstOwned(CandidateKeys(c.memory), byKey)
    case None => kept + [c]
    case Some(j) => kept[j := MergeInto(kept[j], c)]
  }

  ghost function Deduplicated(cs: seq<Snapshot>): (r: seq<Snapshot>)
    ensures |r| == |Assign(KeysOf(cs)).owners|
  {
    if cs == [] then []
    else
      var n := |cs| - 1;
      assert KeysOf(cs)[..n] == KeysOf(cs[..n]);
      AssignShape(KeysOf(cs[..n]));
      MergeOne(Deduplicated(cs[..n]), Assign(KeysOf(cs[..n])).byKey, cs[n])
  }

  lemma DeduplicatedStep(cs: seq<Snapshot>)
    requires cs != []
    ensures |Deduplicated(cs[..|cs| - 1])| == |Assign(KeysOf(cs[..|cs| - 1])).owners|
    ensures Shape(Assign(KeysOf(cs[..|cs| - 1])), |cs| - 1) && Shape(Assign(KeysOf(cs)), |cs|)
    ensures Assign(KeysOf(cs)) == AssignOne(Assign(KeysOf(cs[..|cs| - 1])), |cs| - 1, CandidateKeys(cs[|cs| - 1].memory))
    ensures Deduplicated(cs) == MergeOne(Deduplicated(cs[..|cs| - 1]), Assign(KeysOf(cs[..|cs| - 1])).byKey, cs[|cs| - 1])
  {
    hide KeysOf, CandidateKeys, MergeOne, AssignOne, Assign, Shape;
    AssignShape(KeysOf(cs[..|cs| - 1]));
    AssignShape(KeysOf(cs));
    KeysOfSnoc(cs);
    AssignSnoc(KeysOf(cs));
    OwnersFit(cs[..|cs| - 1]);
  }

  lemma OwnersFit(cs: seq<Snapshot>)
    ensures OwnersWithin(Assign(KeysOf(cs)).byKey, |Deduplicated(cs)|)
  {
    AssignShape(KeysOf(cs));
    hide KeysOf, Assign, Deduplicated;
  }

  lemma {:induction false} KeptMemory(cs: seq<Snapshot>, j: nat)
    requires j < |Deduplicated(cs)| && Shape(Assign(KeysOf(cs)), |cs|)
    ensures Deduplicated(cs)[j].memory == cs[Assign(KeysOf(cs)).owners[j]].memory
  {
    if cs != [] {
      DeduplicatedStep(cs);
      hide Assign, Deduplicated, CandidateKeys, KeysOf, Claim, FirstOwned, MergeInto;
      if j < |Deduplicated(cs[..|cs| - 1])| {
        KeptMemory(cs[..|cs| - 1], j);
      }
    }
  }

  /** The keys of what is kept are the keys of the owners. */
  lemma KeptKeys(cs: seq<Snapshot>)
    ensures Shape(Assign(KeysOf(cs)), |cs|)
    ensures KeysOf(Deduplicated(cs)) == Pick(KeysOf(cs), Assign(KeysOf(cs)).owners)
  {
    AssignShape(KeysOf(cs));
    var d, o := Deduplicated(cs), Assign(KeysOf(cs)).owners;
    hide Assign, Deduplicated, CandidateKeys;
    forall j | 0 <= j < |d| ensures KeysOf(d)[j] == KeysOf(cs)[o[j]] {
      KeptMemory(cs, j);
    }
  }

  /** No two kept candidates share a key. */
  lemma KeptShareNoKey(cs: seq<Snapshot>)
    ensures PairwiseUnshared(KeysOf(Deduplicated(cs)))
  {
    KeptKeys(cs);
    OwnersShareNoKey(KeysOf(cs));
  }

  /** A pass over candidates that share no key changes nothing. */
  lemma {:induction false} NothingToMerge(cs: seq<Snapshot>)
    requires PairwiseUnshared(KeysOf(cs))
    ensures Deduplicated(cs) == cs
  {
    hide Assign, CandidateKeys, KeysOf, FirstOwned, MergeInto, AssignOne, PairwiseUnshared, Deduplicated, Shape;
    if cs == [] {
      NothingDeduplicated();
    } else {
      var n := |cs| - 1;
      KeysOfSnoc(cs);
      UnsharedAllStay(KeysOf(cs));
      UnsharedBefore(KeysOf(cs));
      DeduplicatedStep(cs);
      NothingToMerge(cs[..n]);
    }
  }

  lemma NothingDeduplicated()
    ensures Deduplicated([]) == []
  {
  }

  lemma KeysOfSnoc(cs: seq<Snapshot>)
    requires cs != []
    ensures KeysOf(cs)[..|cs| - 1] == KeysOf(cs[..|cs| - 1])
    ensures KeysOf(cs)[|cs| - 1] == CandidateKeys(cs[|cs| - 1].memory)
  {
    hide CandidateKeys;
  }

  lemma UnsharedBefore(ks: seq<Keys>)
    requires PairwiseUnshared(ks) && ks != []
    ensures PairwiseUnshared(ks[..|ks| - 1])
  {
    hide Share;
  }

  /** A second pass changes nothing. */
  lemma SecondPassIsIdle(cs: seq<Snapshot>)
    ensures Deduplicated(Deduplicated(cs)) == Deduplicated(cs)
  {
    KeptShareNoKey(cs);
    NothingToMerge(Deduplicated(cs));
  }

  // ---------- candidates that bridge two others ----------

  /** A memory with the given identifiers; the other fields do not matter here. */
  function Identified(memoryId: string, chunkId: Option<string>, sourceHash: Option<string>): Memory {
    Memory(memoryId, None, chunkId, sourceHash, DocumentChunk, Active, DocumentSource, Internal, true, None, "", 0.5, 0.5, None)
  }

  lemma TaggedKeys()
    ensures CandidateKeys(Identified("a", Some("c"), None)) == ["memory_id:a", "chunk_id:c"]
    ensures CandidateKeys(Identified("b", None, Some("h"))) == ["memory_id:b", "source_hash:h"]
    ensures CandidateKeys(Identified("z", Some("c"), Some("h"))) == ["memory_id:z", "chunk_id:c", "source_hash:h"]
  {
    assert "memory_id:" + "a" == "memory_id:a" && "memory_id:" + "b" == "memory_id:b" && "memory_id:" + "z" == "memory_id:z";
    assert "chunk_id:" + "c" == "chunk_id:c" && "source_hash:" + "h" == "source_hash:h";
  }

  /** Two memories without a common key and a third one that has the chunk id of the first and the source hash of
      the second: deduplication keeps the first two, although all three are connected. */
  lemma BridgeExample(x: Snapshot, y: Snapshot, z: Snapshot)
    requires x.memory == Identified("a", Some("c"), None)
    requires y.memory == Identified("b", None, Some("h"))
    requires z.memory == Identified("z", Some("c"), Some("h"))
    ensures KeysOf([x, y, z]) == [CandidateKeys(x.memory), CandidateKeys(y.memory), CandidateKeys(z.memory)]
    ensures !OnePerComponent(KeysOf([x, y, z]))
    ensures var kept := Deduplicated([x, y, z]); |kept| == 2 && kept[0].memory == x.memory && kept[1].memory == y.memory
  {
    var kx, ky, kz := CandidateKeys(x.memory), CandidateKeys(y.memory), CandidateKeys(z.memory);
    var cs := [x, y, z];
    assert KeysOf(cs) == [kx, ky, kz];
    TaggedKeys();
    hide CandidateKeys, Identified, KeysOf, Deduplicated, Assign, OnePerComponent;
    assert kx[1] in kz && kx[1] in kx && ky[1] in kz && ky[1] in ky by {
      assert kx[1] == kz[1] && ky[1] == kz[2];
    }
    assert Share(kx, kz) && Share(ky, kz);
    assert "memory_id:a"[10] != "memory_id:b"[10];
    assert !Share(kx, ky);
    BridgeKeepsBoth(kx, ky, kz);
    AssignShape(KeysOf(cs));
    KeptMemory(cs, 0);
    KeptMemory(cs, 1);
  }

  // ---------- merged scores ----------

  /** `score` is the largest of the named scores in group `g`. The owner counts as 0 while it lacks one. */
  ghost predicate IsGroupMax(cs: seq<Snapshot>, a: Assignment, g: nat, name: string, score: real)
    requires |a.group| == |cs| && g < |a.owners| && a.owners[g] < |cs|
  {
    && (forall i :: 0 <= i < |cs| && a.group[i] == g && name in cs[i].componentScores ==> cs[i].componentScores[name] <= score)
    && ((exists i :: 0 <= i < |cs| && a.group[i] == g && name in cs[i].componentScores && cs[i].componentScores[name] == score)
        || (score == 0.0 && name !in cs[a.owners[g]].componentScores))
  }

  ghost predicate SomeoneScores(cs: seq<Snapshot>, a: Assignment, g: nat, name: string)
    requires |a.group| == |cs|
  {
    exists i :: 0 <= i < |cs| && a.group[i] == g && name in cs[i].componentScores
  }

  /** A kept candidate carries a score exactly when a member of its group does, and it is the largest. */
  ghost predicate ScoreIsMerged(cs: seq<Snapshot>, a: Assignment, kept: Snapshot, g: nat, name: string)
    requires |a.group| == |cs| && g < |a.owners| && a.owners[g] < |cs|
  {
    && (name in kept.componentScores <==> SomeoneScores(cs, a, g, name))
    && (name in kept.componentScores ==> IsGroupMax(cs, a, g, name, kept.componentScores[name]))
  }

  ghost predicate OneMore(before: Assignment, after: Assignment, n: nat) {
    && Shape(before, n) && Shape(after, n + 1)
    && before.owners <= after.owners && before.group <= after.group
  }

  lemma StepGrows(before: Assignment, n: nat, keys: Keys)
    requires Shape(before, n) && Shape(AssignOne(before, n, keys), n + 1)
    ensures OneMore(before, AssignOne(before, n, keys), n)
    ensures FirstOwned(keys, before.byKey).None? ==> forall i :: 0 <= i < n ==> AssignOne(before, n, keys).group[i] != |before.owners|
  {
    hide Claim, FirstOwned;
  }

  lemma GroupStarts(cs: seq<Snapshot>, a: Assignment, g: nat, name: string)
    requires cs != [] && Shape(a, |cs|) && g < |a.owners| && a.owners[g] == |cs| - 1
    requires forall i :: 0 <= i < |cs| - 1 ==> a.group[i] != g
    ensures ScoreIsMerged(cs, a, cs[|cs| - 1], g, name)
  {
    var n := |cs| - 1;
    assert a.group[n] == g;
  }

  lemma GroupStays(cs: seq<Snapshot>, before: Assignment, after: Assignment, kept: Snapshot, g: nat, name: string)
    requires cs != [] && OneMore(before, after, |cs| - 1) && g < |before.owners| && after.group[|cs| - 1] != g
    requires ScoreIsMerged(cs[..|cs| - 1], before, kept, g, name)
    ensures ScoreIsMerged(cs, after, kept, g, name)
  {
    var n := |cs| - 1;
    assert forall i :: 0 <= i < n ==> cs[..n][i] == cs[i] && before.group[i] == after.group[i];
  }

  lemma GroupGrows(cs: seq<Snapshot>, before: Assignment, after: Assignment, kept: Snapshot, g: nat, name: string)
    requires cs != [] && OneMore(before, after, |cs| - 1) && g < |before.owners| && after.group[|cs| - 1] == g
    requires ScoreIsMerged(cs[..|cs| - 1], before, kept, g, name)
    ensures ScoreIsMerged(cs, after, MergeInto(kept, cs[|cs| - 1]), g, name)
  {
    var n := |cs| - 1;
    assert forall i :: 0 <= i < n ==> cs[..n][i] == cs[i] && before.group[i] == after.group[i];
  }

  lemma {:induction false} MergedScoresAreMaxima(cs: seq<Snapshot>, g: nat, name: string)
    requires g < |Deduplicated(cs)| && Shape(Assign(KeysOf(cs)), |cs|)
    ensures ScoreIsMerged(cs, Assign(KeysOf(cs)), Deduplicated(cs)[g], g, name)
  {
    if cs != [] {
      var n := |cs| - 1;
      hide Assign, Deduplicated, KeysOf, Claim, FirstOwned, CandidateKeys, MergeInto, ScoreIsMerged, Shape;
      DeduplicatedStep(cs);
      var before, after := Assign(KeysOf(cs[..n])), Assign(KeysOf(cs));
      StepGrows(before, n, CandidateKeys(cs[n].memory));
      if g < |before.owners| {
        MergedScoresAreMaxima(cs[..n], g, name);
        hide AssignOne;
        if after.group[n] == g {
          GroupGrows(cs, before, after, Deduplicated(cs[..n])[g], g, name);
        } else {
          GroupStays(cs, before, after, Deduplicated(cs)[g], g, name);
        }
      } else {
        GroupStarts(cs, after, g, name);
      }
    }
  }

  // ---------- merged ranks, sources and ids ----------

  predicate InGroup(a: Assignment, i: nat, g: nat) {
    i < |a.group| && a.group[i] == g
  }

  /** A kept candidate has a rank in a source exactly when a member of its group has one, and it is the best of them. */
  ghost predicate RankIsMerged(cs: seq<Snapshot>, a: Assignment, kept: Snapshot, g: nat, source: string) {
    var ranks := kept.debug.sourceRanks;
    && (source in ranks <==> exists i :: 0 <= i < |cs| && InGroup(a, i, g) && source in cs[i].debug.sourceRanks)
    && (source in ranks ==>
          && (exists i :: 0 <= i < |cs| && InGroup(a, i, g) && source in cs[i].debug.sourceRanks
                       && cs[i].debug.sourceRanks[source] == ranks[source])
          && (forall i :: 0 <= i < |cs| && InGroup(a, i, g) && source in cs[i].debug.sourceRanks ==>
                ranks[source] <= cs[i].debug.sourceRanks[source]))
  }

  /** It has the sources of all members, and the ids of all members whose id is another one. */
  ghost predicate OriginIsMerged(cs: seq<Snapshot>, a: Assignment, kept: Snapshot, g: nat, x: string)
    requires g < |a.owners| && a.owners[g] < |cs|
  {
    var owner := cs[a.owners[g]];
    && kept.memory == owner.memory && kept.finalScore == owner.finalScore && kept.normalizedScores == owner.normalizedScores
    && (x in kept.debug.sources <==> exists i :: 0 <= i < |cs| && InGroup(a, i, g) && x in cs[i].debug.sources)
    && (x in kept.debug.duplicateMemoryIds <==>
          x in owner.debug.duplicateMemoryIds
          || (x != owner.memory.memoryId && exists i :: 0 <= i < |cs| && InGroup(a, i, g) && x == cs[i].memory.memoryId))
    && (kept.debug.graphExpanded <==> exists i :: 0 <= i < |cs| && InGroup(a, i, g) && cs[i].debug.graphExpanded)
  }

  lemma {:induction false} AppendNewHas<T(!new)>(s: seq<T>, more: seq<T>, x: T)
    ensures x in AppendNew(s, more) <==> x in s || x in more
  {
    if more != [] {
      AppendNewHas(s, more[..|more| - 1], x);
      assert more == more[..|more| - 1] + [more[|more| - 1]];
    }
  }

  lemma RankStarts(cs: seq<Snapshot>, a: Assignment, g: nat, x: string)
    requires cs != [] && Shape(a, |cs|) && g < |a.owners| && a.owners[g] == |cs| - 1
    requires forall i :: 0 <= i < |cs| - 1 ==> a.group[i] != g
    ensures RankIsMerged(cs, a, cs[|cs| - 1], g, x) && OriginIsMerged(cs, a, cs[|cs| - 1], g, x)
  {
    assert InGroup(a, |cs| - 1, g);
  }

  lemma SamePrefix(cs: seq<Snapshot>, before: Assignment, after: Assignment)
    requires cs != [] && OneMore(before, after, |cs| - 1)
    ensures forall i :: 0 <= i < |cs| - 1 ==> cs[..|cs| - 1][i] == cs[i]
    ensures forall i: nat, g: nat :: i < |cs| - 1 ==> (InGroup(before, i, g) <==> InGroup(after, i, g))
  {
  }

  lemma RankStays(cs: seq<Snapshot>, before: Assignment, after: Assignment, kept: Snapshot, g: nat, x: string)
    requires cs != [] && OneMore(before, after, |cs| - 1) && g < |before.owners| && after.group[|cs| - 1] != g
    requires RankIsMerged(cs[..|cs| - 1], before, kept, g, x) && OriginIsMerged(cs[..|cs| - 1], before, kept, g, x)
    ensures RankIsMerged(cs, after, kept, g, x) && OriginIsMerged(cs, after, kept, g, x)
  {
    SamePrefix(cs, before, after);
    assert !InGroup(after, |cs| - 1, g);
    assert before.owners[g] == after.owners[g];
    hide OneMore, InGroup;
  }

  lemma RankGrows(cs: seq<Snapshot>, before: Assignment, after: Assignment, kept: Snapshot, g: nat, x: string)
    requires cs != [] && OneMore(before, after, |cs| - 1) && g < |before.owners| && after.group[|cs| - 1] == g
    requires RankIsMerged(cs[..|cs| - 1], before, kept, g, x)
    ensures RankIsMerged(cs, after, MergeInto(kept, cs[|cs| - 1]), g, x)
  {
    SamePrefix(cs, before, after);
    assert InGroup(after, |cs| - 1, g);
    hide OneMore, InGroup, AppendNew;
  }

  lemma OriginGrows(cs: seq<Snapshot>, before: Assignment, after: Assignment, kept: Snapshot, g: nat, x: string)
    requires cs != [] && OneMore(before, after, |cs| - 1) && g < |before.owners| && after.group[|cs| - 1] == g
    requires OriginIsMerged(cs[..|cs| - 1], before, kept, g, x)
    ensures OriginIsMerged(cs, after, MergeInto(kept, cs[|cs| - 1]), g, x)
  {
    var n := |cs| - 1;
    SamePrefix(cs, before, after);
    assert InGroup(after, n, g);
    assert before.owners[g] == after.owners[g] && before.owners[g] < n;
    MergedFields(kept, cs[n], x);
    hide OneMore, InGroup, AppendNew, MergeInto;
  }

  lemma MergedFields(kept: Snapshot, c: Snapshot, x: string)
    ensures var r := MergeInto(kept, c);
      && r.memory == kept.memory && r.finalScore == kept.finalScore && r.normalizedScores == kept.normalizedScores
      && (x in r.debug.sources <==> x in kept.debug.sources || x in c.debug.sources)
      && (x in r.debug.duplicateMemoryIds <==>
            x in kept.debug.duplicateMemoryIds || (x == c.memory.memoryId && x != kept.memory.memoryId))
      && (r.debug.graphExpanded <==> kept.debug.graphExpanded || c.debug.graphExpanded)
  {
    AppendNewHas(kept.debug.sources, c.debug.sources, x);
    hide AppendNew, MergedScores, MergedRanks;
  }

  /** What a kept candidate carries besides its scores comes from the members of its group. */
  lemma {:induction false} MergedOrigins(cs: seq<Snapshot>, g: nat, x: string)
    requires g < |Deduplicated(cs)| && Shape(Assign(KeysOf(cs)), |cs|)
    ensures RankIsMerged(cs, Assign(KeysOf(cs)), Deduplicated(cs)[g], g, x)
    ensures OriginIsMerged(cs, Assign(KeysOf(cs)), Deduplicated(cs)[g], g, x)
  {
    if cs != [] {
      var n := |cs| - 1;
      hide Assign, Deduplicated, KeysOf, Claim, FirstOwned, CandidateKeys, MergeInto, RankIsMerged, OriginIsMerged, Shape;
      DeduplicatedStep(cs);
      var before, after := Assign(KeysOf(cs[..n])), Assign(KeysOf(cs));
      StepGrows(before, n, CandidateKeys(cs[n].memory));
      if g < |before.owners| {
        MergedOrigins(cs[..n], g, x);
        hide AssignOne;
        if after.group[n] == g {
          RankGrows(cs, before, after, Deduplicated(cs[..n])[g], g, x);
          OriginGrows(cs, before, after, Deduplicated(cs[..n])[g], g, x);
        } else {
          RankStays(cs, before, after, Deduplicated(cs)[g], g, x);
        }
      } else {
        RankStarts(cs, after, g, x);
      }
    }
  }

  /** Its graph links are its own and those of the other members that expansion reached. */
  ghost predicate LinksAreMerged(cs: seq<Snapshot>, a: Assignment, kept: Snapshot, g: nat, link: (string, string))
    requires g < |a.owners| && a.owners[g] < |cs|
  {
    link in kept.debug.graphSources <==>
      || link in cs[a.owners[g]].debug.graphSources
      || exists i :: 0 <= i < |cs| && InGroup(a, i, g) && i != a.owners[g] && cs[i].debug.graphExpanded && link in cs[i].debug.graphSources
  }

  lemma LinksStart(cs: seq<Snapshot>, a: Assignment, g: nat, link: (string, string))
    requires cs != [] && Shape(a, |cs|) && g < |a.owners| && a.owners[g] == |cs| - 1
    requires forall i :: 0 <= i < |cs| - 1 ==> a.group[i] != g
    ensures LinksAreMerged(cs, a, cs[|cs| - 1], g, link)
  {
  }

  lemma LinksStay(cs: seq<Snapshot>, before: Assignment, after: Assignment, kept: Snapshot, g: nat, link: (string, string))
    requires cs != [] && OneMore(before, after, |cs| - 1) && g < |before.owners| && after.group[|cs| - 1] != g
    requires LinksAreMerged(cs[..|cs| - 1], before, kept, g, link)
    ensures LinksAreMerged(cs, after, kept, g, link)
  {
    SamePrefix(cs, before, after);
    assert !InGroup(after, |cs| - 1, g);
    assert before.owners[g] == after.owners[g];
    hide OneMore, InGroup;
  }

  lemma LinksGrow(cs: seq<Snapshot>, before: Assignment, after: Assignment, kept: Snapshot, g: nat, link: (string, string))
    requires cs != [] && OneMore(before, after, |cs| - 1) && g < |before.owners| && after.group[|cs| - 1] == g
    requires LinksAreMerged(cs[..|cs| - 1], before, kept, g, link)
    ensures LinksAreMerged(cs, after, MergeInto(kept, cs[|cs| - 1]), g, link)
  {
    var n := |cs| - 1;
    SamePrefix(cs, before, after);
    assert InGroup(after, n, g);
    assert before.owners[g] == after.owners[g] && before.owners[g] < n;
    AppendNewHas(kept.debug.graphSources, cs[n].debug.graphSources, link);
    hide OneMore, InGroup, AppendNew, MergedScores, MergedRanks;
  }

  lemma {:induction false} MergedLinks(cs: seq<Snapshot>, g: nat, link: (string, string))
    requires g < |Deduplicated(cs)| && Shape(Assign(KeysOf(cs)), |cs|)
    ensures LinksAreMerged(cs, Assign(KeysOf(cs)), Deduplicated(cs)[g], g, link)
  {
    if cs != [] {
      var n := |cs| - 1;
      hide Assign, Deduplicated, KeysOf, Claim, FirstOwned, CandidateKeys, MergeInto, LinksAreMerged, Shape;
      DeduplicatedStep(cs);
      var before, after := Assign(KeysOf(cs[..n])), Assign(KeysOf(cs));
      StepGrows(before, n, CandidateKeys(cs[n].memory));
      if g < |before.owners| {
        MergedLinks(cs[..n], g, link);
        hide AssignOne;
        if after.group[n] == g {
          LinksGrow(cs, before, after, Deduplicated(cs[..n])[g], g, link);
        } else {
          LinksStay(cs, before, after, Deduplicated(cs)[g], g, link);
        }
      } else {
        LinksStart(cs, after, g, link);
      }
    }
  }

  ghost predicate NoneBelowZero(cs: seq<Snapshot>, name: string) {
    forall i :: 0 <= i < |cs| && name in cs[i].componentScores ==> cs[i].componentScores[name] >= 0.0
  }

  /** For scores that are not negative, a kept candidate has the largest score of its group. */
  lemma MergedScoreIsLargest(cs: seq<Snapshot>, g: nat, name: string)
    requires g < |Deduplicated(cs)| && Shape(Assign(KeysOf(cs)), |cs|) && NoneBelowZero(cs, name)
    requires name in Deduplicated(cs)[g].componentScores
    ensures exists i :: 0 <= i < |cs| && Assign(KeysOf(cs)).group[i] == g && name in cs[i].componentScores
                     && cs[i].componentScores[name] == Deduplicated(cs)[g].componentScores[name]
    ensures forall i :: 0 <= i < |cs| && Assign(KeysOf(cs)).group[i] == g && name in cs[i].componentScores ==>
      cs[i].componentScores[name] <= Deduplicated(cs)[g].componentScores[name]
  {
    MergedScoresAreMaxima(cs, g, name);
    var a, score := Assign(KeysOf(cs)), Deduplicated(cs)[g].componentScores[name];
    assert SomeoneScores(cs, a, g, name);
    hide Deduplicated, Assign, KeysOf;
    var i :| 0 <= i < |cs| && a.group[i] == g && name in cs[i].componentScores;
    assert 0.0 <= cs[i].componentScores[name] <= score;
  }

  // ---------- the loop ----------

  method ClaimKeys(byKey: map<string, nat>, keys: Keys, owner: nat) returns (r: map<string, nat>)
    ensures r == Claim(byKey, keys, owner)
  {
    r := byKey;
    for i := 0 to |keys|
      invariant r == Claim(byKey, keys[..i], owner)
    {
      r := r[keys[i] := owner];
    }
    assert keys[..|keys|] == keys;
  }

  method MergeAt(kept: seq<RetrievalCandidate>, j: nat, c: RetrievalCandidate)
    requires Distinct(kept) && j < |kept| && c !in kept
    modifies kept[j]
    ensures Snapshots(kept) == old(Snapshots(kept))[j := MergeInto(old(Snapshots(kept))[j], c.Value())]
  {
    ghost var was := Snapshots(kept);
    forall i | 0 <= i < |kept| ensures was[i] == kept[i].Value() {
      SnapshotsAt(kept, i);
    }
    MergeCandidate(kept[j], c);
    forall i | 0 <= i < |kept| ensures Snapshots(kept)[i] == was[j := MergeInto(was[j], c.Value())][i] {
      SnapshotsAt(kept, i);
    }
  }

  /** What is not kept is left as it was. */
  ghost predicate OthersAsBefore(candidates: seq<RetrievalCandidate>, kept: seq<RetrievalCandidate>, was: seq<Snapshot>)
    requires |was| == |candidates|
    reads candidates
  {
    forall i :: 0 <= i < |candidates| && candidates[i] !in kept ==> candidates[i].Value() == was[i]
  }

  /** The first `n` candidates are done. */
  ghost predicate Progress(candidates: seq<RetrievalCandidate>, was: seq<Snapshot>, n: nat,
                           kept: seq<RetrievalCandidate>, byKey: map<string, nat>)
    reads candidates, kept
  {
    && |was| == |candidates| && n <= |was|
    && Shape(Assign(KeysOf(was[..n])), n)
    && kept == Pick(candidates, Assign(KeysOf(was[..n])).owners)
    && byKey == Assign(KeysOf(was[..n])).byKey
    && Snapshots(kept) == Deduplicated(was[..n])
    && OthersAsBefore(candidates, kept, was)
  }

  lemma BeforeStep(candidates: seq<RetrievalCandidate>, was: seq<Snapshot>, n: nat,
                   kept: seq<RetrievalCandidate>, byKey: map<string, nat>)
    requires Distinct(candidates) && Progress(candidates, was, n, kept, byKey) && n < |was|
    ensures candidates[n] !in kept && candidates[n].Value() == was[n] && Distinct(kept) && OwnersWithin(byKey, |kept|)
    ensures forall c :: c in kept ==> c in candidates
  {
    hide KeysOf, Assign, Deduplicated, Snapshots;
    var owners := Assign(KeysOf(was[..n])).owners;
    assert forall j :: 0 <= j < |kept| ==> kept[j] == candidates[owners[j]] && owners[j] < n;
    assert forall i, j :: 0 <= i < j < |owners| ==> owners[i] < owners[j];
    hide Pick, Shape;
  }

  /** The rest of a step, once the kept candidates have their new values. */
  lemma AfterStep(candidates: seq<RetrievalCandidate>, was: seq<Snapshot>, n: nat, before: Assignment,
                  kept: seq<RetrievalCandidate>, byKey: map<string, nat>)
    requires |was| == |candidates| && n < |was|
    requires before == Assign(KeysOf(was[..n])) && Shape(before, n) && |Deduplicated(was[..n])| == |before.owners|
    requires var after := AssignOne(before, n, CandidateKeys(was[n].memory));
      byKey == after.byKey && Shape(after, n + 1) && kept == Pick(candidates, after.owners)
    requires OwnersWithin(before.byKey, |Deduplicated(was[..n])|)
    requires Snapshots(kept) == MergeOne(Deduplicated(was[..n]), before.byKey, was[n])
    requires OthersAsBefore(candidates, kept, was)
    ensures Progress(candidates, was, n + 1, kept, byKey)
  {
    assert was[..n + 1][..n] == was[..n];
    hide KeysOf, Assign, Deduplicated, Snapshots, AssignOne, Shape, Pick, MergeOne, CandidateKeys, OthersAsBefore;
    DeduplicatedStep(was[..n + 1]);
  }

  lemma ShapeOfStep(was: seq<Snapshot>, n: nat, before: Assignment)
    requires n < |was| && before == Assign(KeysOf(was[..n]))
    ensures Shape(before, n) && Shape(AssignOne(before, n, CandidateKeys(was[n].memory)), n + 1)
  {
    assert was[..n + 1][..n] == was[..n];
    hide KeysOf, Assign, Deduplicated, Snapshots, AssignOne, Shape, Pick, MergeOne, CandidateKeys, OthersAsBefore;
    DeduplicatedStep(was[..n + 1]);
  }

  lemma AllAsBefore(candidates: seq<RetrievalCandidate>)
    ensures Progress(candidates, Snapshots(candidates), 0, [], map[])
  {
    forall i | 0 <= i < |candidates| ensures candidates[i].Value() == Snapshots(candidates)[i] {
      SnapshotsAt(candidates, i);
    }
  }

  /** A candidate that owns all its keys from now on. */
  lemma Keeps(candidates: seq<RetrievalCandidate>, was: seq<Snapshot>, n: nat,
              kept: seq<RetrievalCandidate>, byKey: map<string, nat>)
    requires Distinct(candidates) && Progress(candidates, was, n, kept, byKey) && n < |was|
    requires FirstOwned(CandidateKeys(candidates[n].memory), byKey).None?
    ensures Progress(candidates, was, n + 1, kept + [candidates[n]], Claim(byKey, CandidateKeys(candidates[n].memory), |kept|))
  {
    hide *;
    Opened(candidates, was, n, kept, byKey);
    BeforeStep(candidates, was, n, kept, byKey);
    var before, c := Assign(KeysOf(was[..n])), candidates[n];
    var now, keys := kept + [c], CandidateKeys(c.memory);
    ShapeOfStep(was, n, before);
    KeepsStep(before, n, keys, candidates, kept);
    KeptSnoc(kept, c, byKey);
    OthersStill(candidates, now, was);
    AfterStep(candidates, was, n, before, now, Claim(byKey, keys, |kept|));
  }

  lemma KeepsStep(before: Assignment, n: nat, keys: Keys, candidates: seq<RetrievalCandidate>, kept: seq<RetrievalCandidate>)
    requires Shape(before, n) && Shape(AssignOne(before, n, keys), n + 1) && n < |candidates|
    requires FirstOwned(keys, before.byKey).None? && kept == Pick(candidates, before.owners)
    ensures AssignOne(before, n, keys).byKey == Claim(before.byKey, keys, |kept|)
    ensures kept + [candidates[n]] == Pick(candidates, AssignOne(before, n, keys).owners)
  {
    hide Claim, FirstOwned;
  }

  lemma KeptSnoc(kept: seq<RetrievalCandidate>, c: RetrievalCandidate, byKey: map<string, nat>)
    requires OwnersWithin(byKey, |kept|) && FirstOwned(CandidateKeys(c.memory), byKey).None?
    ensures |Snapshots(kept)| == |kept| && Snapshots(kept + [c]) == MergeOne(Snapshots(kept), byKey, c.Value())
  {
    assert (kept + [c])[..|kept|] == kept;
    hide CandidateKeys, FirstOwned;
  }

  /** A candidate that was merged into the owner of its first owned key. */
  lemma Merges(candidates: seq<RetrievalCandidate>, was: seq<Snapshot>, n: nat, before: Assignment,
               kept: seq<RetrievalCandidate>, j: nat)
    requires |was| == |candidates| && n < |was| && candidates[n].memory == was[n].memory
    requires before == Assign(KeysOf(was[..n])) && Shape(before, n) && kept == Pick(candidates, before.owners)
    requires FirstOwned(CandidateKeys(was[n].memory), before.byKey) == Some(j) && j < |Deduplicated(was[..n])| == |kept|
    requires Snapshots(kept) == Deduplicated(was[..n])[j := MergeInto(Deduplicated(was[..n])[j], was[n])]
    requires OthersAsBefore(candidates, kept, was)
    ensures Progress(candidates, was, n + 1, kept, Claim(before.byKey, CandidateKeys(candidates[n].memory), j))
  {
    ShapeOfStep(was, n, before);
    var after := AssignOne(before, n, CandidateKeys(was[n].memory));
    assert OwnersWithin(before.byKey, |Deduplicated(was[..n])|);
    hide KeysOf, Assign, Deduplicated, Snapshots, Shape, Pick, CandidateKeys, OthersAsBefore, Claim, FirstOwned;
    AfterStep(candidates, was, n, before, kept, after.byKey);
  }

  lemma OwnedWithin(keys: Keys, byKey: map<string, nat>, n: nat)
    requires OwnersWithin(byKey, n) && FirstOwned(keys, byKey).Some?
    ensures FirstOwned(keys, byKey).value < n
  {
  }

  lemma OthersStill(candidates: seq<RetrievalCandidate>, kept: seq<RetrievalCandidate>, was: seq<Snapshot>)
    requires |was| == |candidates|
    requires forall i :: 0 <= i < |candidates| && candidates[i] !in kept ==> candidates[i].Value() == was[i]
    ensures OthersAsBefore(candidates, kept, was)
  {
  }

  method MergeStep(candidates: seq<RetrievalCandidate>, ghost was: seq<Snapshot>, n: nat,
                   kept: seq<RetrievalCandidate>, byKey: map<string, nat>, j: nat)
    returns (claimed: map<string, nat>)
    requires Distinct(candidates) && Progress(candidates, was, n, kept, byKey) && n < |candidates|
    requires FirstOwned(CandidateKeys(candidates[n].memory), byKey) == Some(j)
    modifies candidates
    ensures Progress(candidates, was, n + 1, kept, claimed)
  {
    hide *;
    Opened(candidates, was, n, kept, byKey);
    ghost var before := Assign(KeysOf(was[..n]));
    BeforeStep(candidates, was, n, kept, byKey);
    OwnedWithin(CandidateKeys(candidates[n].memory), byKey, |kept|);
    assert kept[j] in candidates;
    MergeAt(kept, j, candidates[n]);
    OthersStill(candidates, kept, was);
    Merges(candidates, was, n, before, kept, j);
    claimed := ClaimKeys(byKey, CandidateKeys(candidates[n].memory), j);
  }

  lemma Opened(candidates: seq<RetrievalCandidate>, was: seq<Snapshot>, n: nat,
               kept: seq<RetrievalCandidate>, byKey: map<string, nat>)
    requires Progress(candidates, was, n, kept, byKey)
    ensures |was| == |candidates| && n <= |was| && Snapshots(kept) == Deduplicated(was[..n])
    ensures var before := Assign(KeysOf(was[..n])); Shape(before, n) && byKey == before.byKey && kept == Pick(candidates, before.owners)
    ensures forall i :: 0 <= i < |candidates| && candidates[i] !in kept ==> candidates[i].Value() == was[i]
  {
    hide Assign, KeysOf, Deduplicated, Snapshots, Shape;
  }

  method DeduplicateCandidates(candidates: seq<RetrievalCandidate>) returns (kept: seq<RetrievalCandidate>)
    requires Distinct(candidates)
    modifies candidates
    ensures Shape(Assign(KeysOf(old(Snapshots(candidates)))), |candidates|)
    ensures kept == Pick(candidates, Assign(KeysOf(old(Snapshots(candidates)))).owners)
    ensures Snapshots(kept) == Deduplicated(old(Snapshots(candidates)))
    ensures OthersAsBefore(candidates, kept, old(Snapshots(candidates)))
  {
    hide *;
    kept := [];
    var ownerByKey := map[];
    ghost var was := Snapshots(candidates);
    AllAsBefore(candidates);
    for n := 0 to |candidates|
      invariant Progress(candidates, was, n, kept, ownerByKey)
    {
      BeforeStep(candidates, was, n, kept, ownerByKey);
      var candidate := candidates[n];
      var keys := CandidateKeys(candidate.memory);
      match FirstOwned(keys, ownerByKey) {
        case None =>
          Keeps(candidates, was, n, kept, ownerByKey);
          ownerByKey := ClaimKeys(ownerByKey, keys, |kept|);
          kept := kept + [candidate];
        case Some(j) =>
          ownerByKey := MergeStep(candidates, was, n, kept, ownerByKey, j);
      }
    }
    Finished(candidates, was, kept, ownerByKey);
  }

  lemma Finished(candidates: seq<RetrievalCandidate>, was: seq<Snapshot>,
                 kept: seq<RetrievalCandidate>, byKey: map<string, nat>)
    requires Progress(candidates, was, |candidates|, kept, byKey)
    ensures |was| == |candidates| && Shape(Assign(KeysOf(was)), |candidates|)
    ensures kept == Pick(candidates, Assign(KeysOf(was)).owners)
    ensures Snapshots(kept) == Deduplicated(was)
    ensures OthersAsBefore(candidates, kept, was)
  {
    assert was[..|candidates|] == was;
    hide KeysOf, Assign, Deduplicated, Snapshots, Shape, Pick, OthersAsBefore;
  }
}
