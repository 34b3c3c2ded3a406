/** The data that the retrieval pipeline hands from stage to stage. */
module Candidates {
  import opened Common
  import opened Store

  datatype SourceType = Manual | DocumentSource | Conversation | Import

  datatype SensitivityLevel = Public | Internal | Private | Sensitive

  /** The fields of a memory record that ranking and filtering look at. */
  datatype Memory = Memory(
    memoryId: string, stableKey: Option<string>, chunkId: Option<string>, sourceHash: Option<string>,
    memoryType: MemoryType, status: MemoryStatus, sourceType: SourceType, sensitivity: SensitivityLevel,
    allowRetrieval: bool, expiresAt: Option<int>, text: string,
    importance: real, confidence: real, userRating: Option<real>
  )

  datatype Match = Match(memory: Memory, score: real)

  datatype Debug = Debug(
    sources: seq<string>, sourceRanks: map<string, nat>, duplicateMemoryIds: seq<string>,
    graphExpanded: bool, graphSources: seq<(string, string)>,
    rerankApplied: bool, rerankFailed: bool
  )

  type Scores = map<string, real>

  /** What a candidate holds at one moment. */
  datatype Snapshot = Snapshot(
    memory: Memory, componentScores: Scores, normalizedScores: Scores, debug: Debug, finalScore: real
  )

  function Get(scores: Scores, name: string): real {
    if name in scores then scores[name] else 0.0
  }

  function RealMax(a: real, b: real): real {
    if a >= b then a else b
  }

  /** A candidate as `RetrievalCandidate(memory=..., debug=...)` builds it. */
  function NewSnapshot(memory: Memory, sources: seq<string>): Snapshot {
    Snapshot(memory, map[], map[], Debug(sources, map[], [], false, [], false, false), 0.0)
  }

  /** `RetrievalCandidate`: one object, shared and updated by every stage. */
  class RetrievalCandidate {
    const memory: Memory
    var componentScores: Scores
    var normalizedScores: Scores
    var debug: Debug
    var finalScore: real

    constructor (memory: Memory, sources: seq<string>)
      ensures this.memory == memory && Value() == NewSnapshot(memory, sources)
    {
      this.memory := memory;
      componentScores, normalizedScores := map[], map[];
      debug := Debug(sources, map[], [], false, [], false, false);
      finalScore := 0.0;
    }

    ghost function Value(): (s: Snapshot)
      reads this
      ensures s.memory == memory
    {
      Snapshot(memory, componentScores, normalizedScores, debug, finalScore)
    }
  }

  ghost function Snapshots(cs: seq<RetrievalCandidate>): (r: seq<Snapshot>)
    reads cs
    ensures |r| == |cs|
  {
    if cs == [] then [] else Snapshots(cs[..|cs| - 1]) + [cs[|cs| - 1].Value()]
  }

  lemma {:induction false} SnapshotsAt(cs: seq<RetrievalCandidate>, i: nat)
    requires i < |cs|
    ensures Snapshots(cs)[i] == cs[i].Value()
  {
    if i < |cs| - 1 {
      SnapshotsAt(cs[..|cs| - 1], i);
    }
  }

  lemma AllSnapshots(cs: seq<RetrievalCandidate>)
    ensures forall i :: 0 <= i < |cs| ==> Snapshots(cs)[i] == cs[i].Value()
  {
    forall i | 0 <= i < |cs| ensures Snapshots(cs)[i] == cs[i].Value() {
      SnapshotsAt(cs, i);
    }
  }

  lemma SnapshotsAre(cs: seq<RetrievalCandidate>, values: seq<Snapshot>)
    requires |values| == |cs| && forall i :: 0 <= i < |cs| ==> cs[i].Value() == values[i]
    ensures Snapshots(cs) == values
  {
    AllSnapshots(cs);
  }

  /** No object occurs twice. */
  ghost predicate Distinct(cs: seq<RetrievalCandidate>) {
    forall i, j :: 0 <= i < j < |cs| ==> cs[i] != cs[j]
  }

  /** The first `n` candidates hold their new values, the others their earlier ones. */
  ghost predicate Halfway(cs: seq<RetrievalCandidate>, now: seq<Snapshot>, was: seq<Snapshot>, n: nat)
    reads cs
  {
    && |now| == |was| == |cs| && n <= |cs|
    && (forall i :: 0 <= i < n ==> cs[i].Value() == now[i])
    && (forall i :: n <= i < |cs| ==> cs[i].Value() == was[i])
  }

  lemma NoneDone(cs: seq<RetrievalCandidate>, now: seq<Snapshot>)
    requires |now| == |cs|
    ensures Halfway(cs, now, Snapshots(cs), 0)
  {
    AllSnapshots(cs);
  }

  /** Before the turn of candidate `n`. */
  lemma OneTurn(cs: seq<RetrievalCandidate>, now: seq<Snapshot>, was: seq<Snapshot>, n: nat)
    requires Distinct(cs) && Halfway(cs, now, was, n) && n < |cs|
    ensures |now| == |was| == |cs| && cs[n].Value() == was[n]
    ensures forall i :: 0 <= i < |cs| && i != n ==> cs[i] != cs[n] && cs[i].Value() == if i < n then now[i] else was[i]
  {
  }

  /** After the turn of candidate `n`. */
  lemma OneDone(cs: seq<RetrievalCandidate>, now: seq<Snapshot>, was: seq<Snapshot>, n: nat)
    requires |now| == |was| == |cs| && n < |cs| && cs[n].Value() == now[n]
    requires forall i :: 0 <= i < |cs| && i != n ==> cs[i].Value() == if i < n then now[i] else was[i]
    ensures Halfway(cs, now, was, n + 1)
  {
  }

  lemma AllDone(cs: seq<RetrievalCandidate>, now: seq<Snapshot>, was: seq<Snapshot>)
    requires Halfway(cs, now, was, |cs|)
    ensures Snapshots(cs) == now
  {
    SnapshotsAre(cs, now);
  }

  ghost function Memories(cs: seq<Snapshot>): (r: seq<Memory>)
    ensures |r| == |cs|
  {
    seq(|cs|, i requires 0 <= i < |cs| => cs[i].memory)
  }
}
