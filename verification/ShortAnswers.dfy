/** A provider that answers a batch too briefly, and the chunk that an ingest then loses. */
module ShortAnswers {
  import opened Common
  import opened Store
  import opened IngestPlan
  import opened DocumentPlan
  import opened DocumentIngest

  /** Answers every batch with one vector, which is accepted. */
  function OneVector(): Environment {
    Environment((s: string) => "#" + s, (c: Create) => c.payload.text,
                (texts: seq<string>) => Ok([[1.0]]), (v: Vector) => Ok(Attached(v)))
  }

  function WithVector(c: Create): Create {
    c.(payload := c.payload.(embedding := Attached([1.0])))
  }

  lemma TwoPending(a: Create, b: Create)
    ensures PendingWrites(map[], [a, b]) == [PendingWrite(None, a), PendingWrite(None, b)]
  {
    hide CreateKey;
    assert [a, b][..1] == [a] && [a][..0] == [];
    assert PendingWrites(map[], [a]) == [PendingWrite(None, a)];
  }

  lemma OnePrepared(a: Create, b: Create, size: nat)
    requires size >= 2
    ensures Prepare(OneVector(), [PendingWrite(None, a), PendingWrite(None, b)], size) == Ok([PendingWrite(None, WithVector(a))])
  {
    var env, pending := OneVector(), [PendingWrite(None, a), PendingWrite(None, b)];
    assert pending[..2] == pending && pending[2..] == [];
    assert PrepareBatch(env, pending[1..], []) == Ok([]);
    assert env.attach([1.0]) == Ok(Attached([1.0]));
    assert [PendingWrite(None, WithVector(a))] + [] == [PendingWrite(None, WithVector(a))];
    var vectors: seq<Vector> := [[1.0]];
    assert vectors[0] == [1.0] && vectors[1..] == [];
    assert PrepareBatch(env, pending, vectors) == Ok([PendingWrite(None, WithVector(a))]);
    assert Prepare(env, [], size) == Ok([]);
  }

  lemma OneOperation(c: Create)
    ensures Inserts([PendingWrite(None, c)]) == [c] && Replacements([PendingWrite(None, c)]) == []
    ensures Operations([c], [], []) == [InsertOp(c)]
  {
  }

  lemma OneCommit(policy: RemovedChunkPolicy, now: int, db: Database, c: Create, size: nat, commits: nat)
    requires size > 0 && commits > 0
    ensures CommitBatches(policy, now, db, [InsertOp(c)], size, commits) == (Insert(db, c, now), None)
  {
    var ops := [InsertOp(c)];
    assert ops[..1] == ops && ops[1..] == [] && ops[..0] == [];
    assert ApplyOps(policy, now, db, []) == Ok(db);
  }

  /** Two new chunks and such a provider: the ingest succeeds and reports one added chunk; the second one is neither
      stored nor counted. */
  lemma ShortAnswerLosesChunk(settings: Settings, a: Create, b: Create, now: int, commits: nat)
    requires settings.embeddingBatchSize >= 2 && settings.transactionSize > 0 && commits > 0
    ensures var empty := Database(map[], 0);
      Outcome(OneVector(), settings, empty, [], [a, b], false, now, commits)
        == (Insert(empty, WithVector(a), now), Ok(IngestResult(1, 0, 0, 0)))
  {
    TwoPending(a, b);
    OnePrepared(a, b, settings.embeddingBatchSize);
    OneOperation(WithVector(a));
    OneCommit(settings.policy, now, Database(map[], 0), WithVector(a), settings.transactionSize, commits);
    hide PendingWrites, Prepare, Inserts, Replacements, Operations, CommitBatches, CreateKeys, OneVector, WithVector;
  }
}
