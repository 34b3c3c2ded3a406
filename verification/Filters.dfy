/** The lifecycle-aware filter that every retrieval stage shares. */
module Filters {
  import opened Common
  import opened Store
  import opened Candidates

  /** `MemorySearchQuery`, without its scope and text. */
  datatype Query = Query(
    memoryTypes: Option<set<MemoryType>>, statuses: Option<set<MemoryStatus>>, sourceTypes: Option<set<SourceType>>,
    sensitivity: Option<SensitivityLevel>, includeRemoved: bool, includeForgotten: bool, allowRetrievalOnly: bool
  )

  datatype HardFilter = HardFilter(
    memoryTypes: Option<set<MemoryType>>, statuses: set<MemoryStatus>, sourceTypes: Option<set<SourceType>>,
    sensitivity: Option<SensitivityLevel>, includeRemoved: bool, includeForgotten: bool, allowRetrievalOnly: bool
  )

  function BuildHardFilter(q: Query): HardFilter {
    var defaults := {Active} + (if q.includeRemoved then {Deleted, Removed} else {})
      + (if q.includeForgotten then {Forgotten} else {});
    HardFilter(
      q.memoryTypes, if q.statuses.Some? then q.statuses.value else defaults, q.sourceTypes,
      q.sensitivity, q.includeRemoved, q.includeForgotten, q.allowRetrievalOnly
    )
  }

  predicate IsRecordRetrievable(m: Memory, f: HardFilter, now: int) {
    if f.allowRetrievalOnly && !m.allowRetrieval then false
    else if m.expiresAt.Some? && m.expiresAt.value <= now then false
    else if m.status == Expired then false
    else if m.status == Forgotten && !f.includeForgotten then false
    else if m.status in {Deleted, Removed} && !f.includeRemoved then false
    else true
  }

  predicate MatchesHardFilters(m: Memory, f: HardFilter, now: int) {
    if f.memoryTypes.Some? && m.memoryType !in f.memoryTypes.value then false
    else if m.status !in f.statuses then false
    else if f.sourceTypes.Some? && m.sourceType !in f.sourceTypes.value then false
    else if f.sensitivity.None? && m.sensitivity == Sensitive then false
    else if f.sensitivity.Some? && m.sensitivity != f.sensitivity.value then false
    else IsRecordRetrievable(m, f, now)
  }

  /** Whatever statuses a query names, what has expired stays out, and what was forgotten, deleted or removed
      needs its own flag; a query that names none gets active records and what the flags add. */
  lemma FlagsDecide(m: Memory, q: Query, now: int)
    requires MatchesHardFilters(m, BuildHardFilter(q), now)
    ensures m.status != Expired && (m.expiresAt.Some? ==> now < m.expiresAt.value)
    ensures m.status == Forgotten ==> q.includeForgotten
    ensures m.status in {Deleted, Removed} ==> q.includeRemoved
    ensures q.statuses.None? ==> m.status in {Active, Forgotten, Deleted, Removed}
    ensures m.sensitivity == Sensitive ==> q.sensitivity == Some(Sensitive)
    ensures q.allowRetrievalOnly ==> m.allowRetrieval
  {
  }

  /** For a query without statuses, the status decides nothing beyond its flag. */
  lemma DefaultStatusesSuffice(m: Memory, q: Query, now: int)
    requires q.statuses.None?
    ensures MatchesHardFilters(m, BuildHardFilter(q), now) <==>
      && (q.memoryTypes.Some? ==> m.memoryType in q.memoryTypes.value)
      && (q.sourceTypes.Some? ==> m.sourceType in q.sourceTypes.value)
      && (if q.sensitivity.None? then m.sensitivity != Sensitive else q.sensitivity == Some(m.sensitivity))
      && (m.status == Active || (m.status == Forgotten && q.includeForgotten)
          || (m.status in {Deleted, Removed} && q.includeRemoved))
      && (q.allowRetrievalOnly ==> m.allowRetrieval)
      && (m.expiresAt.Some? ==> now < m.expiresAt.value)
  {
  }

  /** Exactly which records pass for which query. */
  lemma PassesExactly(m: Memory, q: Query, now: int)
    ensures MatchesHardFilters(m, BuildHardFilter(q), now) <==>
      && (q.memoryTypes.Some? ==> m.memoryType in q.memoryTypes.value)
      && (q.sourceTypes.Some? ==> m.sourceType in q.sourceTypes.value)
      && (if q.sensitivity.None? then m.sensitivity != Sensitive else q.sensitivity == Some(m.sensitivity))
      && (if q.statuses.Some? then m.status in q.statuses.value
          else m.status == Active || m.status == Forgotten || m.status == Deleted || m.status == Removed)
      && m.status != Expired
      && (m.status == Forgotten ==> q.includeForgotten)
      && (m.status == Deleted || m.status == Removed ==> q.includeRemoved)
      && (q.allowRetrievalOnly ==> m.allowRetrieval)
      && (m.expiresAt.Some? ==> now < m.expiresAt.value)
  {
  }

  ghost predicate AllMatch(cs: seq<Snapshot>, f: HardFilter, now: int) {
    forall c :: c in cs ==> MatchesHardFilters(c.memory, f, now)
  }

  function FilterRecords(records: seq<Memory>, q: Query, now: int): (r: seq<Memory>) {
    if records == [] then []
    else
      var n := |records| - 1;
      FilterRecords(records[..n], q, now)
        + if MatchesHardFilters(records[n], BuildHardFilter(q), now) then [records[n]] else []
  }

  /** Filtering keeps exactly the records that pass, in their order. */
  lemma {:induction false} FilterKeeps(records: seq<Memory>, q: Query, now: int) returns (places: seq<nat>)
    ensures |places| == |FilterRecords(records, q, now)|
    ensures forall k :: 0 <= k < |places| ==> places[k] < |records| && records[places[k]] == FilterRecords(records, q, now)[k]
    ensures forall j, k :: 0 <= j < k < |places| ==> places[j] < places[k]
    ensures forall i :: 0 <= i < |records| ==> (i in places <==> MatchesHardFilters(records[i], BuildHardFilter(q), now))
  {
    hide MatchesHardFilters, BuildHardFilter;
    places := [];
    if records != [] {
      var n := |records| - 1;
      places := FilterKeeps(records[..n], q, now);
      assert forall i :: 0 <= i < n ==> records[..n][i] == records[i];
      if MatchesHardFilters(records[n], BuildHardFilter(q), now) {
        places := places + [n];
      }
    }
  }
}
