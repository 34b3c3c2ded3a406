/** When the operations on agent memories are refused, and which fields they leave alone. */
module LifecycleLaws {
  import opened Common
  import opened Store
  import opened Metadata
  import opened Lifecycle
  import opened Privacy
  import opened LifecycleHistory

  // ---------- refusals ----------

  /** The records that an operation names. */
  function Named(op: Operation): seq<string> {
    match op
    case DoPromote(id, _) => [id]
    case DoSupersede(a, b, _) => [a, b]
    case DoContradict(a, b, _) => [a, b]
    case DoExpire(id, _, _) => [id]
    case DoForget(id, _) => [id]
    case DoFeedback(id, _) => [id]
    case DoScope(_, _) => []
  }

  predicate IsUsable(s: Memories, id: string) {
    id in s && s[id].memoryType != DocumentChunk
  }

  /** A status from which the operation starts. */
  predicate IsOpen(op: Operation, status: MemoryStatus) {
    && status != Forgotten && status != Deleted && status != Removed
    && (op.DoPromote? ==> status != Expired && status != Superseded)
  }

  predicate CanStart(s: Memories, op: Operation, id: string) {
    IsUsable(s, id) && IsOpen(op, s[id].status)
  }

  /** An operation is carried out exactly when the records that it names are stored, different, no document chunks and
      not in a status that closes them. */
  lemma CarriedOutExactly(s: Memories, op: Operation)
    ensures var n := Named(op);
      Outcome(s, op).Ok? <==>
        && (|n| >= 1 ==> CanStart(s, op, n[0]))
        && (|n| == 2 ==> CanStart(s, op, n[1]) && n[0] != n[1])
  {
    hide Updated, WithEvent, ForAll, FeedbackConfidence, FeedbackImportance;
  }

  /** The first missing record makes it a missing record; every other refusal is one of the lifecycle. */
  lemma RefusedWith(s: Memories, op: Operation)
    requires Outcome(s, op).Err?
    ensures var n := Named(op);
      Outcome(s, op).error ==
        if (|n| == 1 || n[0] != n[1]) && (n[0] !in s || (|n| == 2 && IsUsable(s, n[0]) && n[1] !in s))
        then MemoryNotFoundError else LifecycleError
  {
    hide Updated, WithEvent, ForAll, FeedbackConfidence, FeedbackImportance;
  }

  // ---------- confidence, importance, rating ----------

  /** Floors, steps and bounds of the values that operations change, in numbers. */
  function Raised(x: real, floor: real): real {
    if x >= floor then x else floor
  }

  function Lowered(x: real, step: real): real {
    if x >= step then x - step else 0.0
  }

  function FeedbackOnConfidence(c: real, f: Feedback): real {
    var voted :=
      if f.positive == Some(true) then (if c <= 0.9 then c + 0.1 else 1.0)
      else if f.positive == Some(false) then Lowered(c, 0.1)
      else c;
    if f.confidence.Some? then f.confidence.value
    else if f.confirmed == Some(true) then Raised(voted, 0.75)
    else if f.confirmed == Some(false) then Lowered(voted, 0.15)
    else voted
  }

  /** How the operation `op` changes the values of a record that it touches. */
  predicate ValuesMove(op: Operation, before: AgentMemory, after: AgentMemory) {
    && after.confidence == (match op
       case DoPromote(_, _) => Raised(before.confidence, 0.75)
       case DoContradict(_, _, _) => Lowered(before.confidence, 0.15)
       case DoFeedback(_, f) => FeedbackOnConfidence(before.confidence, f)
       case _ => before.confidence)
    && after.importance == (match op
       case DoPromote(_, _) => Raised(before.importance, 0.6)
       case DoFeedback(_, f) =>
         if f.importance.Some? then f.importance.value
         else if f.confirmed == Some(true) then Raised(before.importance, 0.6) else before.importance
       case _ => before.importance)
    && after.userRating == (if op.DoFeedback? && op.feedback.userRating.Some? then op.feedback.userRating else before.userRating)
    && after.expiresAt == (if op.DoExpire? && before.expiresAt.None? then Some(op.now) else before.expiresAt)
  }

  /** The replaced record of a supersession names its replacement; nothing else changes such a link. */
  predicate LinkMoves(op: Operation, id: string, before: AgentMemory, after: AgentMemory) {
    after.supersededBy == if op.DoSupersede? && id == op.replaced then Some(op.replacement) else before.supersededBy
  }

  /** Nothing but redaction rewrites what a memory says. */
  predicate TextsStay(before: AgentMemory, after: AgentMemory) {
    && after.memoryType == before.memoryType && after.title == before.title && after.summary == before.summary
    && after.text == before.text && after.sourceUri == before.sourceUri && after.tags == before.tags
    && after.embedded == before.embedded
  }

  lemma PositiveFeedbackHelps(c: real, f: Feedback)
    requires 0.0 <= c <= 1.0 && f.confidence.None? && f.confirmed.None?
    ensures f.positive == Some(true) ==> (c < 1.0 ==> FeedbackConfidence(c, f) > c) && FeedbackConfidence(c, f) <= 1.0
    ensures f.positive == Some(false) ==> (c > 0.0 ==> FeedbackConfidence(c, f) < c) && FeedbackConfidence(c, f) >= 0.0
    ensures f.positive.None? ==> FeedbackConfidence(c, f) == c
  {
  }

  lemma FeedbackInNumbers(c: real, i: real, f: Feedback)
    ensures FeedbackConfidence(c, f) == FeedbackOnConfidence(c, f)
    ensures FeedbackImportance(i, f) ==
      if f.importance.Some? then f.importance.value else if f.confirmed == Some(true) then Raised(i, 0.6) else i
  {
  }

  lemma AffectedMoves(r: AgentMemory, op: ScopeOperation)
    requires Affected(r, op).Some?
    ensures var after := Affected(r, op).value;
      && after.confidence == r.confidence && after.importance == r.importance && after.userRating == r.userRating
      && after.expiresAt == r.expiresAt && after.supersededBy == r.supersededBy
      && (!op.Redact? ==> TextsStay(r, after))
  {
    hide WithEvent, PrivacyEvent, RedactText, RedactEntries, RedactOption, RedactTags;
  }

  /** What an operation does to the other fields of a record, on which it has any effect. */
  lemma FieldsMove(s: Memories, op: Operation, id: string)
    requires id in s && id in Perform(s, op) && EffectOn(s, op, id) != Untouched
    ensures ValuesMove(op, s[id], Perform(s, op)[id])
    ensures LinkMoves(op, id, s[id], Perform(s, op)[id])
    ensures !(op.DoScope? && op.operation.Redact?) ==> TextsStay(s[id], Perform(s, op)[id])
  {
    hide WithEvent, LifecycleEvent, Affected, FeedbackConfidence, FeedbackImportance, FeedbackOnConfidence;
    match op
    case DoScope(selected, scopeOp) => AffectedMoves(s[id], scopeOp);
    case DoFeedback(x, f) => FeedbackInNumbers(s[id].confidence, s[id].importance, f);
    case _ =>
  }

  /** Which records a scope operation changes. */
  lemma ScopeAffectsExactly(r: AgentMemory, op: ScopeOperation)
    ensures op.ForgetByUser? ==>
      (Affected(r, op).Some? <==> r.status != Forgotten && r.status != Deleted && r.status != Removed)
    ensures op.SoftDelete? ==> (Affected(r, op).Some? <==> r.status != Deleted)
    ensures op.Disable? ==> (Affected(r, op).Some? <==> r.allowRetrieval)
  {
    hide Adjusted, Redacted;
  }

  // ---------- the audit trail ----------

  function NameOf(op: Operation): string {
    match op
    case DoPromote(_, _) => "promote"
    case DoSupersede(_, _, _) => "supersede"
    case DoContradict(_, _, _) => "contradict"
    case DoExpire(_, _, _) => "expire"
    case DoForget(_, _) => "forget"
    case DoFeedback(_, _) => "feedback"
    case DoScope(_, ForgetByUser(_)) => "forget_by_user"
    case DoScope(_, SoftDelete) => "delete_by_scope"
    case DoScope(_, Disable) => "disable_memory"
    case DoScope(_, Redact(_)) => "redact"
  }

  /** An audit entry that names the operation and the status before and after it. */
  predicate Tells(event: Json, operation: string, before: MemoryStatus, after: MemoryStatus) {
    && event.JObject?
    && Lookup(event.entries, "operation") == Some(JString(operation))
    && Lookup(event.entries, "status_before") == Some(JString(StatusName(before)))
    && Lookup(event.entries, "status_after") == Some(JString(StatusName(after)))
  }

  /** `after` has one entry more in its audit list, and it tells what happened. */
  ghost predicate Audited(before: AgentMemory, after: AgentMemory, list: string, operation: string) {
    var was, now := EventsAt(before.metadata, list), EventsAt(after.metadata, list);
    |now| == |was| + 1 && now[..|was|] == was && Tells(now[|was|], operation, before.status, after.status)
  }

  lemma {:induction false} LookupPrefix(o: Object, more: Object, key: string)
    requires Lookup(more, key).None?
    ensures Lookup(o + more, key) == Lookup(o, key)
  {
    if more == [] {
      assert o + more == o;
    } else {
      var n := |more| - 1;
      assert (o + more)[..|o + more| - 1] == o + more[..n];
      LookupPrefix(o, more[..n], key);
    }
  }

  lemma OptionalLacks(key: string, value: Option<string>, other: string)
    requires other != key
    ensures Lookup(Optional(key, value), other).None?
  {
  }

  lemma ThreeEntries(operation: string, before: string, after: string)
    ensures var o := [Entry("operation", JString(operation)), Entry("status_before", JString(before)),
                      Entry("status_after", JString(after))];
      && Lookup(o, "operation") == Some(JString(operation)) && Lookup(o, "status_before") == Some(JString(before))
      && Lookup(o, "status_after") == Some(JString(after))
  {
    var o := [Entry("operation", JString(operation)), Entry("status_before", JString(before)), Entry("status_after", JString(after))];
    assert o[..2] == [o[0], o[1]] && o[..2][..1] == [o[0]];
    assert Lookup(o[..2][..1], "operation") == Some(JString(operation));
    assert Lookup(o[..2], "operation") == Some(JString(operation)) && Lookup(o[..2], "status_before") == Some(JString(before));
  }

  lemma EventOf(operation: string, before: MemoryStatus, after: MemoryStatus, reason: Option<string>, related: Option<string>, key: string)
    requires key == "operation" || key == "status_before" || key == "status_after"
    ensures LifecycleEvent(operation, before, after, reason, related).JObject?
    ensures Lookup(LifecycleEvent(operation, before, after, reason, related).entries, key)
         == Lookup([Entry("operation", JString(operation)), Entry("status_before", JString(StatusName(before))),
                    Entry("status_after", JString(StatusName(after)))], key)
  {
    var head := [Entry("operation", JString(operation)), Entry("status_before", JString(StatusName(before))),
                 Entry("status_after", JString(StatusName(after)))];
    assert "reason"[0] == 'r' && "related_memory_id"[0] == 'r' && key[0] != 'r';
    OptionalLacks("reason", reason, key);
    OptionalLacks("related_memory_id", related, key);
    hide Lookup, Optional, StatusName;
    LookupPrefix(head, Optional("reason", reason), key);
    LookupPrefix(head + Optional("reason", reason), Optional("related_memory_id", related), key);
  }

  lemma LifecycleEventTells(operation: string, before: MemoryStatus, after: MemoryStatus, reason: Option<string>, related: Option<string>)
    ensures Tells(LifecycleEvent(operation, before, after, reason, related), operation, before, after)
  {
    hide LifecycleEvent, Lookup, StatusName;
    EventOf(operation, before, after, reason, related, "operation");
    EventOf(operation, before, after, reason, related, "status_before");
    EventOf(operation, before, after, reason, related, "status_after");
    ThreeEntries(operation, StatusName(before), StatusName(after));
  }

  /** The entry that every lifecycle operation leaves. */
  lemma UpdatedIsAudited(r: AgentMemory, next: AgentMemory, operation: string, reason: Option<string>, related: Option<string>)
    requires EventsAt(next.metadata, "lifecycle_events") == EventsAt(r.metadata, "lifecycle_events")
    ensures Audited(r, Updated(r, next, operation, reason, related), "lifecycle_events", operation)
  {
    var event := LifecycleEvent(operation, r.status, next.status, reason, related);
    WithEventAppends(next.metadata, "lifecycle_events", event, "last_lifecycle_operation", JString(operation), "lifecycle_events");
    LifecycleEventTells(operation, r.status, next.status, reason, related);
    hide WithEvent, EventsAt, LifecycleEvent, Tells;
  }

  /** Every lifecycle operation that has an effect on a record leaves an entry in its audit list with the name of the
      operation and the statuses before and after it. */
  lemma OperationsAreAudited(s: Memories, op: Operation, id: string)
    requires id in s && id in Perform(s, op) && !op.DoScope? && EffectOn(s, op, id) != Untouched
    ensures Audited(s[id], Perform(s, op)[id], "lifecycle_events", NameOf(op))
  {
    FeedbackKeepsAudit(s, op, id);
    hide WithEvent, EventsAt, LifecycleEvent, Audited, FeedbackConfidence, FeedbackImportance, Updated, AtLeast;
    match op
    case DoPromote(_, reason) =>
      UpdatedIsAudited(s[id], s[id].(status := Active, confidence := AtLeast(s[id].confidence, PROMOTION_CONFIDENCE_FLOOR),
        importance := AtLeast(s[id].importance, PROMOTION_IMPORTANCE_FLOOR)), "promote", reason, None);
    case DoSupersede(a, b, reason) => SupersedeIsAudited(s, a, b, reason, id);
    case DoContradict(a, b, reason) => ContradictIsAudited(s, a, b, reason, id);
    case DoExpire(_, reason, now) =>
      var expiresAt := if s[id].expiresAt.Some? then s[id].expiresAt else Some(now);
      UpdatedIsAudited(s[id], s[id].(status := Expired, expiresAt := expiresAt, allowRetrieval := false), "expire", reason, None);
    case DoForget(_, reason) =>
      UpdatedIsAudited(s[id], s[id].(status := Forgotten, allowRetrieval := false, allowLlmContext := false), "forget", reason, None);
    case DoFeedback(_, f) =>
      UpdatedIsAudited(s[id], s[id].(confidence := FeedbackConfidence(s[id].confidence, f),
        importance := FeedbackImportance(s[id].importance, f),
        userRating := if f.userRating.Some? then f.userRating else s[id].userRating,
        metadata := WithEvent(s[id].metadata, "feedback_events", f.note, "last_feedback_at", JNull)), "feedback", None, None);
    case _ =>
  }

  lemma SupersedeIsAudited(s: Memories, a: string, b: string, reason: Option<string>, id: string)
    requires id in s && Supersede(s, a, b, reason).Ok? && (id == a || id == b)
    ensures id in Supersede(s, a, b, reason).value
    ensures Audited(s[id], Supersede(s, a, b, reason).value[id], "lifecycle_events", "supersede")
  {
    hide WithEvent, EventsAt, LifecycleEvent, Audited, Updated;
    if id == a {
      UpdatedIsAudited(s[a], s[a].(status := Superseded, supersededBy := Some(b), allowRetrieval := false), "supersede", reason, Some(b));
    } else {
      UpdatedIsAudited(s[b], s[b].(status := Active, allowRetrieval := true), "supersede", reason, Some(a));
    }
  }

  lemma ContradictIsAudited(s: Memories, a: string, b: string, reason: Option<string>, id: string)
    requires id in s && Contradict(s, a, b, reason).Ok? && (id == a || id == b)
    ensures id in Contradict(s, a, b, reason).value
    ensures Audited(s[id], Contradict(s, a, b, reason).value[id], "lifecycle_events", "contradict")
  {
    hide WithEvent, EventsAt, LifecycleEvent, Audited, Updated, AtLeast;
    var after := s[id].(status := Contradicted, confidence := AtLeast(s[id].confidence - CONTRADICTION_CONFIDENCE_DELTA, 0.0));
    UpdatedIsAudited(s[id], after, "contradict", reason, Some(if id == a then b else a));
  }

  lemma FeedbackKeepsAudit(s: Memories, op: Operation, id: string)
    requires id in s
    ensures op.DoFeedback? ==>
      EventsAt(WithEvent(s[id].metadata, "feedback_events", op.feedback.note, "last_feedback_at", JNull), "lifecycle_events")
        == EventsAt(s[id].metadata, "lifecycle_events")
  {
    if op.DoFeedback? {
      WithEventAppends(s[id].metadata, "feedback_events", op.feedback.note, "last_feedback_at", JNull, "lifecycle_events");
    }
    hide WithEvent, EventsAt;
  }

  lemma PrivacyEventTells(operation: string, before: MemoryStatus, after: MemoryStatus, details: Object)
    requires Lookup(details, "operation").None? && Lookup(details, "status_before").None? && Lookup(details, "status_after").None?
    ensures Tells(PrivacyEvent(operation, before, after, details), operation, before, after)
  {
    var head := [Entry("operation", JString(operation)), Entry("status_before", JString(StatusName(before))),
                 Entry("status_after", JString(StatusName(after)))];
    hide Lookup, StatusName;
    LookupPrefix(head, details, "operation");
    LookupPrefix(head, details, "status_before");
    LookupPrefix(head, details, "status_after");
    ThreeEntries(operation, StatusName(before), StatusName(after));
  }

  /** The entry that every scope operation but redaction, which may rewrite earlier entries, leaves. */
  lemma ScopeOperationsAreAudited(r: AgentMemory, op: ScopeOperation, ids: seq<string>)
    requires Affected(r, op).Some? && !op.Redact?
    ensures Audited(r, Affected(r, op).value, "privacy_events", NameOf(DoScope(ids, op)))
  {
    hide WithEvent, EventsAt, PrivacyEvent, Audited, Adjusted;
    match op
    case ForgetByUser(user) =>
      DetailLacks("user_id", JString(user));
      AdjustedIsAudited(r, r.(status := Forgotten, allowRetrieval := false, allowLlmContext := false), "forget_by_user",
                        [Entry("user_id", JString(user))]);
    case SoftDelete =>
      DetailLacks("hard_delete", JBool(false));
      AdjustedIsAudited(r, r.(status := Deleted, allowRetrieval := false, allowLlmContext := false), "delete_by_scope",
                        [Entry("hard_delete", JBool(false))]);
    case Disable => AdjustedIsAudited(r, r.(allowRetrieval := false), "disable_memory", []);
    case _ =>
  }

  lemma DetailLacks(key: string, value: Json)
    requires key == "user_id" || key == "hard_delete"
    ensures var d := [Entry(key, value)];
      Lookup(d, "operation").None? && Lookup(d, "status_before").None? && Lookup(d, "status_after").None?
  {
    assert key[0] != 'o' && key[0] != 's';
    assert "operation"[0] == 'o' && "status_before"[0] == 's' && "status_after"[0] == 's';
  }

  lemma AdjustedIsAudited(r: AgentMemory, next: AgentMemory, operation: string, details: Object)
    requires EventsAt(next.metadata, "privacy_events") == EventsAt(r.metadata, "privacy_events")
    requires Lookup(details, "operation").None? && Lookup(details, "status_before").None? && Lookup(details, "status_after").None?
    ensures Audited(r, Adjusted(r, next, operation, details), "privacy_events", operation)
  {
    var event := PrivacyEvent(operation, r.status, next.status, details);
    WithEventAppends(next.metadata, "privacy_events", event, "last_privacy_operation", JString(operation), "privacy_events");
    PrivacyEventTells(operation, r.status, next.status, details);
    hide WithEvent, EventsAt, PrivacyEvent, Tells;
  }
}
