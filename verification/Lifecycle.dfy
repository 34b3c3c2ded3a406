/** Agent memories and the transitions of their lifecycle. */
module Lifecycle {
  import opened Common
  import opened Store
  import opened Metadata

  datatype AgentMemory = AgentMemory(
    memoryType: MemoryType, status: MemoryStatus, allowRetrieval: bool, allowLlmContext: bool,
    confidence: real, importance: real, userRating: Option<real>,
    supersededBy: Option<string>, expiresAt: Option<int>, version: nat, metadata: Object,
    title: Option<string>, summary: Option<string>, text: string, sourceUri: Option<string>, tags: seq<string>,
    embedded: bool
  )

  type Memories = map<string, AgentMemory>

  datatype Feedback = Feedback(
    positive: Option<bool>, confirmed: Option<bool>, confidence: Option<real>, importance: Option<real>,
    userRating: Option<real>, note: Json
  )

  const TERMINAL := {Forgotten, Deleted, Removed}
  const PROMOTION_CONFIDENCE_FLOOR := 0.75
  const PROMOTION_IMPORTANCE_FLOOR := 0.60
  const CONTRADICTION_CONFIDENCE_DELTA := 0.15
  const POSITIVE_FEEDBACK_DELTA := 0.10
  const NEGATIVE_FEEDBACK_DELTA := 0.10

  function AtLeast(x: real, floor: real): real {
    if x < floor then floor else x
  }

  function AtMost(x: real, ceiling: real): real {
    if x > ceiling then ceiling else x
  }

  function StatusName(s: MemoryStatus): string {
    match s
    case Active => "active"
    case Candidate => "candidate"
    case Superseded => "superseded"
    case Contradicted => "contradicted"
    case Expired => "expired"
    case Forgotten => "forgotten"
    case Deleted => "deleted"
    case Removed => "removed"
  }

  // ---------- audited updates ----------

  function Optional(key: string, value: Option<string>): Object {
    if value.Some? then [Entry(key, JString(value.value))] else []
  }

  function LifecycleEvent(operation: string, before: MemoryStatus, after: MemoryStatus,
                          reason: Option<string>, related: Option<string>): Json {
    JObject([Entry("operation", JString(operation)), Entry("status_before", JString(StatusName(before))),
             Entry("status_after", JString(StatusName(after)))]
            + Optional("reason", reason) + Optional("related_memory_id", related))
  }

  /** `_build_updated_record`: `next` holds the updated fields. */
  function Updated(r: AgentMemory, next: AgentMemory, operation: string, reason: Option<string>, related: Option<string>): AgentMemory {
    next.(version := r.version + 1,
          metadata := WithEvent(next.metadata, "lifecycle_events",
                                LifecycleEvent(operation, r.status, next.status, reason, related),
                                "last_lifecycle_operation", JString(operation)))
  }

  function RequireAgentMemory(s: Memories, id: string): Result<AgentMemory> {
    if id !in s then Err(MemoryNotFoundError)
    else if s[id].memoryType == DocumentChunk then Err(LifecycleError)
    else Ok(s[id])
  }

  /** `_require_agent_memory` and `_ensure_transitionable` */
  function Transitionable(s: Memories, id: string, blocked: set<MemoryStatus>): Result<AgentMemory> {
    match RequireAgentMemory(s, id)
    case Err(e) => Err(e)
    case Ok(r) => if r.status in blocked then Err(LifecycleError) else Ok(r)
  }

  // ---------- transitions ----------

  function Promote(s: Memories, id: string, reason: Option<string>): Result<Memories> {
    match Transitionable(s, id, TERMINAL + {Expired, Superseded})
    case Err(e) => Err(e)
    case Ok(r) =>
      var next := r.(status := Active, confidence := AtLeast(r.confidence, PROMOTION_CONFIDENCE_FLOOR),
                     importance := AtLeast(r.importance, PROMOTION_IMPORTANCE_FLOOR));
      Ok(s[id := Updated(r, next, "promote", reason, None)])
  }

  /** Both records, or the first complaint: self, missing or chunk (first, second), blocked (first, second). */
  function BothTransitionable(s: Memories, a: string, b: string): Result<(AgentMemory, AgentMemory)> {
    if a == b then Err(LifecycleError)
    else
      match RequireAgentMemory(s, a)
      case Err(e) => Err(e)
      case Ok(x) =>
        match RequireAgentMemory(s, b)
        case Err(e) => Err(e)
        case Ok(y) => if x.status in TERMINAL || y.status in TERMINAL then Err(LifecycleError) else Ok((x, y))
  }

  function Supersede(s: Memories, old_: string, new_: string, reason: Option<string>): Result<Memories> {
    match BothTransitionable(s, old_, new_)
    case Err(e) => Err(e)
    case Ok((x, y)) =>
      var replaced := x.(status := Superseded, supersededBy := Some(new_), allowRetrieval := false);
      var replacement := y.(status := Active, allowRetrieval := true);
      Ok(s[old_ := Updated(x, replaced, "supersede", reason, Some(new_))]
          [new_ := Updated(y, replacement, "supersede", reason, Some(old_))])
  }

  function Contradict(s: Memories, a: string, b: string, reason: Option<string>): Result<Memories> {
    match BothTransitionable(s, a, b)
    case Err(e) => Err(e)
    case Ok((x, y)) =>
      var left := x.(status := Contradicted, confidence := AtLeast(x.confidence - CONTRADICTION_CONFIDENCE_DELTA, 0.0));
      var right := y.(status := Contradicted, confidence := AtLeast(y.confidence - CONTRADICTION_CONFIDENCE_DELTA, 0.0));
      Ok(s[a := Updated(x, left, "contradict", reason, Some(b))][b := Updated(y, right, "contradict", reason, Some(a))])
  }

  function Expire(s: Memories, id: string, reason: Option<string>, now: int): Result<Memories> {
    match Transitionable(s, id, TERMINAL)
    case Err(e) => Err(e)
    case Ok(r) =>
      var next := r.(status := Expired, expiresAt := if r.expiresAt.Some? then r.expiresAt else Some(now), allowRetrieval := false);
      Ok(s[id := Updated(r, next, "expire", reason, None)])
  }

  function Forget(s: Memories, id: string, reason: Option<string>): Result<Memories> {
    match Transitionable(s, id, TERMINAL)
    case Err(e) => Err(e)
    case Ok(r) =>
      var next := r.(status := Forgotten, allowRetrieval := false, allowLlmContext := false);
      Ok(s[id := Updated(r, next, "forget", reason, None)])
  }

  function FeedbackConfidence(confidence: real, f: Feedback): real {
    var a := match f.positive
      case Some(true) => AtMost(confidence + POSITIVE_FEEDBACK_DELTA, 1.0)
      case Some(false) => AtLeast(confidence - NEGATIVE_FEEDBACK_DELTA, 0.0)
      case None => confidence;
    var b := match f.confirmed
      case Some(true) => AtLeast(a, PROMOTION_CONFIDENCE_FLOOR)
      case Some(false) => AtLeast(a - CONTRADICTION_CONFIDENCE_DELTA, 0.0)
      case None => a;
    if f.confidence.Some? then f.confidence.value else b
  }

  function FeedbackImportance(importance: real, f: Feedback): real {
    if f.importance.Some? then f.importance.value
    else if f.confirmed == Some(true) then AtLeast(importance, PROMOTION_IMPORTANCE_FLOOR)
    else importance
  }

  function AddFeedback(s: Memories, id: string, f: Feedback): Result<Memories> {
    match Transitionable(s, id, TERMINAL)
    case Err(e) => Err(e)
    case Ok(r) =>
      var next := r.(confidence := FeedbackConfidence(r.confidence, f), importance := FeedbackImportance(r.importance, f),
                     userRating := if f.userRating.Some? then f.userRating else r.userRating,
                     metadata := WithEvent(r.metadata, "feedback_events", f.note, "last_feedback_at", JNull));
      Ok(s[id := Updated(r, next, "feedback", None, None)])
  }
}

/** Operations on all records of a scope. `selected` are the ids that the scope selects. */
module Privacy {
  import opened Common
  import opened Store
  import opened Metadata
  import opened Lifecycle

  function PrivacyEvent(operation: string, before: MemoryStatus, after: MemoryStatus, details: Object): Json {
    JObject([Entry("operation", JString(operation)), Entry("status_before", JString(StatusName(before))),
             Entry("status_after", JString(StatusName(after)))] + details)
  }

  /** `_build_updated_record` of the privacy controller */
  function Adjusted(r: AgentMemory, next: AgentMemory, operation: string, details: Object): AgentMemory {
    next.(version := r.version + 1,
          metadata := WithEvent(next.metadata, "privacy_events", PrivacyEvent(operation, r.status, next.status, details),
                                "last_privacy_operation", JString(operation)))
  }

  function ForgottenByUser(r: AgentMemory, user: string): AgentMemory {
    Adjusted(r, r.(status := Forgotten, allowRetrieval := false, allowLlmContext := false), "forget_by_user",
             [Entry("user_id", JString(user))])
  }

  function SoftDeleted(r: AgentMemory): AgentMemory {
    Adjusted(r, r.(status := Deleted, allowRetrieval := false, allowLlmContext := false), "delete_by_scope",
             [Entry("hard_delete", JBool(false))])
  }

  function Disabled(r: AgentMemory): AgentMemory {
    Adjusted(r, r.(allowRetrieval := false), "disable_memory", [])
  }

  function RedactOption(v: Option<string>, patterns: seq<Pattern>): (Option<string>, bool) {
    match v
    case None => (None, false)
    case Some(text) => var r := RedactText(text, patterns); (Some(r.0), r.1)
  }

  function RedactTags(tags: seq<string>, patterns: seq<Pattern>): (r: (seq<string>, bool)) {
    if tags == [] then ([], false)
    else
      var before := RedactTags(tags[..|tags| - 1], patterns);
      var last := RedactText(tags[|tags| - 1], patterns);
      (before.0 + [last.0], before.1 || last.1)
  }

  /** `_redact_record`; `None` when nothing matches. */
  function Redacted(r: AgentMemory, patterns: seq<Pattern>): Option<AgentMemory> {
    var title, summary, text := RedactOption(r.title, patterns), RedactOption(r.summary, patterns), RedactText(r.text, patterns);
    var uri, tags, meta := RedactOption(r.sourceUri, patterns), RedactTags(r.tags, patterns), RedactEntries(r.metadata, patterns);
    if !(title.1 || summary.1 || text.1 || uri.1 || tags.1 || meta.1) then None
    else
      var next := r.(title := if title.1 then title.0 else r.title, summary := if summary.1 then summary.0 else r.summary,
                     text := if text.1 then text.0 else r.text, sourceUri := if uri.1 then uri.0 else r.sourceUri,
                     tags := if tags.1 then tags.0 else r.tags, metadata := if meta.1 then meta.0 else r.metadata,
                     embedded := false);
      Some(Adjusted(r, next, "redact", [Entry("pattern_count", JNumber(|patterns| as real))]))
  }

  /** What a scope operation does to the record it is shown; `None` when it skips the record. */
  datatype ScopeOperation =
    | ForgetByUser(user: string)
    | SoftDelete
    | Disable
    | Redact(patterns: seq<Pattern>)

  function Affected(r: AgentMemory, op: ScopeOperation): Option<AgentMemory> {
    match op
    case ForgetByUser(user) => if r.status in TERMINAL then None else Some(ForgottenByUser(r, user))
    case SoftDelete => if r.status == Deleted then None else Some(SoftDeleted(r))
    case Disable => if r.allowRetrieval then Some(Disabled(r)) else None
    case Redact(patterns) => Redacted(r, patterns)
  }

  /** The records after the operation went over `selected`. */
  function ForAll(s: Memories, selected: seq<string>, op: ScopeOperation): Memories {
    map id | id in s :: if id in selected && Affected(s[id], op).Some? then Affected(s[id], op).value else s[id]
  }
}
