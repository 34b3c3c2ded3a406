/** What holds over every run of lifecycle and privacy operations. */
module LifecycleHistory {
  import opened Common
  import opened Store
  import opened Metadata
  import opened Lifecycle
  import opened Privacy

  datatype Operation =
    | DoPromote(id: string, reason: Option<string>)
    | DoSupersede(replaced: string, replacement: string, reason: Option<string>)
    | DoContradict(left: string, right: string, reason: Option<string>)
    | DoExpire(id: string, reason: Option<string>, now: int)
    | DoForget(id: string, reason: Option<string>)
    | DoFeedback(id: string, feedback: Feedback)
    | DoScope(selected: seq<string>, operation: ScopeOperation)

  function Outcome(s: Memories, op: Operation): Result<Memories> {
    match op
    case DoPromote(id, reason) => Promote(s, id, reason)
    case DoSupersede(a, b, reason) => Supersede(s, a, b, reason)
    case DoContradict(a, b, reason) => Contradict(s, a, b, reason)
    case DoExpire(id, reason, now) => Expire(s, id, reason, now)
    case DoForget(id, reason) => Forget(s, id, reason)
    case DoFeedback(id, f) => AddFeedback(s, id, f)
    case DoScope(selected, scopeOp) => Ok(ForAll(s, selected, scopeOp))
  }

  /** A failed operation changes nothing. */
  function Perform(s: Memories, op: Operation): Memories {
    match Outcome(s, op) case Ok(after) => after case Err(_) => s
  }

  function Run(s: Memories, ops: seq<Operation>): Memories {
    if ops == [] then s else Perform(Run(s, ops[..|ops| - 1]), ops[|ops| - 1])
  }

  /** What an operation was for one record: nothing, an update to a status, a hiding from retrieval alone, a hiding
      with a status, or being a replacement. */
  datatype Effect =
    | Untouched
    | Touched(status: MemoryStatus)
    | Disabled
    | Hidden(status: MemoryStatus)
    | Replacing

  function ScopeEffect(op: ScopeOperation, status: MemoryStatus): Effect {
    match op
    case ForgetByUser(_) => Hidden(Forgotten)
    case SoftDelete => Hidden(Deleted)
    case Disable => Disabled
    case Redact(_) => Touched(status)
  }

  function EffectOn(s: Memories, op: Operation, id: string): Effect
    requires id in s
  {
    match op
    case DoScope(selected, scopeOp) =>
      if id !in selected || Affected(s[id], scopeOp).None? then Untouched else ScopeEffect(scopeOp, s[id].status)
    case _ =>
      if Outcome(s, op).Err? then Untouched
      else
        match op
        case DoSupersede(a, b, _) => if id == a then Hidden(Superseded) else if id == b then Replacing else Untouched
        case DoContradict(a, b, _) => if id == a || id == b then Touched(Contradicted) else Untouched
        case DoExpire(x, _, _) => if id == x then Hidden(Expired) else Untouched
        case DoForget(x, _) => if id == x then Hidden(Forgotten) else Untouched
        case DoPromote(x, _) => if id == x then Touched(Active) else Untouched
        case DoFeedback(x, _) => if id == x then Touched(s[id].status) else Untouched
        case DoScope(_, _) => Untouched
  }

  // ---------- one step ----------

  function EventCount(r: AgentMemory): nat {
    |EventsAt(r.metadata, "lifecycle_events")| + |EventsAt(r.metadata, "privacy_events")|
  }

  /** The status that an effect leaves. */
  function NewStatus(effect: Effect, before: MemoryStatus): MemoryStatus {
    match effect
    case Touched(status) => status
    case Hidden(status) => status
    case Replacing => Active
    case _ => before
  }

  /** What one operation does to one record. */
  ghost predicate StepOn(before: AgentMemory, after: AgentMemory, effect: Effect) {
    && (effect == Untouched ==> after == before)
    && (effect != Untouched ==> after.version == before.version + 1 && EventCount(after) == EventCount(before) + 1)
    && after.status == NewStatus(effect, before.status)
    && after.allowLlmContext == (before.allowLlmContext && effect != Hidden(Forgotten) && effect != Hidden(Deleted))
    && (effect.Touched? ==> after.allowRetrieval == before.allowRetrieval)
    && (effect.Hidden? || effect.Disabled? ==> !after.allowRetrieval)
    && (effect == Replacing ==> after.allowRetrieval && before.status !in TERMINAL)
    && (before.status in TERMINAL ==> after.status in TERMINAL && (after.status == before.status || after.status == Deleted))
  }

  /** What an audited update must do to be such a step. */
  ghost predicate Suits(before: AgentMemory, next: AgentMemory, effect: Effect) {
    && effect != Untouched
    && next.status == NewStatus(effect, before.status)
    && next.allowLlmContext == (before.allowLlmContext && effect != Hidden(Forgotten) && effect != Hidden(Deleted))
    && (effect.Touched? ==> next.allowRetrieval == before.allowRetrieval)
    && (effect.Hidden? || effect.Disabled? ==> !next.allowRetrieval)
    && (effect == Replacing ==> next.allowRetrieval && before.status !in TERMINAL)
    && (before.status in TERMINAL ==> next.status == before.status || next.status == Deleted)
  }

  lemma SameEvents(a: AgentMemory, b: AgentMemory)
    requires a.metadata == b.metadata
    ensures EventCount(a) == EventCount(b)
  {
  }

  lemma UpdatedStep(r: AgentMemory, next: AgentMemory, operation: string, reason: Option<string>, related: Option<string>,
                    effect: Effect)
    requires Suits(r, next, effect) && (next.metadata == r.metadata || EventCount(next) == EventCount(r))
    ensures StepOn(r, Updated(r, next, operation, reason, related), effect)
  {
    var event := LifecycleEvent(operation, r.status, next.status, reason, related);
    WithEventAppends(next.metadata, "lifecycle_events", event, "last_lifecycle_operation", JString(operation), "lifecycle_events");
    WithEventAppends(next.metadata, "lifecycle_events", event, "last_lifecycle_operation", JString(operation), "privacy_events");
    if next.metadata == r.metadata {
      SameEvents(next, r);
    }
    hide WithEvent, EventsAt, LifecycleEvent;
  }

  lemma AdjustedStep(r: AgentMemory, next: AgentMemory, operation: string, details: Object, effect: Effect)
    requires Suits(r, next, effect) && (next.metadata == r.metadata || EventCount(next) == EventCount(r))
    ensures StepOn(r, Adjusted(r, next, operation, details), effect)
  {
    var event := PrivacyEvent(operation, r.status, next.status, details);
    WithEventAppends(next.metadata, "privacy_events", event, "last_privacy_operation", JString(operation), "lifecycle_events");
    WithEventAppends(next.metadata, "privacy_events", event, "last_privacy_operation", JString(operation), "privacy_events");
    if next.metadata == r.metadata {
      SameEvents(next, r);
    }
    hide WithEvent, EventsAt, PrivacyEvent;
  }

  lemma RedactedStep(r: AgentMemory, patterns: seq<Pattern>)
    requires Redacted(r, patterns).Some?
    ensures StepOn(r, Redacted(r, patterns).value, Touched(r.status))
  {
    var title, summary, text := RedactOption(r.title, patterns), RedactOption(r.summary, patterns), RedactText(r.text, patterns);
    var uri, tags, meta := RedactOption(r.sourceUri, patterns), RedactTags(r.tags, patterns), RedactEntries(r.metadata, patterns);
    var next := r.(title := if title.1 then title.0 else r.title, summary := if summary.1 then summary.0 else r.summary,
                   text := if text.1 then text.0 else r.text, sourceUri := if uri.1 then uri.0 else r.sourceUri,
                   tags := if tags.1 then tags.0 else r.tags, metadata := if meta.1 then meta.0 else r.metadata,
                   embedded := false);
    RedactionKeepsEventCount(r.metadata, patterns, "lifecycle_events");
    RedactionKeepsEventCount(r.metadata, patterns, "privacy_events");
    assert EventCount(next) == EventCount(r);
    hide EventsAt, RedactEntries, RedactTags, RedactText, RedactOption, Adjusted, StepOn, EventCount;
    AdjustedStep(r, next, "redact", [Entry("pattern_count", JNumber(|patterns| as real))], Touched(r.status));
  }

  lemma AffectedStep(r: AgentMemory, op: ScopeOperation)
    requires Affected(r, op).Some?
    ensures StepOn(r, Affected(r, op).value, ScopeEffect(op, r.status))
  {
    hide EventsAt, RedactEntries, RedactTags, RedactText, RedactOption, Adjusted, StepOn, EventCount;
    match op
    case ForgetByUser(user) =>
      AdjustedStep(r, r.(status := Forgotten, allowRetrieval := false, allowLlmContext := false), "forget_by_user",
                   [Entry("user_id", JString(user))], Hidden(Forgotten));
    case SoftDelete =>
      AdjustedStep(r, r.(status := Deleted, allowRetrieval := false, allowLlmContext := false), "delete_by_scope",
                   [Entry("hard_delete", JBool(false))], Hidden(Deleted));
    case Disable => AdjustedStep(r, r.(allowRetrieval := false), "disable_memory", [], Disabled);
    case Redact(patterns) => RedactedStep(r, patterns);
  }

  /** One record changes, the others stay. */
  lemma OneStep(s: Memories, x: string, after: AgentMemory, effect: Effect, id: string)
    requires x in s && id in s && StepOn(s[x], after, effect)
    ensures s[x := after].Keys == s.Keys
    ensures StepOn(s[id], s[x := after][id], if id == x then effect else Untouched)
  {
    NothingHappens(s[id]);
    hide StepOn;
  }

  /** Two records change, the others stay. */
  lemma TwoSteps(s: Memories, a: string, b: string, x: AgentMemory, y: AgentMemory, first: Effect, second: Effect, id: string)
    requires a in s && b in s && a != b && id in s && StepOn(s[a], x, first) && StepOn(s[b], y, second)
    ensures s[a := x][b := y].Keys == s.Keys
    ensures StepOn(s[id], s[a := x][b := y][id], if id == a then first else if id == b then second else Untouched)
  {
    NothingHappens(s[id]);
    hide StepOn;
  }

  lemma NothingHappens(r: AgentMemory)
    ensures StepOn(r, r, Untouched)
  {
  }

  lemma PromoteStep(s: Memories, x: string, reason: Option<string>, id: string)
    requires id in s && Promote(s, x, reason).Ok?
    ensures Promote(s, x, reason).value.Keys == s.Keys
    ensures StepOn(s[id], Promote(s, x, reason).value[id], EffectOn(s, DoPromote(x, reason), id))
  {
    var r := s[x];
    var next := r.(status := Active, confidence := AtLeast(r.confidence, PROMOTION_CONFIDENCE_FLOOR),
                   importance := AtLeast(r.importance, PROMOTION_IMPORTANCE_FLOOR));
    assert Promote(s, x, reason).value == s[x := Updated(r, next, "promote", reason, None)];
    hide StepOn, Updated, EventCount, EventsAt, WithEvent;
    UpdatedStep(r, next, "promote", reason, None, Touched(Active));
    OneStep(s, x, Updated(r, next, "promote", reason, None), Touched(Active), id);
  }

  lemma ExpireStep(s: Memories, x: string, reason: Option<string>, now: int, id: string)
    requires id in s && Expire(s, x, reason, now).Ok?
    ensures Expire(s, x, reason, now).value.Keys == s.Keys
    ensures StepOn(s[id], Expire(s, x, reason, now).value[id], EffectOn(s, DoExpire(x, reason, now), id))
  {
    var r := s[x];
    var next := r.(status := Expired, expiresAt := if r.expiresAt.Some? then r.expiresAt else Some(now), allowRetrieval := false);
    assert Expire(s, x, reason, now).value == s[x := Updated(r, next, "expire", reason, None)];
    hide StepOn, Updated, EventCount, EventsAt, WithEvent;
    UpdatedStep(r, next, "expire", reason, None, Hidden(Expired));
    OneStep(s, x, Updated(r, next, "expire", reason, None), Hidden(Expired), id);
  }

  lemma ForgetStep(s: Memories, x: string, reason: Option<string>, id: string)
    requires id in s && Forget(s, x, reason).Ok?
    ensures Forget(s, x, reason).value.Keys == s.Keys
    ensures StepOn(s[id], Forget(s, x, reason).value[id], EffectOn(s, DoForget(x, reason), id))
  {
    var r := s[x];
    var next := r.(status := Forgotten, allowRetrieval := false, allowLlmContext := false);
    assert Forget(s, x, reason).value == s[x := Updated(r, next, "forget", reason, None)];
    hide StepOn, Updated, EventCount, EventsAt, WithEvent;
    UpdatedStep(r, next, "forget", reason, None, Hidden(Forgotten));
    OneStep(s, x, Updated(r, next, "forget", reason, None), Hidden(Forgotten), id);
  }

  lemma FeedbackIsNoAudit(r: AgentMemory, next: AgentMemory, f: Feedback)
    requires next.metadata == WithEvent(r.metadata, "feedback_events", f.note, "last_feedback_at", JNull)
    ensures EventCount(next) == EventCount(r)
  {
    WithEventAppends(r.metadata, "feedback_events", f.note, "last_feedback_at", JNull, "lifecycle_events");
    WithEventAppends(r.metadata, "feedback_events", f.note, "last_feedback_at", JNull, "privacy_events");
  }

  lemma FeedbackStep(s: Memories, x: string, f: Feedback, id: string)
    requires id in s && AddFeedback(s, x, f).Ok?
    ensures AddFeedback(s, x, f).value.Keys == s.Keys
    ensures StepOn(s[id], AddFeedback(s, x, f).value[id], EffectOn(s, DoFeedback(x, f), id))
  {
    hide FeedbackConfidence, FeedbackImportance, WithEvent, EventsAt, EventCount, StepOn;
    var r := s[x];
    var next := r.(confidence := FeedbackConfidence(r.confidence, f), importance := FeedbackImportance(r.importance, f),
                   userRating := if f.userRating.Some? then f.userRating else r.userRating,
                   metadata := WithEvent(r.metadata, "feedback_events", f.note, "last_feedback_at", JNull));
    FeedbackIsNoAudit(r, next, f);
    assert AddFeedback(s, x, f).value == s[x := Updated(r, next, "feedback", None, None)];
    hide Updated;
    UpdatedStep(r, next, "feedback", None, None, Touched(r.status));
    OneStep(s, x, Updated(r, next, "feedback", None, None), Touched(r.status), id);
  }

  lemma SupersedeStep(s: Memories, a: string, b: string, reason: Option<string>, id: string)
    requires id in s && Supersede(s, a, b, reason).Ok?
    ensures Supersede(s, a, b, reason).value.Keys == s.Keys
    ensures StepOn(s[id], Supersede(s, a, b, reason).value[id], EffectOn(s, DoSupersede(a, b, reason), id))
  {
    var x := s[a].(status := Superseded, supersededBy := Some(b), allowRetrieval := false);
    var y := s[b].(status := Active, allowRetrieval := true);
    var x', y' := Updated(s[a], x, "supersede", reason, Some(b)), Updated(s[b], y, "supersede", reason, Some(a));
    assert Supersede(s, a, b, reason).value == s[a := x'][b := y'];
    hide StepOn, Updated, EventCount, EventsAt, WithEvent, AtLeast;
    UpdatedStep(s[a], x, "supersede", reason, Some(b), Hidden(Superseded));
    UpdatedStep(s[b], y, "supersede", reason, Some(a), Replacing);
    TwoSteps(s, a, b, x', y', Hidden(Superseded), Replacing, id);
  }

  lemma ContradictStep(s: Memories, a: string, b: string, reason: Option<string>, id: string)
    requires id in s && Contradict(s, a, b, reason).Ok?
    ensures Contradict(s, a, b, reason).value.Keys == s.Keys
    ensures StepOn(s[id], Contradict(s, a, b, reason).value[id], EffectOn(s, DoContradict(a, b, reason), id))
  {
    hide AtLeast, WithEvent, EventsAt, EventCount, StepOn;
    var x := s[a].(status := Contradicted, confidence := AtLeast(s[a].confidence - CONTRADICTION_CONFIDENCE_DELTA, 0.0));
    var y := s[b].(status := Contradicted, confidence := AtLeast(s[b].confidence - CONTRADICTION_CONFIDENCE_DELTA, 0.0));
    var x', y' := Updated(s[a], x, "contradict", reason, Some(b)), Updated(s[b], y, "contradict", reason, Some(a));
    assert Contradict(s, a, b, reason).value == s[a := x'][b := y'];
    hide Updated;
    UpdatedStep(s[a], x, "contradict", reason, Some(b), Touched(Contradicted));
    UpdatedStep(s[b], y, "contradict", reason, Some(a), Touched(Contradicted));
    TwoSteps(s, a, b, x', y', Touched(Contradicted), Touched(Contradicted), id);
  }

  lemma ScopeStep(s: Memories, selected: seq<string>, scopeOp: ScopeOperation, id: string)
    requires id in s
    ensures ForAll(s, selected, scopeOp).Keys == s.Keys
    ensures StepOn(s[id], ForAll(s, selected, scopeOp)[id], EffectOn(s, DoScope(selected, scopeOp), id))
  {
    if id in selected && Affected(s[id], scopeOp).Some? {
      AffectedStep(s[id], scopeOp);
    }
    hide EventCount, Affected;
  }

  /** Every operation keeps the set of records, and does to each what its effect says. */
  lemma PerformStep(s: Memories, op: Operation, id: string)
    requires id in s
    ensures Perform(s, op).Keys == s.Keys
    ensures StepOn(s[id], Perform(s, op)[id], EffectOn(s, op, id))
  {
    NothingHappens(s[id]);
    hide StepOn, Promote, Supersede, Contradict, Expire, Forget, AddFeedback, ForAll, Affected;
    match op
    case DoScope(selected, scopeOp) => ScopeStep(s, selected, scopeOp, id);
    case _ =>
      if Outcome(s, op).Ok? {
        match op
        case DoPromote(x, reason) => PromoteStep(s, x, reason, id);
        case DoSupersede(a, b, reason) => SupersedeStep(s, a, b, reason, id);
        case DoContradict(a, b, reason) => ContradictStep(s, a, b, reason, id);
        case DoExpire(x, reason, now) => ExpireStep(s, x, reason, now, id);
        case DoForget(x, reason) => ForgetStep(s, x, reason, id);
        case DoFeedback(x, f) => FeedbackStep(s, x, f, id);
      }
  }

  // ---------- whole runs ----------

  lemma {:induction false} RunKeepsRecords(s: Memories, ops: seq<Operation>)
    ensures Run(s, ops).Keys == s.Keys
  {
    if ops != [] {
      var before := Run(s, ops[..|ops| - 1]);
      RunKeepsRecords(s, ops[..|ops| - 1]);
      hide Perform, EffectOn, StepOn;
      if s.Keys != {} {
        var id :| id in s.Keys;
        PerformStep(before, ops[|ops| - 1], id);
      } else {
        PerformOnNothing(before, ops[|ops| - 1]);
      }
    }
  }

  lemma PerformOnNothing(s: Memories, op: Operation)
    requires s.Keys == {}
    ensures Perform(s, op).Keys == {}
  {
  }

  /** The last verdict on a record's visibility: hidden, or replacing another one; none if neither happened. */
  ghost function LastVerdict(s: Memories, ops: seq<Operation>, id: string): Option<bool>
    requires id in s
  {
    if ops == [] then None
    else
      RunKeepsRecords(s, ops[..|ops| - 1]);
      match EffectOn(Run(s, ops[..|ops| - 1]), ops[|ops| - 1], id)
      case Hidden(_) => Some(false)
      case Disabled => Some(false)
      case Replacing => Some(true)
      case _ => LastVerdict(s, ops[..|ops| - 1], id)
  }

  /** Retrieval is allowed exactly when the last hide-or-replace event made the record a replacement, or there
      was none and it was allowed from the start. */
  lemma {:induction false} VisibilityFollowsHistory(s: Memories, ops: seq<Operation>, id: string)
    requires id in s
    ensures id in Run(s, ops)
    ensures Run(s, ops)[id].allowRetrieval
       <==> (match LastVerdict(s, ops, id) case Some(verdict) => verdict case None => s[id].allowRetrieval)
  {
    RunKeepsRecords(s, ops);
    if ops != [] {
      VisibilityFollowsHistory(s, ops[..|ops| - 1], id);
      PerformStep(Run(s, ops[..|ops| - 1]), ops[|ops| - 1], id);
      hide Perform, EffectOn;
    }
  }

  /** Each version after the first left one audit event. */
  lemma {:induction false} EventsCountVersions(s: Memories, ops: seq<Operation>, id: string)
    requires id in s
    ensures id in Run(s, ops)
    ensures Run(s, ops)[id].version >= s[id].version
    ensures EventCount(Run(s, ops)[id]) - EventCount(s[id]) == Run(s, ops)[id].version - s[id].version
  {
    RunKeepsRecords(s, ops);
    if ops != [] {
      EventsCountVersions(s, ops[..|ops| - 1], id);
      PerformStep(Run(s, ops[..|ops| - 1]), ops[|ops| - 1], id);
      hide Perform, EffectOn, EventCount;
    }
  }

  /** A record created at version 1 without audit events has `version - 1` of them, redacted or not. */
  lemma FreshRecordsCount(s: Memories, ops: seq<Operation>, id: string)
    requires id in s && s[id].version == 1 && EventCount(s[id]) == 0
    ensures id in Run(s, ops) && EventCount(Run(s, ops)[id]) == Run(s, ops)[id].version - 1
  {
    EventsCountVersions(s, ops, id);
  }

  /** A forgotten, deleted or removed record stays so, and never becomes visible again. */
  lemma {:induction false} TerminalIsFinal(s: Memories, ops: seq<Operation>, id: string)
    requires id in s && s[id].status in TERMINAL
    ensures id in Run(s, ops) && Run(s, ops)[id].status in TERMINAL
    ensures Run(s, ops)[id].status == s[id].status || Run(s, ops)[id].status == Deleted
    ensures Run(s, ops)[id].allowRetrieval ==> s[id].allowRetrieval
  {
    RunKeepsRecords(s, ops);
    if ops != [] {
      TerminalIsFinal(s, ops[..|ops| - 1], id);
      PerformStep(Run(s, ops[..|ops| - 1]), ops[|ops| - 1], id);
      hide Perform, EffectOn, EventCount;
    }
  }

  // ---------- statuses ----------

  /** An operation that takes a record out of use for good. */
  predicate Retires(op: Operation) {
    op.DoForget? || (op.DoScope? && (op.operation.ForgetByUser? || op.operation.SoftDelete?))
  }

  /** Some operation of the run retired the record. */
  ghost predicate Retired(s: Memories, ops: seq<Operation>, id: string)
    requires id in s
  {
    ops != [] &&
    var before := Run(s, ops[..|ops| - 1]);
    RunKeepsRecords(s, ops[..|ops| - 1]);
    || Retired(s, ops[..|ops| - 1], id)
    || (Retires(ops[|ops| - 1]) && EffectOn(before, ops[|ops| - 1], id) != Untouched)
  }

  /** What the last operation that changed the record made of it; feedback, disabling and redaction keep a status. */
  ghost function LastStatus(s: Memories, ops: seq<Operation>, id: string): MemoryStatus
    requires id in s
  {
    if ops == [] then s[id].status
    else
      var before, op := Run(s, ops[..|ops| - 1]), ops[|ops| - 1];
      RunKeepsRecords(s, ops[..|ops| - 1]);
      if EffectOn(before, op, id) == Untouched then LastStatus(s, ops[..|ops| - 1], id)
      else
        match op
        case DoPromote(_, _) => Active
        case DoExpire(_, _, _) => Expired
        case DoForget(_, _) => Forgotten
        case DoContradict(_, _, _) => Contradicted
        case DoSupersede(replaced, _, _) => if id == replaced then Superseded else Active
        case DoFeedback(_, _) => LastStatus(s, ops[..|ops| - 1], id)
        case DoScope(_, scopeOp) =>
          if scopeOp.ForgetByUser? then Forgotten
          else if scopeOp.SoftDelete? then Deleted
          else LastStatus(s, ops[..|ops| - 1], id)
  }

  lemma StatusAfterStep(s: Memories, op: Operation, id: string)
    requires id in s
    ensures id in Perform(s, op)
    ensures Perform(s, op)[id].status == NewStatus(EffectOn(s, op, id), s[id].status)
  {
    PerformStep(s, op, id);
    hide Perform, EffectOn, EventCount;
  }

  /** Over every run, a record's status is what the last operation that changed it made of it. */
  lemma {:induction false} StatusFollowsHistory(s: Memories, ops: seq<Operation>, id: string)
    requires id in s
    ensures id in Run(s, ops) && Run(s, ops)[id].status == LastStatus(s, ops, id)
  {
    RunKeepsRecords(s, ops);
    if ops != [] {
      var before := Run(s, ops[..|ops| - 1]);
      StatusFollowsHistory(s, ops[..|ops| - 1], id);
      StatusAfterStep(before, ops[|ops| - 1], id);
      hide Perform, Outcome, Affected;
    }
  }

  lemma RetiringStep(s: Memories, op: Operation, id: string)
    requires id in s
    ensures id in Perform(s, op)
    ensures Perform(s, op)[id].status in TERMINAL
       <==> s[id].status in TERMINAL || (Retires(op) && EffectOn(s, op, id) != Untouched)
  {
    PerformStep(s, op, id);
    if EffectOn(s, op, id) != Untouched {
      EffectsThatRetire(s, op, id);
    }
    hide Perform, EffectOn, EventCount;
  }

  lemma EffectsThatRetire(s: Memories, op: Operation, id: string)
    requires id in s && EffectOn(s, op, id) != Untouched
    ensures Retires(op) ==> NewStatus(EffectOn(s, op, id), s[id].status) in TERMINAL
    ensures !Retires(op) ==> NewStatus(EffectOn(s, op, id), s[id].status) in TERMINAL ==> s[id].status in TERMINAL
  {
    hide Outcome, Affected;
  }

  /** Over every run, a record is forgotten, deleted or removed exactly when it was so at first or an operation that
      forgets or deletes has hit it. */
  lemma {:induction false} RetiredExactly(s: Memories, ops: seq<Operation>, id: string)
    requires id in s
    ensures id in Run(s, ops) && (Run(s, ops)[id].status in TERMINAL <==> s[id].status in TERMINAL || Retired(s, ops, id))
  {
    RunKeepsRecords(s, ops);
    if ops != [] {
      RetiredExactly(s, ops[..|ops| - 1], id);
      RetiringStep(Run(s, ops[..|ops| - 1]), ops[|ops| - 1], id);
      hide Perform, EffectOn;
    }
  }

  // ---------- supersession may be cyclic ----------

  /** Whenever one record may supersede another, the other may supersede it back, and each then names the other. */
  lemma SupersessionMayBeCyclic(s: Memories, a: string, b: string, reason: Option<string>)
    requires Supersede(s, a, b, reason).Ok?
    ensures var back := DoSupersede(b, a, reason);
      var after := Run(s, [DoSupersede(a, b, reason), back]);
      && a in after && b in after
      && after[a].supersededBy == Some(b) && after[b].supersededBy == Some(a)
      && after[a].status == Active && after[b].status == Superseded
  {
    var first, back := DoSupersede(a, b, reason), DoSupersede(b, a, reason);
    assert [first, back][..1] == [first] && [first][..0] == [];
    assert Run(s, [first]) == Perform(Run(s, []), first) == Supersede(s, a, b, reason).value;
    hide WithEvent, LifecycleEvent;
  }

  // ---------- confidence and importance ----------

  predicate InUnit(x: real) {
    0.0 <= x <= 1.0
  }

  predicate FeedbackInUnit(f: Feedback) {
    && (f.confidence.Some? ==> InUnit(f.confidence.value)) && (f.importance.Some? ==> InUnit(f.importance.value))
  }

  /** Feedback within its limits keeps confidence and importance within theirs. */
  lemma FeedbackStaysInUnit(confidence: real, importance: real, f: Feedback)
    requires InUnit(confidence) && InUnit(importance) && FeedbackInUnit(f)
    ensures InUnit(FeedbackConfidence(confidence, f)) && InUnit(FeedbackImportance(importance, f))
  {
  }

  ghost predicate Bounded(s: Memories) {
    forall id :: id in s ==> InUnit(s[id].confidence) && InUnit(s[id].importance)
  }

  predicate Admissible(op: Operation) {
    op.DoFeedback? ==> FeedbackInUnit(op.feedback)
  }

  lemma ScopeKeepsConfidence(r: AgentMemory, op: ScopeOperation)
    requires Affected(r, op).Some?
    ensures Affected(r, op).value.confidence == r.confidence && Affected(r, op).value.importance == r.importance
  {
    hide WithEvent, PrivacyEvent, RedactText, RedactEntries, RedactOption, RedactTags;
  }

  lemma PerformStaysBounded(s: Memories, op: Operation)
    requires Bounded(s) && Admissible(op)
    ensures Bounded(Perform(s, op))
  {
    hide WithEvent, LifecycleEvent, Affected;
    match op
    case DoScope(selected, scopeOp) =>
      forall id | id in s && Affected(s[id], scopeOp).Some?
        ensures Affected(s[id], scopeOp).value.confidence == s[id].confidence
        ensures Affected(s[id], scopeOp).value.importance == s[id].importance
      {
        ScopeKeepsConfidence(s[id], scopeOp);
      }
    case DoFeedback(id, f) =>
      if id in s {
        FeedbackStaysInUnit(s[id].confidence, s[id].importance, f);
      }
      hide FeedbackConfidence, FeedbackImportance;
    case _ =>
  }

  /** Over every run, confidence and importance stay within [0, 1]. */
  lemma {:induction false} RunStaysBounded(s: Memories, ops: seq<Operation>)
    requires Bounded(s) && forall i :: 0 <= i < |ops| ==> Admissible(ops[i])
    ensures Bounded(Run(s, ops))
  {
    if ops != [] {
      RunStaysBounded(s, ops[..|ops| - 1]);
      PerformStaysBounded(Run(s, ops[..|ops| - 1]), ops[|ops| - 1]);
    }
  }
}
