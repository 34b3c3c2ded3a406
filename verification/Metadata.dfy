/** Record metadata, its audit lists, and redaction. */
module Metadata {
  import opened Common

  datatype Json =
    | JNull
    | JBool(flag: bool)
    | JNumber(number: real)
    | JString(text: string)
    | JList(items: seq<Json>)
    | JObject(entries: Object)

  datatype Entry = Entry(key: string, value: Json)

  type Object = seq<Entry>

  function Lookup(o: Object, key: string): Option<Json> {
    if o == [] then None
    else if o[|o| - 1].key == key then Some(o[|o| - 1].value)
    else Lookup(o[..|o| - 1], key)
  }

  function SetEntry(o: Object, key: string, value: Json): Object {
    if o == [] then [Entry(key, value)]
    else if o[|o| - 1].key == key then o[..|o| - 1] + [Entry(key, value)]
    else SetEntry(o[..|o| - 1], key, value) + [o[|o| - 1]]
  }

  lemma {:induction false} LookupAfterSet(o: Object, key: string, value: Json, other: string)
    ensures Lookup(SetEntry(o, key, value), other) == if other == key then Some(value) else Lookup(o, other)
  {
    if o != [] {
      LookupAfterSet(o[..|o| - 1], key, value, other);
      var r := SetEntry(o, key, value);
      assert r[..|r| - 1] == if o[|o| - 1].key == key then o[..|o| - 1] else SetEntry(o[..|o| - 1], key, value);
    }
  }

  // ---------- audit lists ----------

  /** `list(metadata.get(key, []))` */
  function EventsAt(o: Object, key: string): seq<Json> {
    match Lookup(o, key)
    case Some(JList(items)) => items
    case _ => []
  }

  /** `_with_lifecycle_event`, `_with_privacy_event` and `_with_feedback_event` share this form: append to one
      list, and note the latest entry under another key. */
  function WithEvent(o: Object, key: string, event: Json, lastKey: string, last: Json): Object {
    SetEntry(SetEntry(o, key, JList(EventsAt(o, key) + [event])), lastKey, last)
  }

  lemma WithEventAppends(o: Object, key: string, event: Json, lastKey: string, last: Json, other: string)
    requires key != lastKey && other != lastKey
    ensures EventsAt(WithEvent(o, key, event, lastKey, last), other)
         == EventsAt(o, other) + if other == key then [event] else []
  {
    var list := JList(EventsAt(o, key) + [event]);
    LookupAfterSet(o, key, list, other);
    LookupAfterSet(SetEntry(o, key, list), lastKey, last, other);
  }

  // ---------- redaction ----------

  /** `pattern.subn(token, text)`: the new text and the number of replacements. */
  type Pattern = string -> (string, nat)

  function RedactText(text: string, patterns: seq<Pattern>): (string, bool) {
    if patterns == [] then (text, false)
    else
      var before := RedactText(text, patterns[..|patterns| - 1]);
      var after := patterns[|patterns| - 1](before.0);
      (after.0, before.1 || after.1 > 0)
  }

  /** `_redact_value` */
  function RedactValue(v: Json, patterns: seq<Pattern>): (r: (Json, bool))
    decreases v, 1
  {
    match v
    case JString(text) => var r := RedactText(text, patterns); (JString(r.0), r.1)
    case JList(items) => var r := RedactItems(items, patterns); (JList(r.0), r.1)
    case JObject(entries) => var r := RedactEntries(entries, patterns); (JObject(r.0), r.1)
    case _ => (v, false)
  }

  function RedactItems(items: seq<Json>, patterns: seq<Pattern>): (r: (seq<Json>, bool))
    ensures |r.0| == |items|
    decreases items, 0
  {
    if items == [] then ([], false)
    else
      var before := RedactItems(items[..|items| - 1], patterns);
      var last := RedactValue(items[|items| - 1], patterns);
      (before.0 + [last.0], before.1 || last.1)
  }

  function RedactEntries(entries: Object, patterns: seq<Pattern>): (r: (Object, bool))
    ensures |r.0| == |entries|
    decreases entries, 0
  {
    if entries == [] then ([], false)
    else
      var before := RedactEntries(entries[..|entries| - 1], patterns);
      var last := RedactValue(entries[|entries| - 1].value, patterns);
      (before.0 + [Entry(entries[|entries| - 1].key, last.0)], before.1 || last.1)
  }

  /** A pattern that replaces nothing leaves the text as it is. */
  ghost predicate Honest(patterns: seq<Pattern>) {
    forall i, text :: 0 <= i < |patterns| && patterns[i](text).1 == 0 ==> patterns[i](text).0 == text
  }

  lemma {:induction false} UnredactedText(text: string, patterns: seq<Pattern>)
    requires Honest(patterns) && !RedactText(text, patterns).1
    ensures RedactText(text, patterns).0 == text
  {
    if patterns != [] {
      UnredactedText(text, patterns[..|patterns| - 1]);
    }
  }

  /** What redaction does not report as changed it has not changed. */
  lemma {:induction false} UnredactedValue(v: Json, patterns: seq<Pattern>)
    requires Honest(patterns) && !RedactValue(v, patterns).1
    ensures RedactValue(v, patterns).0 == v
    decreases v, 1
  {
    match v
    case JString(text) => UnredactedText(text, patterns);
    case JList(items) => UnredactedItems(items, patterns);
    case JObject(entries) => UnredactedEntries(entries, patterns);
    case _ =>
  }

  lemma {:induction false} UnredactedItems(items: seq<Json>, patterns: seq<Pattern>)
    requires Honest(patterns) && !RedactItems(items, patterns).1
    ensures RedactItems(items, patterns).0 == items
    decreases items, 0
  {
    if items != [] {
      UnredactedItems(items[..|items| - 1], patterns);
      UnredactedValue(items[|items| - 1], patterns);
    }
  }

  lemma {:induction false} UnredactedEntries(entries: Object, patterns: seq<Pattern>)
    requires Honest(patterns) && !RedactEntries(entries, patterns).1
    ensures RedactEntries(entries, patterns).0 == entries
    decreases entries, 0
  {
    if entries != [] {
      UnredactedEntries(entries[..|entries| - 1], patterns);
      UnredactedValue(entries[|entries| - 1].value, patterns);
      assert entries == entries[..|entries| - 1] + [entries[|entries| - 1]];
    }
  }

  /** Redaction may rewrite the audit entries, but never their number. */
  lemma {:induction false} RedactionKeepsEventCount(o: Object, patterns: seq<Pattern>, key: string)
    ensures |EventsAt(RedactEntries(o, patterns).0, key)| == |EventsAt(o, key)|
  {
    if o != [] {
      var init, last := o[..|o| - 1], o[|o| - 1];
      var r := RedactEntries(o, patterns).0;
      RedactionKeepsEventCount(init, patterns, key);
      assert r[..|r| - 1] == RedactEntries(init, patterns).0;
    }
  }

  method RedactString(text: string, patterns: seq<Pattern>) returns (redacted: string, changed: bool)
    ensures (redacted, changed) == RedactText(text, patterns)
  {
    redacted, changed := text, false;
    for i := 0 to |patterns|
      invariant (redacted, changed) == RedactText(text, patterns[..i])
    {
      assert patterns[..i + 1][..i] == patterns[..i];
      var r := patterns[i](redacted);
      redacted := r.0;
      changed := changed || r.1 > 0;
    }
    assert patterns[..|patterns|] == patterns;
  }
}
