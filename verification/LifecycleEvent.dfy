/** The lifecycle event of a Task record: what it carries, and that it always fits its wire budget. */
module LifecycleEvent {
  import opened Common
  import opened JsonText
  import opened BoundedText
  import opened Projection
  import opened ReviewProjection

  datatype TaskState = Pending | Running | WaitingForHuman | Completed | Failed | Cancelled | Interrupted

  /** An ISO timestamp: a bounded text of plain characters, quotes included in the size. */
  const TIMESTAMP_BUDGET: nat := 64

  type Timestamp = t: Text | JsonSize(JString(t)) <= TIMESTAMP_BUDGET witness EmptyTimestamp()

  function EmptyTimestamp(): (t: Text)
    ensures JsonSize(JString(t)) <= TIMESTAMP_BUDGET
  {
    StringSizeIsExact([]);
    []
  }

  datatype TaskRecord = TaskRecord(
    state: TaskState,
    result: Option<HostText>,
    error: Option<HostText>,
    updatedAt: Timestamp,
    pendingReview: Raw,
    artifacts: seq<PublishedArtifact>)

  function StateName(s: TaskState): (name: string)
    ensures |name| <= 17 && forall i :: 0 <= i < |name| ==> KeyChar(name[i])
  {
    match s
    case Pending => "pending"
    case Running => "running"
    case WaitingForHuman => "waiting_for_human"
    case Completed => "completed"
    case Failed => "failed"
    case Cancelled => "cancelled"
    case Interrupted => "interrupted"
  }

  function LifecycleText(t: Option<HostText>): Json {
    if t.Some? then JString(Bounded(t.value, MAX_EVENT_TEXT_LENGTH, MAX_LIFECYCLE_TEXT_JSON_BYTES)) else JNull
  }

  predicate LifecycleWhole(t: Option<HostText>) {
    t.Some? ==> SameText(Bounded(t.value, MAX_EVENT_TEXT_LENGTH, MAX_LIFECYCLE_TEXT_JSON_BYTES), t.value)
  }

  method BoundLifecycleText(t: Option<HostText>) returns (json: Json, truncated: bool)
    ensures json == LifecycleText(t) && (truncated <==> !LifecycleWhole(t))
    ensures JsonSize(json) <= MAX_LIFECYCLE_TEXT_JSON_BYTES
  {
    if t.None? {
      return JNull, false;
    }
    var text;
    text, truncated := BoundText(t.value, MAX_EVENT_TEXT_LENGTH, MAX_LIFECYCLE_TEXT_JSON_BYTES);
    BoundedIsLongest(t.value, MAX_EVENT_TEXT_LENGTH, MAX_LIFECYCLE_TEXT_JSON_BYTES);
    json := JString(text);
  }

  /** The six fields every lifecycle event has, in order. */
  function BaseFields(record: TaskRecord, lastResult: Json, error: Json, review: Option<seq<Field>>, artifacts: seq<Json>): seq<Field> {
    [Field(Key("status"), JString(Key(StateName(record.state)))),
     Field(Key("last_result"), lastResult),
     Field(Key("error"), error),
     Field(Key("updated_at"), JString(record.updatedAt)),
     Field(Key("pending_review"), if review.Some? then JObject(review.value) else JNull),
     Field(Key("artifacts"), JArray(artifacts))]
  }

  /** What the six fields can take together. */
  const BASE_BUDGET: nat := 2 * MAX_LIFECYCLE_TEXT_JSON_BYTES + REVIEW_BOUND + MAX_ARTIFACT_LIST_JSON_BYTES + 171

  lemma StatusSize(s: TaskState)
    ensures JsonSize(JString(Key(StateName(s)))) <= 19
  {
    KeySize(StateName(s));
    StringSizeIsExact(Key(StateName(s)));
  }

  lemma BaseFits(record: TaskRecord, lastResult: Json, error: Json, review: Option<seq<Field>>, artifacts: seq<Json>)
    requires JsonSize(lastResult) <= MAX_LIFECYCLE_TEXT_JSON_BYTES && JsonSize(error) <= MAX_LIFECYCLE_TEXT_JSON_BYTES
    requires review.Some? ==> JsonSize(JObject(review.value)) <= REVIEW_BOUND
    requires JsonSize(JArray(artifacts)) <= MAX_ARTIFACT_LIST_JSON_BYTES
    ensures JsonSize(JObject(BaseFields(record, lastResult, error, review, artifacts))) <= BASE_BUDGET
  {
    var f := BaseFields(record, lastResult, error, review, artifacts);
    StatusSize(record.state);
    FieldsPrefix(f, 1, "status", 2, 19);
    FieldsPrefix(f, 2, "last_result", 31, MAX_LIFECYCLE_TEXT_JSON_BYTES);
    FieldsPrefix(f, 3, "error", 46 + MAX_LIFECYCLE_TEXT_JSON_BYTES, MAX_LIFECYCLE_TEXT_JSON_BYTES);
    FieldsPrefix(f, 4, "updated_at", 55 + 2 * MAX_LIFECYCLE_TEXT_JSON_BYTES, TIMESTAMP_BUDGET);
    FieldsPrefix(f, 5, "pending_review", 133 + 2 * MAX_LIFECYCLE_TEXT_JSON_BYTES, REVIEW_BOUND);
    FieldsPrefix(f, 6, "artifacts", 151 + 2 * MAX_LIFECYCLE_TEXT_JSON_BYTES + REVIEW_BOUND, MAX_ARTIFACT_LIST_JSON_BYTES);
    assert f[..6] == f;
  }

  lemma EmptyObject(f: seq<Field>)
    requires f == []
    ensures JsonSize(JObject(f)) == 2
  {
    assert PrintFields(f) == [];
    assert Print(JObject(f)) == [0x7B] + PrintFields(f) + [0x7D];
  }

  lemma FieldsPrefix(f: seq<Field>, n: nat, name: string, before: nat, size: nat)
    requires 0 < n <= |f| && forall i :: 0 <= i < |name| ==> KeyChar(name[i])
    requires f[n - 1].key == Key(name) && JsonSize(f[n - 1].value) <= size
    requires n > 1 ==> JsonSize(JObject(f[..n - 1])) <= before
    requires n == 1 ==> before >= 2
    ensures JsonSize(JObject(f[..n])) <= before + size + |name| + 4
  {
    assert f[..n] == f[..n - 1] + [Field(Key(name), f[n - 1].value)];
    if n == 1 {
      EmptyObject(f[..0]);
    }
    Grows(f[..n - 1], name, f[n - 1].value, before, size);
  }

  function Flag(name: string, set_: bool): (f: seq<Field>)
    requires forall i :: 0 <= i < |name| ==> KeyChar(name[i])
  {
    if set_ then [Field(Key(name), JBool(true))] else []
  }

  /** The markers that follow: what was cut, and whether the state was reconciled. */
  method AddFlag(data: seq<Field>, name: string, set_: bool) returns (after: seq<Field>)
    requires |name| <= 24 && forall i :: 0 <= i < |name| ==> KeyChar(name[i])
    ensures after == data + Flag(name, set_)
    ensures JsonSize(JObject(after)) <= JsonSize(JObject(data)) + 32
  {
    if set_ {
      Grows(data, name, JBool(true), JsonSize(JObject(data)), 4);
      after := data + [Field(Key(name), JBool(true))];
    } else {
      after := data;
      assert data + [] == data;
    }
  }

  function CutMarkers(resultCut: bool, errorCut: bool, reviewCut: bool, artifactsCut: bool): seq<Field> {
    Flag("last_result_truncated", resultCut) + Flag("error_truncated", errorCut)
    + Flag("pending_review_truncated", reviewCut) + Flag("artifacts_truncated", artifactsCut)
  }

  method AddCutMarkers(data: seq<Field>, resultCut: bool, errorCut: bool, reviewCut: bool, artifactsCut: bool) returns (after: seq<Field>)
    ensures after == data + CutMarkers(resultCut, errorCut, reviewCut, artifactsCut)
    ensures JsonSize(JObject(after)) <= JsonSize(JObject(data)) + 128
  {
    var r := AddFlag(data, "last_result_truncated", resultCut);
    var e := AddFlag(r, "error_truncated", errorCut);
    var p := AddFlag(e, "pending_review_truncated", reviewCut);
    after := AddFlag(p, "artifacts_truncated", artifactsCut);
  }

  function ReconcileMarkers(reconciled: Option<Timestamp>): seq<Field> {
    Flag("reconciled", reconciled.Some?)
    + if reconciled.Some? then [Field(Key("observed_at"), JString(reconciled.value))] else []
  }

  method AddReconcileMarkers(data: seq<Field>, reconciled: Option<Timestamp>) returns (after: seq<Field>)
    ensures after == data + ReconcileMarkers(reconciled)
    ensures JsonSize(JObject(after)) <= JsonSize(JObject(data)) + 111
  {
    after := AddFlag(data, "reconciled", reconciled.Some?);
    if reconciled.Some? {
      Grows(after, "observed_at", JString(reconciled.value), JsonSize(JObject(after)), TIMESTAMP_BUDGET);
      after := after + [Field(Key("observed_at"), JString(reconciled.value))];
    }
  }

  predicate ReviewCut(raw: Raw, n: nat, m: nat) {
    if raw.RDict? && raw.entries != map[] then !ReviewWhole(raw.entries, n, m) else Truthy(raw)
  }

  predicate ArtifactsCut(artifacts: seq<PublishedArtifact>, shown: nat) {
    shown < |artifacts| || exists i :: 0 <= i < |artifacts| && !ArtifactWhole(artifacts[i])
  }

  /** Everything a lifecycle event says; `n` and `m` are the numbers of review items its projection admitted. */
  predicate EventOk(record: TaskRecord, reconciled: Option<Timestamp>, data: seq<Field>, review: Option<seq<Field>>, shown: nat, n: nat, m: nat)
  {
    LongestArtifacts(record.artifacts, shown)
    && data == BaseFields(record, LifecycleText(record.result), LifecycleText(record.error), review, ArtifactJsons(record.artifacts[..shown]))
               + CutMarkers(!LifecycleWhole(record.result), !LifecycleWhole(record.error),
                            ReviewCut(record.pendingReview, n, m), ArtifactsCut(record.artifacts, shown))
               + ReconcileMarkers(reconciled)
  }

  /**
   `lifecycle_event_data`. For every record whatever, the event states its
   projection and its cuts, and the final guard never raises.
   */
  method LifecycleEventData(record: TaskRecord, reconciled: Option<Timestamp>)
    returns (event: Result<seq<Field>, string>, ghost review: Option<seq<Field>>, ghost shown: nat, ghost n: nat, ghost m: nat)
    ensures event.Ok? && JsonSize(JObject(event.value)) <= MAX_DURABLE_TASK_EVENT_DATA_BYTES
    ensures EventOk(record, reconciled, event.value, review, shown, n, m)
    ensures review.Some? ==> record.pendingReview.RDict? && ReviewOk(record.pendingReview.entries, review.value, n, m)
    ensures review.None? && record.pendingReview.RDict? && record.pendingReview.entries != map[] ==>
              ReviewOk(record.pendingReview.entries, [], n, m)
  {
    var lastResult, resultCut := BoundLifecycleText(record.result);
    var error, errorCut := BoundLifecycleText(record.error);
    var pending, reviewCut;
    pending, reviewCut, n, m := ProjectPendingReview(record.pendingReview);
    var artifacts, artifactsCut := ProjectArtifacts(record.artifacts);
    review, shown := pending, |artifacts|;
    var data := BaseFields(record, lastResult, error, pending, artifacts);
    BaseFits(record, lastResult, error, pending, artifacts);
    data := AddCutMarkers(data, resultCut, errorCut, reviewCut, artifactsCut);
    data := AddReconcileMarkers(data, reconciled);
    if JsonSize(JObject(data)) > MAX_DURABLE_TASK_EVENT_DATA_BYTES {
      event := Err("Projected durable Task event exceeds its wire budget");
    } else {
      event := Ok(data);
    }
  }
}
