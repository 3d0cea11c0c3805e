/**
 The public projection of a Task record and its wire budgets: artifacts with a
 running size, the pending review with a re-measured size, and the lifecycle
 event that must always fit.
 */
module Projection {
  import opened Common
  import opened JsonText
  import opened BoundedText

  const MAX_EVENT_TEXT_LENGTH: nat := 256 * 1024
  const MAX_LIFECYCLE_TEXT_JSON_BYTES: nat := 128 * 1024
  const MAX_PENDING_REVIEW_JSON_BYTES: nat := 64 * 1024
  const MAX_ARTIFACT_LIST_JSON_BYTES: nat := 128 * 1024
  const MAX_ARTIFACT_CAPTION_JSON_BYTES: nat := 32 * 1024
  const MAX_SHORT_EVENT_TEXT_LENGTH: nat := 4096
  const MAX_SHORT_EVENT_TEXT_JSON_BYTES: nat := 8 * 1024
  const MAX_DURABLE_TASK_EVENT_DATA_BYTES: nat := 512 * 1024
  const MAX_REVIEW_ITEMS: nat := 100
  const MAX_REVIEW_DECISIONS: nat := 20
  const MAX_EVENT_ARTIFACTS: nat := 1000

  // ----- sizes of lists and objects

  lemma {:induction false} PrintItemsAppend(items: seq<Json>, x: Json)
    ensures |PrintItems(items + [x])| == |PrintItems(items)| + |Print(x)| + if items == [] then 0 else 1
    decreases |items|
  {
    var longer := items + [x];
    if items == [] {
      assert longer == [x];
    } else {
      assert longer[1..] == items[1..] + [x];
      PrintItemsAppend(items[1..], x);
      if |items| == 1 {
        assert items[1..] == [];
      }
    }
  }

  lemma ArrayAppend(items: seq<Json>, x: Json)
    ensures JsonSize(JArray(items + [x])) == JsonSize(JArray(items)) + JsonSize(x) + if items == [] then 0 else 1
  {
    PrintItemsAppend(items, x);
  }

  /** Encoded size of one `"key":value` pair. */
  function FieldSize(f: Field): nat {
    StringSize(f.key) + 1 + JsonSize(f.value)
  }

  lemma FieldSizeIsExact(f: Field)
    ensures |PrintField(f)| == FieldSize(f)
  {
    StringSizeIsExact(f.key);
  }

  lemma {:induction false} PrintFieldsAppend(fields: seq<Field>, f: Field)
    ensures |PrintFields(fields + [f])| == |PrintFields(fields)| + FieldSize(f) + if fields == [] then 0 else 1
    decreases |fields|
  {
    var longer := fields + [f];
    if fields == [] {
      assert longer == [f];
      FieldSizeIsExact(f);
    } else {
      assert longer[1..] == fields[1..] + [f];
      PrintFieldsAppend(fields[1..], f);
      if |fields| == 1 {
        assert fields[1..] == [];
      }
    }
  }

  /** Adding a pair costs its size and, unless it is the first, a comma. */
  lemma ObjectAppend(fields: seq<Field>, f: Field)
    ensures JsonSize(JObject(fields + [f])) == JsonSize(JObject(fields)) + FieldSize(f) + if fields == [] then 0 else 1
  {
    PrintFieldsAppend(fields, f);
  }

  // ----- keys and numbers

  /** An identifier as JSON text: letters and underscores. */
  function Key(name: string): (t: Text)
    requires forall i :: 0 <= i < |name| ==> KeyChar(name[i])
    ensures |t| == |name|
    ensures forall i :: 0 <= i < |t| ==> t[i] == name[i] as int
  {
    seq(|name|, i requires 0 <= i < |name| => name[i] as int)
  }

  predicate KeyChar(c: char) {
    'a' <= c <= 'z' || c == '_'
  }

  lemma {:induction false} PlainSize(t: Text)
    requires forall i :: 0 <= i < |t| ==> 0x5D <= t[i] < 0x80
    ensures CharsSize(t) == |t|
    decreases |t|
  {
    if t != [] {
      PlainSize(t[1..]);
    }
  }

  lemma KeySize(name: string)
    requires forall i :: 0 <= i < |name| ==> KeyChar(name[i])
    ensures StringSize(Key(name)) == |name| + 2
  {
    PlainSize(Key(name));
  }

  function Digits(n: nat): (d: Bytes)
    ensures d != [] && forall i :: 0 <= i < |d| ==> 0x30 <= d[i] <= 0x39
  {
    if n < 10 then [0x30 + n] else Digits(n / 10) + [0x30 + n % 10]
  }

  // ----- artifacts

  datatype PublishedArtifact = PublishedArtifact(
    artifactId: HostText,
    name: HostText,
    caption: Option<HostText>,
    contentType: HostText,
    size: nat,
    runCount: nat)

  function Short(t: HostText): Text {
    Bounded(t, MAX_SHORT_EVENT_TEXT_LENGTH, MAX_SHORT_EVENT_TEXT_JSON_BYTES)
  }

  function Caption(t: HostText): Text {
    Bounded(t, MAX_EVENT_TEXT_LENGTH, MAX_ARTIFACT_CAPTION_JSON_BYTES)
  }

  /** The projected artifact, field by field. */
  function ArtifactJson(a: PublishedArtifact): Json {
    JObject([
      Field(Key("artifact_id"), JString(Short(a.artifactId))),
      Field(Key("name"), JString(Short(a.name))),
      Field(Key("caption"), if a.caption.Some? then JString(Caption(a.caption.value)) else JNull),
      Field(Key("content_type"), JString(Short(a.contentType))),
      Field(Key("size"), JNumber(Digits(a.size))),
      Field(Key("run_count"), JNumber(Digits(a.runCount)))])
  }

  /** No text of the artifact had to be changed. */
  predicate ArtifactWhole(a: PublishedArtifact) {
    SameText(Short(a.artifactId), a.artifactId) && SameText(Short(a.name), a.name)
    && SameText(Short(a.contentType), a.contentType)
    && (a.caption.Some? ==> SameText(Caption(a.caption.value), a.caption.value))
  }

  /** `_project_artifact`. */
  method ProjectArtifact(a: PublishedArtifact) returns (item: Json, truncated: bool)
    ensures item == ArtifactJson(a)
    ensures truncated <==> !ArtifactWhole(a)
  {
    var id, idCut := BoundText(a.artifactId, MAX_SHORT_EVENT_TEXT_LENGTH, MAX_SHORT_EVENT_TEXT_JSON_BYTES);
    var name, nameCut := BoundText(a.name, MAX_SHORT_EVENT_TEXT_LENGTH, MAX_SHORT_EVENT_TEXT_JSON_BYTES);
    var contentType, typeCut := BoundText(a.contentType, MAX_SHORT_EVENT_TEXT_LENGTH, MAX_SHORT_EVENT_TEXT_JSON_BYTES);
    var caption, captionCut := JNull, false;
    if a.caption.Some? {
      var text;
      text, captionCut := BoundText(a.caption.value, MAX_EVENT_TEXT_LENGTH, MAX_ARTIFACT_CAPTION_JSON_BYTES);
      caption := JString(text);
    }
    item := JObject([
      Field(Key("artifact_id"), JString(id)),
      Field(Key("name"), JString(name)),
      Field(Key("caption"), caption),
      Field(Key("content_type"), JString(contentType)),
      Field(Key("size"), JNumber(Digits(a.size))),
      Field(Key("run_count"), JNumber(Digits(a.runCount)))]);
    truncated := idCut || nameCut || typeCut || captionCut;
  }

  function ArtifactJsons(values: seq<PublishedArtifact>): (items: seq<Json>)
    ensures |items| == |values|
    ensures forall i :: 0 <= i < |values| ==> items[i] == ArtifactJson(values[i])
  {
    seq(|values|, i requires 0 <= i < |values| => ArtifactJson(values[i]))
  }

  /** The first n values, within the count and the byte budget, and n cannot be raised. */
  predicate LongestArtifacts(values: seq<PublishedArtifact>, n: nat) {
    n <= |values| && n <= MAX_EVENT_ARTIFACTS
    && JsonSize(JArray(ArtifactJsons(values[..n]))) <= MAX_ARTIFACT_LIST_JSON_BYTES
    && (n < |values| && n < MAX_EVENT_ARTIFACTS ==>
          JsonSize(JArray(ArtifactJsons(values[..n + 1]))) > MAX_ARTIFACT_LIST_JSON_BYTES)
  }

  lemma ArtifactsNext(values: seq<PublishedArtifact>, n: nat)
    requires n < |values|
    ensures ArtifactJsons(values[..n + 1]) == ArtifactJsons(values[..n]) + [ArtifactJson(values[n])]
    ensures JsonSize(JArray(ArtifactJsons(values[..n + 1])))
         == JsonSize(JArray(ArtifactJsons(values[..n]))) + JsonSize(ArtifactJson(values[n])) + if n == 0 then 0 else 1
  {
    ArrayAppend(ArtifactJsons(values[..n]), ArtifactJson(values[n]));
    assert ArtifactJsons(values[..n + 1]) == ArtifactJsons(values[..n]) + [ArtifactJson(values[n])];
  }

  /** `_project_artifacts`: the running size is the list's true size at every step. */
  method ProjectArtifacts(values: seq<PublishedArtifact>) returns (projected: seq<Json>, truncated: bool)
    ensures LongestArtifacts(values, |projected|)
    ensures projected == ArtifactJsons(values[..|projected|])
    ensures truncated <==> |projected| < |values| || exists i :: 0 <= i < |values| && !ArtifactWhole(values[i])
  {
    projected := [];
    var encodedSize := 2;
    truncated := |values| > MAX_EVENT_ARTIFACTS;
    var count := if |values| < MAX_EVENT_ARTIFACTS then |values| else MAX_EVENT_ARTIFACTS;
    var i := 0;
    assert ArtifactJsons(values[..0]) == [];
    while i < count
      invariant 0 <= i <= count && projected == ArtifactJsons(values[..i]) && |projected| == i
      invariant encodedSize == JsonSize(JArray(projected)) <= MAX_ARTIFACT_LIST_JSON_BYTES
      invariant truncated <==> |values| > MAX_EVENT_ARTIFACTS || exists k :: 0 <= k < i && !ArtifactWhole(values[k])
    {
      var item, cut := ProjectArtifact(values[i]);
      var candidateSize := encodedSize + JsonSize(item) + if projected != [] then 1 else 0;
      ArtifactsNext(values, i);
      if candidateSize > MAX_ARTIFACT_LIST_JSON_BYTES {
        truncated := true;
        break;
      }
      projected := projected + [item];
      encodedSize := candidateSize;
      truncated := truncated || cut;
      i := i + 1;
    }
    if |projected| < count {
      truncated := true;
    }
  }
}
