/**
 The projection of a pending review of unknown shape, and the theorem that a
 lifecycle event always fits its wire budget.
 */
module ReviewProjection {
  import opened Common
  import opened JsonText
  import opened BoundedText
  import opened Projection

  /** An untyped value as the runtime hands it over. */
  datatype Raw =
    | RNone
    | RText(text: HostText)
    | RList(items: seq<Raw>)
    | RDict(entries: map<string, Raw>)
    | ROther(truthy: bool)

  function Get(d: map<string, Raw>, key: string): Raw {
    if key in d then d[key] else RNone
  }

  predicate Truthy(r: Raw) {
    match r
    case RNone => false
    case RText(t) => t != []
    case RList(items) => items != []
    case RDict(d) => d != map[]
    case ROther(truthy) => truthy
  }

  predicate NonEmptyText(r: Raw) {
    r.RText? && r.text != []
  }

  predicate Whole(t: HostText) {
    SameText(Short(t), t)
  }

  function Front(items: seq<Raw>, n: nat): seq<Raw> {
    if |items| <= n then items else items[..n]
  }

  // ----- decisions

  /** The usable choices, in order. */
  function Choices(items: seq<Raw>): seq<HostText>
    decreases |items|
  {
    if items == [] then []
    else
      var n := |items| - 1;
      Choices(items[..n]) + if NonEmptyText(items[n]) then [items[n].text] else []
  }

  function Shorts(texts: seq<HostText>): (r: seq<Json>)
    ensures |r| == |texts| && forall i :: 0 <= i < |r| ==> r[i] == JString(Short(texts[i]))
  {
    seq(|texts|, i requires 0 <= i < |texts| => JString(Short(texts[i])))
  }

  function DecisionTexts(raw: Raw): seq<Json> {
    if raw.RList? then Shorts(Choices(Front(raw.items, MAX_REVIEW_DECISIONS))) else []
  }

  /** Every choice is carried over unchanged. */
  predicate DecisionsWhole(raw: Raw) {
    raw.RList? && |raw.items| <= MAX_REVIEW_DECISIONS
    && forall i :: 0 <= i < |raw.items| ==> NonEmptyText(raw.items[i]) && Whole(raw.items[i].text)
  }

  /** `_project_review_decisions`. */
  method ProjectReviewDecisions(raw: Raw) returns (decisions: seq<Json>, truncated: bool)
    ensures decisions == DecisionTexts(raw)
    ensures truncated <==> !DecisionsWhole(raw)
  {
    if !raw.RList? {
      return [], true;
    }
    decisions := [];
    truncated := |raw.items| > MAX_REVIEW_DECISIONS;
    var front := Front(raw.items, MAX_REVIEW_DECISIONS);
    var i := 0;
    assert front[..0] == [] && Shorts([]) == [];
    while i < |front|
      invariant 0 <= i <= |front| && decisions == Shorts(Choices(front[..i]))
      invariant truncated <==> |raw.items| > MAX_REVIEW_DECISIONS
                               || exists k :: 0 <= k < i && !(NonEmptyText(front[k]) && Whole(front[k].text))
    {
      var choice := front[i];
      assert front[..i + 1][..i] == front[..i];
      i := i + 1;
      if !NonEmptyText(choice) {
        truncated := true;
        assert Choices(front[..i]) == Choices(front[..i - 1]) + [];
        continue;
      }
      var bounded, cut := BoundText(choice.text, MAX_SHORT_EVENT_TEXT_LENGTH, MAX_SHORT_EVENT_TEXT_JSON_BYTES);
      ShortsAppend(Choices(front[..i - 1]), choice.text);
      decisions := decisions + [JString(bounded)];
      truncated := truncated || cut;
    }
    assert front[..i] == front;
  }

  lemma ShortsAppend(texts: seq<HostText>, t: HostText)
    ensures Shorts(texts + [t]) == Shorts(texts) + [JString(Short(t))]
  {
  }

  // ----- actions and configs: items admitted one by one while the whole review fits

  /** What the projection keeps of one list item; None drops it. */
  function ActionItem(item: Raw): Option<Json> {
    if !item.RDict? || !NonEmptyText(Get(item.entries, "name")) then None
    else Some(JObject([Field(Key("name"), JString(Short(Get(item.entries, "name").text)))]))
  }

  predicate ActionWhole(item: Raw) {
    item.RDict? && NonEmptyText(Get(item.entries, "name")) && Whole(Get(item.entries, "name").text)
  }

  function ConfigItem(item: Raw): Option<Json> {
    if !item.RDict? || !NonEmptyText(Get(item.entries, "action_name")) then None
    else Some(JObject([
      Field(Key("action_name"), JString(Short(Get(item.entries, "action_name").text))),
      Field(Key("allowed_decisions"), JArray(DecisionTexts(Get(item.entries, "allowed_decisions"))))]))
  }

  predicate ConfigWhole(item: Raw) {
    item.RDict? && NonEmptyText(Get(item.entries, "action_name")) && Whole(Get(item.entries, "action_name").text)
    && DecisionsWhole(Get(item.entries, "allowed_decisions"))
  }

  function Item(configs: bool, item: Raw): Option<Json> {
    if configs then ConfigItem(item) else ActionItem(item)
  }

  predicate ItemWhole(configs: bool, item: Raw) {
    if configs then ConfigWhole(item) else ActionWhole(item)
  }

  /** The usable items, in order. */
  function Kept(configs: bool, items: seq<Raw>): seq<Json>
    decreases |items|
  {
    if items == [] then []
    else
      var n := |items| - 1;
      Kept(configs, items[..n]) + if Item(configs, items[n]).Some? then [Item(configs, items[n]).value] else []
  }

  /** The review with this list under this key still fits. */
  predicate ListFits(projected: seq<Field>, key: Text, items: seq<Json>) {
    JsonSize(JObject(projected + [Field(key, JArray(items))])) <= MAX_PENDING_REVIEW_JSON_BYTES
  }

  /**
   The list that goes out: what the first n items leave, it fits unless it is
   empty, and n stops only at the end or before an item that would not fit.
   */
  predicate ListOk(configs: bool, projected: seq<Field>, key: Text, raw: seq<Raw>, n: nat, items: seq<Json>) {
    var front := Front(raw, MAX_REVIEW_ITEMS);
    && n <= |front| && items == Kept(configs, front[..n])
    && (items != [] ==> ListFits(projected, key, items))
    && (n < |front| ==> Item(configs, front[n]).Some? && !ListFits(projected, key, items + [Item(configs, front[n]).value]))
  }

  predicate ListWhole(configs: bool, raw: seq<Raw>, n: nat) {
    n == |raw| && forall i :: 0 <= i < |raw| ==> ItemWhole(configs, raw[i])
  }

  method ProjectItem(configs: bool, item: Raw) returns (json: Option<Json>, cut: bool)
    ensures json == Item(configs, item)
    ensures json.Some? ==> (cut <==> !ItemWhole(configs, item))
    ensures json.None? ==> cut && !ItemWhole(configs, item)
  {
    var key := if configs then "action_name" else "name";
    if !item.RDict? || !NonEmptyText(Get(item.entries, key)) {
      return None, true;
    }
    var name;
    name, cut := BoundText(Get(item.entries, key).text, MAX_SHORT_EVENT_TEXT_LENGTH, MAX_SHORT_EVENT_TEXT_JSON_BYTES);
    if !configs {
      return Some(JObject([Field(Key("name"), JString(name))])), cut;
    }
    var decisions, decisionsCut := ProjectReviewDecisions(Get(item.entries, "allowed_decisions"));
    json := Some(JObject([Field(Key("action_name"), JString(name)), Field(Key("allowed_decisions"), JArray(decisions))]));
    cut := cut || decisionsCut;
  }

  /** The loop of `_project_pending_review` over actions, and `_project_review_configs`. */
  method ProjectList(configs: bool, projected: seq<Field>, key: Text, raw: seq<Raw>)
    returns (items: seq<Json>, truncated: bool, ghost n: nat)
    ensures ListOk(configs, projected, key, raw, n, items)
    ensures truncated <==> !ListWhole(configs, raw, n)
  {
    items := [];
    truncated := |raw| > MAX_REVIEW_ITEMS;
    var front := Front(raw, MAX_REVIEW_ITEMS);
    n := 0;
    var i := 0;
    assert front[..0] == [];
    while i < |front|
      invariant 0 <= i <= |front| && n == i && items == Kept(configs, front[..i])
      invariant items != [] ==> ListFits(projected, key, items)
      invariant truncated <==> |raw| > MAX_REVIEW_ITEMS || exists k :: 0 <= k < i && !ItemWhole(configs, front[k])
    {
      var json, cut := ProjectItem(configs, front[i]);
      assert front[..i + 1][..i] == front[..i];
      if json.None? {
        truncated := true;
        i, n := i + 1, n + 1;
        assert items == items + [];
        continue;
      }
      var candidate := items + [json.value];
      if JsonSize(JObject(projected + [Field(key, JArray(candidate))])) > MAX_PENDING_REVIEW_JSON_BYTES {
        return items, true, i;
      }
      items := candidate;
      truncated := truncated || cut;
      i, n := i + 1, n + 1;
    }
  }

  // ----- the whole review

  /** Adding one named field costs at most its name, its value, two quotes, a colon and a comma. */
  lemma Grows(fields: seq<Field>, name: string, value: Json, before: nat, size: nat)
    requires forall i :: 0 <= i < |name| ==> KeyChar(name[i])
    requires JsonSize(JObject(fields)) <= before && JsonSize(value) <= size
    ensures JsonSize(JObject(fields + [Field(Key(name), value)])) <= before + size + |name| + 4
    ensures JsonSize(JObject(fields + [Field(Key(name), value)])) >= JsonSize(JObject(fields))
  {
    ObjectAppend(fields, Field(Key(name), value));
    KeySize(name);
  }

  lemma ShortFits(t: HostText)
    ensures JsonSize(JString(Short(t))) <= MAX_SHORT_EVENT_TEXT_JSON_BYTES
  {
    BoundedIsLongest(t, MAX_SHORT_EVENT_TEXT_LENGTH, MAX_SHORT_EVENT_TEXT_JSON_BYTES);
  }

  function IdField(d: map<string, Raw>, key: string): (f: seq<Field>)
    requires forall i :: 0 <= i < |key| ==> KeyChar(key[i])
  {
    if NonEmptyText(Get(d, key)) then [Field(Key(key), JString(Short(Get(d, key).text)))] else []
  }

  predicate IdWhole(d: map<string, Raw>, key: string) {
    Get(d, key).RNone? || (NonEmptyText(Get(d, key)) && Whole(Get(d, key).text))
  }

  const ID_BUDGET: nat := 8 * 1024 + 18

  method ProjectId(projected: seq<Field>, d: map<string, Raw>, key: string) returns (after: seq<Field>, truncated: bool)
    requires |key| <= 14 && forall i :: 0 <= i < |key| ==> KeyChar(key[i])
    ensures after == projected + IdField(d, key)
    ensures truncated <==> !IdWhole(d, key)
    ensures JsonSize(JObject(after)) <= JsonSize(JObject(projected)) + ID_BUDGET
  {
    var item := Get(d, key);
    if NonEmptyText(item) {
      var bounded;
      bounded, truncated := BoundText(item.text, MAX_SHORT_EVENT_TEXT_LENGTH, MAX_SHORT_EVENT_TEXT_JSON_BYTES);
      ShortFits(item.text);
      Grows(projected, key, JString(bounded), JsonSize(JObject(projected)), MAX_SHORT_EVENT_TEXT_JSON_BYTES);
      after := projected + [Field(Key(key), JString(bounded))];
    } else {
      truncated := !item.RNone?;
      after := projected;
      assert projected + [] == projected;
    }
  }

  /** The list under a key, when the raw value has one. */
  predicate ListFieldOk(configs: bool, projected: seq<Field>, name: string, raw: Raw, n: nat, after: seq<Field>)
    requires forall i :: 0 <= i < |name| ==> KeyChar(name[i])
  {
    if raw.RList? then
      |after| == |projected| + 1 && after[..|projected|] == projected
      && after[|projected|].key == Key(name) && after[|projected|].value.JArray?
      && ListOk(configs, projected, Key(name), raw.items, n, after[|projected|].value.items)
    else after == projected
  }

  predicate ListFieldWhole(configs: bool, raw: Raw, n: nat) {
    raw.RNone? || (raw.RList? && ListWhole(configs, raw.items, n))
  }

  method ProjectListField(configs: bool, projected: seq<Field>, name: string, raw: Raw)
    returns (after: seq<Field>, truncated: bool, ghost n: nat)
    requires forall i :: 0 <= i < |name| ==> KeyChar(name[i])
    ensures ListFieldOk(configs, projected, name, raw, n, after)
    ensures truncated <==> !ListFieldWhole(configs, raw, n)
    ensures JsonSize(JObject(after)) <= MAX_PENDING_REVIEW_JSON_BYTES
         || JsonSize(JObject(after)) <= JsonSize(JObject(projected)) + |name| + 6
  {
    n := 0;
    if !raw.RList? {
      return projected, !raw.RNone?, n;
    }
    var items;
    items, truncated, n := ProjectList(configs, projected, Key(name), raw.items);
    after := projected + [Field(Key(name), JArray(items))];
    if items == [] {
      Grows(projected, name, JArray([]), JsonSize(JObject(projected)), 2);
    }
  }

  function Ids(d: map<string, Raw>): seq<Field> {
    IdField(d, "review_id") + IdField(d, "source_task_id")
  }

  /** The fields up to the actions, and then the configs. */
  predicate ListsOk(d: map<string, Raw>, middle: seq<Field>, review: seq<Field>, n: nat, m: nat) {
    ListFieldOk(false, Ids(d), "action_requests", Get(d, "action_requests"), n, middle)
    && ListFieldOk(true, middle, "review_configs", Get(d, "review_configs"), m, review)
  }

  /** What a projected review consists of, for some numbers of admitted actions and configs. */
  ghost predicate ReviewOk(d: map<string, Raw>, review: seq<Field>, n: nat, m: nat) {
    exists middle: seq<Field> :: ListsOk(d, middle, review, n, m)
  }

  /** Nothing the projection knows about was dropped or changed. */
  predicate ReviewWhole(d: map<string, Raw>, n: nat, m: nat) {
    IdWhole(d, "review_id") && IdWhole(d, "source_task_id")
    && ListFieldWhole(false, Get(d, "action_requests"), n) && ListFieldWhole(true, Get(d, "review_configs"), m)
  }

  /** The bound that holds: the budget plus an appended empty `review_configs`. */
  const REVIEW_BOUND: nat := MAX_PENDING_REVIEW_JSON_BYTES + 20

  /** `_project_pending_review`. */
  method ProjectPendingReview(raw: Raw) returns (review: Option<seq<Field>>, truncated: bool, ghost n: nat, ghost m: nat)
    ensures review.Some? ==> raw.RDict? && review.value != [] && ReviewOk(raw.entries, review.value, n, m)
    ensures review.Some? ==> JsonSize(JObject(review.value)) <= REVIEW_BOUND
    ensures review.None? && raw.RDict? && raw.entries != map[] ==> ReviewOk(raw.entries, [], n, m)
    ensures raw.RDict? && raw.entries != map[] ==> (truncated <==> !ReviewWhole(raw.entries, n, m))
    ensures !(raw.RDict? && raw.entries != map[]) ==> (truncated <==> Truthy(raw))
  {
    n, m := 0, 0;
    if !raw.RDict? || raw.entries == map[] {
      return None, Truthy(raw), n, m;
    }
    var d := raw.entries;
    var cut;
    var projected, idCut := ProjectId([], d, "review_id");
    projected, cut := ProjectId(projected, d, "source_task_id");
    assert projected == Ids(d);
    truncated := idCut || cut;
    var middle;
    middle, cut, n := ProjectListField(false, projected, "action_requests", Get(d, "action_requests"));
    assert JsonSize(JObject(middle)) <= MAX_PENDING_REVIEW_JSON_BYTES;
    truncated := truncated || cut;
    var all;
    all, cut, m := ProjectListField(true, middle, "review_configs", Get(d, "review_configs"));
    truncated := truncated || cut;
    assert ListsOk(d, middle, all, n, m);
    review := if all == [] then None else Some(all);
  }
}
