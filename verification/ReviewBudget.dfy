/** When a projected review is larger than its budget: exactly when, and an input for which it is. */
module ReviewBudget {
  import opened Common
  import opened JsonText
  import opened BoundedText
  import opened Projection
  import opened ReviewProjection

  // ----- exactly when

  /** What an empty `review_configs` adds to the review before it. */
  function EmptyConfigsSize(before: seq<Field>): nat {
    19 + if before == [] then 0 else 1
  }

  lemma EmptyConfigs(before: seq<Field>)
    ensures JsonSize(JObject(before + [Field(Key("review_configs"), JArray([]))]))
         == JsonSize(JObject(before)) + EmptyConfigsSize(before)
  {
    ObjectAppend(before, Field(Key("review_configs"), JArray([])));
    KeySize("review_configs");
  }

  lemma IdGrows(projected: seq<Field>, d: map<string, Raw>, key: string)
    requires |key| <= 14 && forall i :: 0 <= i < |key| ==> KeyChar(key[i])
    ensures JsonSize(JObject(projected + IdField(d, key))) <= JsonSize(JObject(projected)) + ID_BUDGET
  {
    var item := Get(d, key);
    if NonEmptyText(item) {
      ShortFits(item.text);
      Grows(projected, key, JString(Short(item.text)), JsonSize(JObject(projected)), MAX_SHORT_EVENT_TEXT_JSON_BYTES);
    } else {
      assert projected + [] == projected;
    }
  }

  lemma IdsFit(d: map<string, Raw>)
    ensures JsonSize(JObject(Ids(d))) <= 2 + 2 * ID_BUDGET
  {
    IdGrows([], d, "review_id");
    assert [] + IdField(d, "review_id") == IdField(d, "review_id");
    IdGrows(IdField(d, "review_id"), d, "source_task_id");
  }

  /** Before its configs the review fits. */
  lemma ActionsFit(d: map<string, Raw>, n: nat, middle: seq<Field>)
    requires ListFieldOk(false, Ids(d), "action_requests", Get(d, "action_requests"), n, middle)
    ensures JsonSize(JObject(middle)) <= MAX_PENDING_REVIEW_JSON_BYTES
  {
    IdsFit(d);
    if Get(d, "action_requests").RList? {
      var items := middle[|Ids(d)|].value.items;
      assert middle == Ids(d) + [Field(Key("action_requests"), JArray(items))];
      if items == [] {
        Grows(Ids(d), "action_requests", JArray([]), JsonSize(JObject(Ids(d))), 2);
      }
    }
  }

  /** An empty list of configs stands last and does not fit any more. */
  predicate EmptyConfigsOverflow(raw: Raw, review: seq<Field>) {
    raw.RList? && review != [] && review[|review| - 1].value == JArray([])
    && JsonSize(JObject(review[..|review| - 1])) + EmptyConfigsSize(review[..|review| - 1]) > MAX_PENDING_REVIEW_JSON_BYTES
  }

  lemma ConfigsExactly(middle: seq<Field>, raw: Raw, m: nat, review: seq<Field>)
    requires ListFieldOk(true, middle, "review_configs", raw, m, review)
    requires JsonSize(JObject(middle)) <= MAX_PENDING_REVIEW_JSON_BYTES
    ensures JsonSize(JObject(review)) > MAX_PENDING_REVIEW_JSON_BYTES <==> EmptyConfigsOverflow(raw, review)
  {
    if raw.RList? {
      var items := review[|middle|].value.items;
      assert review == middle + [Field(Key("review_configs"), JArray(items))];
      assert review[..|review| - 1] == middle;
      if items == [] {
        EmptyConfigs(middle);
      }
    }
  }

  /**
   A projected review exceeds 64 KiB exactly when `review_configs` is a list from
   which nothing was admitted and what precedes it leaves no room for the empty list.
   */
  lemma OverBudgetExactly(d: map<string, Raw>, review: seq<Field>, n: nat, m: nat)
    requires ReviewOk(d, review, n, m)
    ensures JsonSize(JObject(review)) > MAX_PENDING_REVIEW_JSON_BYTES <==> EmptyConfigsOverflow(Get(d, "review_configs"), review)
  {
    var middle: seq<Field> :| ListsOk(d, middle, review, n, m);
    ActionsFit(d, n, middle);
    ConfigsExactly(middle, Get(d, "review_configs"), m, review);
  }

  // ----- an input that exceeds it

  /** The characters of the names, and the size of one action with such a name. */
  const NAME_LENGTH: nat := 4082
  const ACTION_SIZE: nat := NAME_LENGTH + 11

  function Name(): HostText {
    seq(NAME_LENGTH, _ => 0x61)
  }

  function Action(): Raw {
    RDict(map["name" := RText(Name())])
  }

  function Actions(k: nat): seq<Raw> {
    seq(k, _ => Action())
  }

  /** Sixteen actions fill the budget; then there are no configs. */
  function Brimful(): map<string, Raw> {
    map["action_requests" := RList(Actions(16)), "review_configs" := RList([])]
  }

  lemma NameIsWhole()
    ensures |Short(Name())| == NAME_LENGTH && CharsSize(Short(Name())) == NAME_LENGTH
  {
    var t := Normalize(Name());
    assert t[..|t|] == t;
    PlainSize(t);
    FitCountUnique(t, MAX_SHORT_EVENT_TEXT_JSON_BYTES - 2, |t|);
  }

  function ActionOut(): Json {
    JObject([Field(Key("name"), JString(Short(Name())))])
  }

  lemma ActionIsProjected()
    ensures ActionItem(Action()) == Some(ActionOut())
  {
    assert Get(Action().entries, "name") == RText(Name());
  }

  lemma ActionOutSize()
    ensures JsonSize(ActionOut()) == ACTION_SIZE
  {
    var f := Field(Key("name"), JString(Short(Name())));
    NameIsWhole();
    StringSizeIsExact(Short(Name()));
    KeySize("name");
    ObjectAppend([], f);
    assert [] + [f] == [f];
  }

  function Outs(k: nat): seq<Json> {
    seq(k, _ => ActionOut())
  }

  lemma {:induction false} KeptActions(k: nat)
    ensures Kept(false, Actions(k)) == Outs(k)
    decreases k
  {
    if k > 0 {
      assert Actions(k)[..k - 1] == Actions(k - 1);
      KeptActions(k - 1);
      ActionIsProjected();
      assert Outs(k) == Outs(k - 1) + [ActionOut()];
    }
  }

  lemma {:induction false} OutsSize(k: nat)
    ensures JsonSize(JArray(Outs(k))) == 2 + k * ACTION_SIZE + if k > 0 then k - 1 else 0
    decreases k
  {
    if k == 0 {
      assert Outs(k) == [];
      assert Print(JArray(Outs(k))) == [0x5B] + PrintItems(Outs(k)) + [0x5D];
    } else {
      assert Outs(k) == Outs(k - 1) + [ActionOut()];
      OutsSize(k - 1);
      ActionOutSize();
      ArrayAppend(Outs(k - 1), ActionOut());
      assert k * ACTION_SIZE == (k - 1) * ACTION_SIZE + ACTION_SIZE;
    }
  }

  function WithActions(k: nat): seq<Field> {
    [Field(Key("action_requests"), JArray(Outs(k)))]
  }

  lemma WithActionsSize(k: nat)
    requires k > 0
    ensures JsonSize(JObject(WithActions(k))) == 22 + k * ACTION_SIZE + k - 1
  {
    var f := Field(Key("action_requests"), JArray(Outs(k)));
    OutsSize(k);
    KeySize("action_requests");
    ObjectAppend([], f);
    assert [] + [f] == [f];
  }

  /** All sixteen actions are admitted: a shorter list would have room for one more. */
  lemma AllActionsFit(n: nat, items: seq<Json>)
    requires ListOk(false, [], Key("action_requests"), Actions(16), n, items)
    ensures items == Outs(16)
  {
    var front := Front(Actions(16), MAX_REVIEW_ITEMS);
    assert front == Actions(16) && front[..n] == Actions(n);
    KeptActions(n);
    if n < 16 {
      ActionIsProjected();
      OneMoreFits(n);
    }
  }

  lemma OneMoreFits(n: nat)
    requires n < 16
    ensures ListFits([], Key("action_requests"), Outs(n) + [ActionOut()])
  {
    assert Outs(n) + [ActionOut()] == Outs(n + 1);
    WithActionsSize(n + 1);
    assert [] + WithActions(n + 1) == WithActions(n + 1);
  }

  lemma BrimfulFields()
    ensures Ids(Brimful()) == []
    ensures Get(Brimful(), "action_requests") == RList(Actions(16)) && Get(Brimful(), "review_configs") == RList([])
  {
  }

  lemma BrimfulMiddle(n: nat, middle: seq<Field>)
    requires ListFieldOk(false, [], "action_requests", RList(Actions(16)), n, middle)
    ensures middle == WithActions(16)
  {
    AllActionsFit(n, middle[0].value.items);
    assert middle == [middle[0]];
  }

  lemma NoConfigs(middle: seq<Field>, m: nat, review: seq<Field>)
    requires ListFieldOk(true, middle, "review_configs", RList([]), m, review)
    ensures review == middle + [Field(Key("review_configs"), JArray([]))]
  {
    assert Front([], MAX_REVIEW_ITEMS)[..m] == [];
    assert review == middle + [review[|middle|]];
  }

  /** Its projection, whatever the numbers it reports, is larger than 64 KiB. */
  lemma BrimfulExceeds(review: seq<Field>, n: nat, m: nat)
    requires ReviewOk(Brimful(), review, n, m)
    ensures JsonSize(JObject(review)) > MAX_PENDING_REVIEW_JSON_BYTES
  {
    var middle: seq<Field> :| ListsOk(Brimful(), middle, review, n, m);
    BrimfulFields();
    BrimfulMiddle(n, middle);
    NoConfigs(middle, m, review);
    WithActionsSize(16);
    EmptyConfigs(middle);
  }
}
