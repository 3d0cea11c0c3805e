/**
 The durable Task mailbox: messages claimed in token batches with a lease,
 acknowledged, released, renewed, retracted; a wakeup sequence per message;
 and the outbox whose settled results become messages.
 Each operation is one transaction on the shared database.
 */
module Mailbox {
  import opened Common

  type Owner = nat
  type Token = nat
  type MessageId = nat
  type Key = nat

  /** The run of a child Task a message reports on. */
  datatype Child = Child(task: nat, run: nat)

  datatype Body = Body(recipient: Option<nat>, thread: nat, child: Option<Child>, content: string, trigger: bool)

  datatype Status = Pending | Claimed | Delivered | Retracted

  datatype Message = Message(
    body: Body,
    key: Option<Key>,
    sequence: nat,
    status: Status,
    holder: Option<Owner>,
    token: Option<Token>,
    expires: Option<int>)

  datatype OutboxStatus = OutPending | OutClaimed | OutDelivered | OutSuppressed

  datatype OutboxRow = OutboxRow(status: OutboxStatus, token: Option<Token>, retracted: bool)

  datatype Box = Box(messages: map<MessageId, Message>, value: nat, outbox: map<Key, OutboxRow>)

  datatype Op =
    | Publish(id: MessageId, key: Option<Key>, body: Body)
    | PublishSettled(outboxKey: Key, claim: Token, blocked: bool, id: MessageId, body: Body)
    | RetractOutbox(outboxKey: Key)
    | MoveOutbox(outboxKey: Key, row: OutboxRow)
    | Claim(owner: Owner, recipient: Option<nat>, thread: nat, token: Token, lease: int, now: int, suppressed: set<Child>)
    | Acknowledge(owner: Owner, claims: set<(MessageId, Token)>, now: int)
    | AcknowledgeTokens(owner: Owner, tokens: set<Token>, now: int)
    | ReleaseTokens(owner: Owner, tokens: set<Token>, now: int)
    | RenewTokens(owner: Owner, tokens: set<Token>, lease: int, now: int)
    | RetractSettled(thread: nat, child: Child)
    | Expire(now: int)

  // ----- what each UPDATE does to one row

  predicate Live(m: Message, owner: Owner, now: int) {
    m.status == Claimed && m.holder == Some(owner) && m.token.Some? && m.expires.Some? && m.expires.value > now
  }

  predicate Expired(m: Message, now: int) {
    m.status == Claimed && m.expires.Some? && m.expires.value <= now
  }

  function Freed(m: Message): Message {
    m.(status := Pending, holder := None, token := None, expires := None)
  }

  function Lapse(m: Message, now: int): Message {
    if Expired(m, now) then Freed(m) else m
  }

  /** A named recipient also gets the thread's unaddressed messages. */
  predicate Addressed(m: Message, recipient: Option<nat>, thread: nat) {
    if recipient.Some? then m.body.recipient == recipient || (m.body.recipient.None? && m.body.thread == thread)
    else m.body.thread == thread
  }

  predicate Suppressed(m: Message, suppressed: set<Child>) {
    m.body.child.Some? && m.body.child.value in suppressed
  }

  predicate Open(m: Message) {
    m.status == Pending || m.status == Claimed
  }

  function Acknowledged(m: Message): Message {
    m.(status := Delivered, token := None, expires := None)
  }

  function Touch(id: MessageId, m: Message, op: Op): Message {
    match op
    case Claim(owner, recipient, thread, token, lease, now, suppressed) =>
      var f := Lapse(m, now);
      if f.status == Pending && Addressed(f, recipient, thread) && !Suppressed(f, suppressed)
      then f.(status := Claimed, holder := Some(owner), token := Some(token), expires := Some(now + lease))
      else f
    case Acknowledge(owner, claims, now) =>
      if Live(m, owner, now) && (id, m.token.value) in claims then Acknowledged(m) else m
    case AcknowledgeTokens(owner, tokens, now) =>
      if Live(m, owner, now) && m.token.value in tokens then Acknowledged(m) else m
    case ReleaseTokens(owner, tokens, now) =>
      if Live(m, owner, now) && m.token.value in tokens then Freed(m) else m
    case RenewTokens(owner, tokens, lease, now) =>
      if Live(m, owner, now) && m.token.value in tokens then m.(expires := Some(now + lease)) else m
    case RetractSettled(thread, child) =>
      if m.body.thread == thread && m.body.child == Some(child) && Open(m) then Freed(m).(status := Retracted) else m
    case RetractOutbox(outboxKey) =>
      if m.key == Some(outboxKey) && Open(m) then Freed(m).(status := Retracted) else m
    case Expire(now) => Lapse(m, now)
    case _ => m
  }

  function Touched(messages: map<MessageId, Message>, op: Op): map<MessageId, Message> {
    map id | id in messages :: Touch(id, messages[id], op)
  }

  // ----- publishing

  ghost predicate KeyTaken(messages: map<MessageId, Message>, key: Key) {
    exists id :: id in messages && messages[id].key == Some(key)
  }

  /** The insert and its trigger: a new row takes the next sequence. */
  function Inserted(b: Box, id: MessageId, key: Option<Key>, body: Body): Box {
    b.(messages := b.messages[id := Message(body, key, b.value + 1, Pending, None, None, None)], value := b.value + 1)
  }

  ghost predicate InsertFits(b: Box, id: MessageId, key: Option<Key>) {
    id !in b.messages && (key.Some? ==> !KeyTaken(b.messages, key.value))
  }

  /** Unkeyed rows that report the same run to the same thread. */
  function Legacy(b: Box, body: Body): set<MessageId> {
    set id | id in b.messages && b.messages[id].key.None? && b.messages[id].body.thread == body.thread
             && b.messages[id].body.child == body.child && b.messages[id].status != Retracted
  }

  ghost function HolderOf(messages: map<MessageId, Message>, key: Key): (id: MessageId)
    requires KeyTaken(messages, key)
    ensures id in messages && messages[id].key == Some(key)
  {
    var id :| id in messages && messages[id].key == Some(key);
    id
  }

  ghost function AnyOf(ids: set<MessageId>): (id: MessageId)
    requires ids != {}
    ensures id in ids
  {
    var id :| id in ids;
    id
  }

  /** Bind the settled result to its one message; None is the conflict error, which rolls back. */
  ghost function Resolve(b: Box, key: Key, id: MessageId, body: Body): Option<Box> {
    if KeyTaken(b.messages, key) then
      var known := b.messages[HolderOf(b.messages, key)];
      if known.body == body && known.status != Retracted then Some(b) else None
    else if Legacy(b, body) != {} then
      var row := AnyOf(Legacy(b, body));
      if |Legacy(b, body)| == 1 && b.messages[row].body == body
      then Some(b.(messages := b.messages[row := b.messages[row].(key := Some(key))]))
      else None
    else if id in b.messages then None
    else Some(Inserted(b, id, Some(key), body))
  }

  predicate OutboxHeld(b: Box, key: Key, claim: Token) {
    key in b.outbox && b.outbox[key].status == OutClaimed && b.outbox[key].token == Some(claim)
  }

  ghost function Apply(b: Box, op: Op): Box {
    match op
    case Publish(id, key, body) => if InsertFits(b, id, key) then Inserted(b, id, key, body) else b
    case PublishSettled(key, claim, blocked, id, body) =>
      if !OutboxHeld(b, key, claim) || blocked || Resolve(b, key, id, body).None? then b
      else Resolve(b, key, id, body).value.(outbox := b.outbox[key := OutboxRow(OutDelivered, None, b.outbox[key].retracted)])
    case RetractOutbox(key) =>
      if key in b.outbox && b.outbox[key].status == OutSuppressed && !b.outbox[key].retracted
      then b.(messages := Touched(b.messages, op), outbox := b.outbox[key := b.outbox[key].(retracted := true)])
      else b
    case MoveOutbox(key, row) =>
      if (key in b.outbox && b.outbox[key].status == OutDelivered) || row.status == OutDelivered then b
      else b.(outbox := b.outbox[key := row])
    case _ => b.(messages := Touched(b.messages, op))
  }

  ghost function Run(b: Box, ops: seq<Op>): Box
    decreases |ops|
  {
    if ops == [] then b else Run(Apply(b, ops[0]), ops[1..])
  }

  const EMPTY := Box(map[], 0, map[])

  // ----- what every operation keeps

  /** The claim columns agree with the status. */
  predicate ClaimColumns(m: Message) {
    match m.status
    case Pending => m.holder.None? && m.token.None? && m.expires.None?
    case Claimed => m.holder.Some? && m.token.Some? && m.expires.Some?
    case Delivered => m.token.None? && m.expires.None?
    case Retracted => m.holder.None? && m.token.None? && m.expires.None?
  }

  ghost predicate RowsOk(messages: map<MessageId, Message>, value: nat) {
    forall id :: id in messages ==> ClaimColumns(messages[id]) && 0 < messages[id].sequence <= value
  }

  /** Sequences and idempotency keys identify a message. */
  ghost predicate Unique(messages: map<MessageId, Message>) {
    forall i, j :: i in messages && j in messages && i != j ==>
      messages[i].sequence != messages[j].sequence && (messages[i].key.Some? ==> messages[i].key != messages[j].key)
  }

  /** A settled result marked delivered has its message. */
  ghost predicate SettledOk(messages: map<MessageId, Message>, outbox: map<Key, OutboxRow>) {
    forall key :: key in outbox && outbox[key].status == OutDelivered ==> KeyTaken(messages, key)
  }

  ghost predicate BoxOk(b: Box) {
    RowsOk(b.messages, b.value) && Unique(b.messages) && SettledOk(b.messages, b.outbox)
  }

  predicate Final(m: Message) {
    m.status == Delivered || m.status == Retracted
  }

  /** One row over time: identity and sequence fixed, a key only ever bound, final states never left. */
  predicate RowEvolves(a: Message, b: Message) {
    b.body == a.body && b.sequence == a.sequence && (a.key.Some? ==> b.key == a.key)
    && (Final(a) ==> b.status == a.status)
  }

  /** No row is lost; a row that is new came after every old one. */
  ghost predicate RowsEvolve(a: map<MessageId, Message>, value: nat, b: map<MessageId, Message>) {
    (forall id :: id in a ==> id in b && RowEvolves(a[id], b[id]))
    && (forall id :: id in b && id !in a ==> b[id].sequence > value)
  }

  ghost predicate Evolves(a: Box, b: Box) {
    a.value <= b.value && RowsEvolve(a.messages, a.value, b.messages)
  }

  lemma SameRowsEvolve(messages: map<MessageId, Message>, value: nat)
    ensures RowsEvolve(messages, value, messages)
  {
  }

  lemma TouchEvolves(id: MessageId, m: Message, op: Op)
    requires ClaimColumns(m)
    ensures RowEvolves(m, Touch(id, m, op)) && Touch(id, m, op).key == m.key && ClaimColumns(Touch(id, m, op))
  {
  }

  lemma TouchedKeeps(b: Box, op: Op)
    requires BoxOk(b)
    ensures var after := b.(messages := Touched(b.messages, op)); BoxOk(after) && Evolves(b, after)
  {
    var after := Touched(b.messages, op);
    forall id | id in b.messages
      ensures RowEvolves(b.messages[id], after[id]) && after[id].key == b.messages[id].key && ClaimColumns(after[id])
    {
      TouchEvolves(id, b.messages[id], op);
    }
    KeysKept(b.messages, after);
  }

  lemma KeysKept(a: map<MessageId, Message>, b: map<MessageId, Message>)
    requires forall id :: id in a ==> id in b && (a[id].key.Some? ==> b[id].key == a[id].key)
    ensures forall key: Key :: KeyTaken(a, key) ==> KeyTaken(b, key)
  {
    forall key: Key | KeyTaken(a, key) ensures KeyTaken(b, key) {
      var id :| id in a && a[id].key == Some(key);
      assert id in b && b[id].key == Some(key);
    }
  }

  lemma InsertKeeps(b: Box, id: MessageId, key: Option<Key>, body: Body)
    requires BoxOk(b) && InsertFits(b, id, key)
    ensures BoxOk(Inserted(b, id, key, body)) && Evolves(b, Inserted(b, id, key, body))
    ensures key.Some? ==> KeyTaken(Inserted(b, id, key, body).messages, key.value)
  {
    var after := Inserted(b, id, key, body);
    KeysKept(b.messages, after.messages);
    assert after.messages[id].key == key;
    forall i | i in b.messages && key.Some? ensures b.messages[i].key != key {
      assert !KeyTaken(b.messages, key.value);
    }
  }

  lemma BindKeeps(b: Box, row: MessageId, key: Key)
    requires BoxOk(b) && row in b.messages && b.messages[row].key.None? && !KeyTaken(b.messages, key)
    ensures var after := b.(messages := b.messages[row := b.messages[row].(key := Some(key))]);
            BoxOk(after) && Evolves(b, after) && KeyTaken(after.messages, key)
  {
    var after := b.messages[row := b.messages[row].(key := Some(key))];
    KeysKept(b.messages, after);
    assert after[row].key == Some(key);
    forall i | i in b.messages ensures b.messages[i].key != Some(key) {
      assert !KeyTaken(b.messages, key);
    }
  }

  lemma ResolveKeeps(b: Box, key: Key, id: MessageId, body: Body)
    requires BoxOk(b) && Resolve(b, key, id, body).Some?
    ensures var after := Resolve(b, key, id, body).value;
            BoxOk(after) && Evolves(b, after) && KeyTaken(after.messages, key) && after.outbox == b.outbox
  {
    if KeyTaken(b.messages, key) {
    } else if Legacy(b, body) != {} {
      BindKeeps(b, AnyOf(Legacy(b, body)), key);
    } else {
      InsertKeeps(b, id, Some(key), body);
    }
  }

  lemma SettleKeeps(b: Box, op: Op)
    requires BoxOk(b) && op.PublishSettled?
    ensures BoxOk(Apply(b, op)) && Evolves(b, Apply(b, op))
  {
    SameRowsEvolve(b.messages, b.value);
    if OutboxHeld(b, op.outboxKey, op.claim) && !op.blocked && Resolve(b, op.outboxKey, op.id, op.body).Some? {
      ResolveKeeps(b, op.outboxKey, op.id, op.body);
    }
  }

  lemma OpKeeps(b: Box, op: Op)
    requires BoxOk(b)
    ensures BoxOk(Apply(b, op)) && Evolves(b, Apply(b, op))
  {
    match op
    case Publish(id, key, body) =>
      SameRowsEvolve(b.messages, b.value);
      if InsertFits(b, id, key) {
        InsertKeeps(b, id, key, body);
      }
    case PublishSettled(_, _, _, _, _) => SettleKeeps(b, op);
    case MoveOutbox(_, _) => SameRowsEvolve(b.messages, b.value);
    case RetractOutbox(_) =>
      SameRowsEvolve(b.messages, b.value);
      TouchedKeeps(b, op);
    case _ => TouchedKeeps(b, op);
  }

  lemma EvolvesTransitive(a: Box, b: Box, c: Box)
    requires Evolves(a, b) && Evolves(b, c)
    ensures Evolves(a, c)
  {
    forall id | id in a.messages ensures id in c.messages && RowEvolves(a.messages[id], c.messages[id]) {
      assert RowEvolves(a.messages[id], b.messages[id]) && RowEvolves(b.messages[id], c.messages[id]);
    }
    forall id | id in c.messages && id !in a.messages ensures c.messages[id].sequence > a.value {
      if id in b.messages {
        assert RowEvolves(b.messages[id], c.messages[id]);
      }
    }
  }

  /**
   Over every interleaving of owners, publishes, leases and retractions: no
   message is lost or changes its identity, delivered and retracted are never
   left, wakeup sequences are unique and increasing, and every settled result
   marked delivered has exactly one message.
   */
  lemma {:induction false} RunKeeps(b: Box, ops: seq<Op>)
    requires BoxOk(b)
    ensures BoxOk(Run(b, ops)) && Evolves(b, Run(b, ops))
    decreases |ops|
  {
    if ops != [] {
      OpKeeps(b, ops[0]);
      RunKeeps(Apply(b, ops[0]), ops[1..]);
      EvolvesTransitive(b, Apply(b, ops[0]), Run(b, ops));
    }
  }

  // ----- claims

  /** Who an operation speaks for: an owner and the tokens it presents for this message. */
  predicate Presents(op: Op, id: MessageId, owner: Owner, token: Token) {
    match op
    case Acknowledge(o, claims, _) => o == owner && (id, token) in claims
    case AcknowledgeTokens(o, tokens, _) => o == owner && token in tokens
    case ReleaseTokens(o, tokens, _) => o == owner && token in tokens
    case RenewTokens(o, tokens, _, _) => o == owner && token in tokens
    case _ => false
  }

  predicate Retracts(op: Op, m: Message) {
    (op.RetractSettled? && m.body.thread == op.thread && m.body.child == Some(op.child))
    || (op.RetractOutbox? && m.key == Some(op.outboxKey))
  }

  function Clock(op: Op, otherwise: int): int {
    match op
    case Claim(_, _, _, _, _, now, _) => now
    case Acknowledge(_, _, now) => now
    case AcknowledgeTokens(_, _, now) => now
    case ReleaseTokens(_, _, now) => now
    case RenewTokens(_, _, _, now) => now
    case Expire(now) => now
    case _ => otherwise
  }

  /** While a claim lives, only its own owner presenting its own token, or a retraction, changes the message. */
  lemma LiveClaimIsExclusive(id: MessageId, m: Message, owner: Owner, op: Op, now: int)
    requires ClaimColumns(m) && Live(m, owner, now) && Clock(op, now) == now
    requires !Presents(op, id, owner, m.token.value) && !Retracts(op, m)
    ensures Touch(id, m, op) == m
  {
  }

  /** A holder's acknowledge, release or renewal takes effect exactly while its claim lives. */
  lemma HolderActsExactly(id: MessageId, m: Message, op: Op)
    requires ClaimColumns(m)
    requires op.Acknowledge? || op.AcknowledgeTokens? || op.ReleaseTokens?
    ensures Touch(id, m, op) != m <==>
              Live(m, op.owner, Clock(op, 0)) && Presents(op, id, op.owner, m.token.value)
    ensures Touch(id, m, op) != m ==>
              Touch(id, m, op).status == if op.ReleaseTokens? then Pending else Delivered
  {
  }

  /** The operations that can only act through one token. */
  predicate OnlyToken(op: Op, token: Token) {
    match op
    case Acknowledge(_, claims, _) => forall c :: c in claims ==> c.1 == token
    case AcknowledgeTokens(_, tokens, _) => tokens <= {token}
    case ReleaseTokens(_, tokens, _) => tokens <= {token}
    case RenewTokens(_, tokens, _, _) => tokens <= {token}
    case _ => false
  }

  lemma TokenStaysGone(id: MessageId, m: Message, op: Op, token: Token)
    requires m.token != Some(token) && !(op.Claim? && op.token == token)
    ensures Touch(id, m, op).token != Some(token)
    ensures OnlyToken(op, token) ==> Touch(id, m, op) == m
  {
  }

  lemma ApplyTouches(b: Box, op: Op, id: MessageId)
    requires id in b.messages
    ensures id in Apply(b, op).messages
    ensures var m := Apply(b, op).messages[id];
            m.token == Touch(id, b.messages[id], op).token || m.token == b.messages[id].token
    ensures !op.PublishSettled? ==> Apply(b, op).messages[id] in {b.messages[id], Touch(id, b.messages[id], op)}
  {
    if op.PublishSettled? {
      var r := Resolve(b, op.outboxKey, op.id, op.body);
      if r.Some? {
        ResolveTokens(b, op.outboxKey, op.id, op.body, id);
      }
    }
  }

  lemma ResolveTokens(b: Box, key: Key, new_: MessageId, body: Body, id: MessageId)
    requires Resolve(b, key, new_, body).Some? && id in b.messages
    ensures var after := Resolve(b, key, new_, body).value;
            id in after.messages && after.messages[id].token == b.messages[id].token
  {
  }

  /**
   A token that lost a message (by release, expiry and reclaim, delivery or
   retraction) never acts on it again: it cannot acknowledge, release or renew
   it at any later point of any run.
   */
  lemma {:induction false} LostTokenIsInert(b: Box, ops: seq<Op>, id: MessageId, token: Token, late: Op)
    requires id in b.messages && b.messages[id].token != Some(token)
    requires forall i :: 0 <= i < |ops| ==> !(ops[i].Claim? && ops[i].token == token)
    requires OnlyToken(late, token)
    ensures var end := Run(b, ops);
            id in end.messages && end.messages[id].token != Some(token)
            && Apply(end, late).messages[id] == end.messages[id]
    decreases |ops|
  {
    if ops == [] {
      TokenStaysGone(id, b.messages[id], late, token);
    } else {
      TokenStaysGone(id, b.messages[id], ops[0], token);
      ApplyTouches(b, ops[0], id);
      LostTokenIsInert(Apply(b, ops[0]), ops[1..], id, token, late);
    }
  }

  /** How often a run delivers a message. */
  ghost function Deliveries(b: Box, ops: seq<Op>, id: MessageId): nat
    decreases |ops|
  {
    if ops == [] then 0
    else
      var after := Apply(b, ops[0]);
      Deliveries(after, ops[1..], id)
      + if id in b.messages && id in after.messages && b.messages[id].status != Delivered && after.messages[id].status == Delivered
        then 1 else 0
  }

  lemma {:induction false} DeliveredAtMostOnce(b: Box, ops: seq<Op>, id: MessageId)
    requires BoxOk(b)
    ensures Deliveries(b, ops, id) <= 1
    ensures id in b.messages && Final(b.messages[id]) ==> Deliveries(b, ops, id) == 0
    decreases |ops|
  {
    if ops != [] {
      OpKeeps(b, ops[0]);
      DeliveredAtMostOnce(Apply(b, ops[0]), ops[1..], id);
    }
  }

  // ----- wakeups

  /** A pending trigger for the recipient, as the wakeup queries see it. */
  predicate Triggers(m: Message, recipient: nat, suppressed: set<Child>) {
    m.body.recipient == Some(recipient) && m.body.trigger && m.status == Pending && !Suppressed(m, suppressed)
  }

  /** `has_triggering`: some trigger lies beyond the watermark. */
  ghost predicate HasTriggering(b: Box, recipient: nat, after: nat, suppressed: set<Child>) {
    exists id :: id in b.messages && Triggers(b.messages[id], recipient, suppressed) && b.messages[id].sequence > after
  }

  /** A message that may still wake its recipient: pending, claimed or suppressed, beyond the watermark. */
  ghost predicate Outstanding(b: Box, recipient: nat, after: nat) {
    exists id :: id in b.messages && b.messages[id].body.recipient == Some(recipient) && b.messages[id].body.trigger
                 && !Final(b.messages[id]) && b.messages[id].sequence > after
  }

  lemma StillOutstanding(b: Box, end: Box, id: MessageId, recipient: nat, after: nat, suppressed: set<Child>)
    requires Evolves(b, end) && id in b.messages
    requires Triggers(end.messages[id], recipient, suppressed) && end.messages[id].sequence > after
    ensures Outstanding(b, recipient, after)
  {
    assert RowEvolves(b.messages[id], end.messages[id]);
    assert !Final(b.messages[id]) && b.messages[id].sequence > after;
  }

  /** Without an outstanding message, only something published later exceeds a recorded watermark. */
  lemma WatermarkHolds(b: Box, ops: seq<Op>, recipient: nat, after: nat, suppressed: set<Child>)
    requires BoxOk(b) && !Outstanding(b, recipient, after)
    requires HasTriggering(Run(b, ops), recipient, after, suppressed)
    ensures exists id :: id in Run(b, ops).messages && id !in b.messages
                         && Triggers(Run(b, ops).messages[id], recipient, suppressed)
  {
    RunKeeps(b, ops);
    var end := Run(b, ops);
    var id :| id in end.messages && Triggers(end.messages[id], recipient, suppressed) && end.messages[id].sequence > after;
    if id in b.messages {
      StillOutstanding(b, end, id, recipient, after, suppressed);
    }
  }

  /** And with one, the mere passing of time can: the condition is exact. */
  lemma WatermarkCanBreak(b: Box, recipient: nat, after: nat) returns (now: int)
    requires BoxOk(b) && Outstanding(b, recipient, after)
    ensures HasTriggering(Run(b, [Expire(now)]), recipient, after, {})
  {
    var id :| id in b.messages && b.messages[id].body.recipient == Some(recipient) && b.messages[id].body.trigger
              && !Final(b.messages[id]) && b.messages[id].sequence > after;
    var m := b.messages[id];
    now := if m.expires.Some? then m.expires.value else 0;
    assert [Expire(now)][1..] == [];
    var end := Apply(b, Expire(now));
    assert Run(b, [Expire(now)]) == end;
    assert Triggers(end.messages[id], recipient, {}) && end.messages[id].sequence > after;
  }

  /** No message arrives during these operations. */
  predicate NoArrival(ops: seq<Op>) {
    forall i :: 0 <= i < |ops| ==> !ops[i].Publish? && !ops[i].PublishSettled?
  }

  lemma {:induction false} NoNewRows(b: Box, ops: seq<Op>)
    requires NoArrival(ops)
    ensures Run(b, ops).messages.Keys == b.messages.Keys
    decreases |ops|
  {
    if ops != [] {
      assert !ops[0].Publish? && !ops[0].PublishSettled?;
      assert Apply(b, ops[0]).messages.Keys == b.messages.Keys;
      NoNewRows(Apply(b, ops[0]), ops[1..]);
    }
  }

  /** No operation but a publish makes the recipient look woken beyond the watermark. */
  ghost predicate Quiet(b: Box, recipient: nat, after: nat) {
    forall ops | NoArrival(ops) :: !HasTriggering(Run(b, ops), recipient, after, {})
  }

  /** A recorded watermark is reliable exactly when nothing outstanding lies beyond it. */
  lemma WatermarkExact(b: Box, recipient: nat, after: nat)
    requires BoxOk(b)
    ensures Quiet(b, recipient, after) <==> !Outstanding(b, recipient, after)
  {
    if Outstanding(b, recipient, after) {
      var now := WatermarkCanBreak(b, recipient, after);
      assert NoArrival([Expire(now)]);
    } else {
      forall ops | NoArrival(ops) ensures !HasTriggering(Run(b, ops), recipient, after, {}) {
        NoNewRows(b, ops);
        if HasTriggering(Run(b, ops), recipient, after, {}) {
          WatermarkHolds(b, ops, recipient, after, {});
        }
      }
    }
  }

  /** A new trigger exceeds every watermark recorded before it. */
  lemma PublishWakes(b: Box, id: MessageId, key: Option<Key>, body: Body, recipient: nat, after: nat)
    requires BoxOk(b) && after <= b.value && InsertFits(b, id, key)
    requires body.recipient == Some(recipient) && body.trigger && body.child.None?
    ensures forall suppressed :: HasTriggering(Apply(b, Publish(id, key, body)), recipient, after, suppressed)
  {
    var end := Apply(b, Publish(id, key, body));
    forall suppressed ensures HasTriggering(end, recipient, after, suppressed) {
      assert Triggers(end.messages[id], recipient, suppressed) && end.messages[id].sequence > after;
    }
  }

  // ----- settled results

  predicate Keyed(b: Box, id: MessageId, key: Key) {
    id in b.messages && b.messages[id].key == Some(key)
  }

  /** However often it is retried, a settled result reaches the mailbox as exactly one message once its intent is delivered. */
  lemma SettledOnce(ops: seq<Op>, key: Key)
    requires var b := Run(EMPTY, ops); key in b.outbox && b.outbox[key].status == OutDelivered
    ensures var b := Run(EMPTY, ops);
            (exists id :: Keyed(b, id, key)) && forall i, j :: Keyed(b, i, key) && Keyed(b, j, key) ==> i == j
  {
    RunKeeps(EMPTY, ops);
    var b := Run(EMPTY, ops);
    assert KeyTaken(b.messages, key);
    var id :| id in b.messages && b.messages[id].key == Some(key);
    assert Keyed(b, id, key);
  }
}
