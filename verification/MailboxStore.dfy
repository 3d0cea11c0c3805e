/**
 The mailbox store objects: several stores, each with its own owner identity,
 over one shared database whose rows they update in place.
 */
module MailboxStores {
  import opened Common
  import opened Mailbox

  class MailboxDatabase {
    var messages: map<MessageId, Message>
    var value: nat
    var outbox: map<Key, OutboxRow>

    constructor ()
      ensures Contents() == EMPTY
    {
      messages, value, outbox := map[], 0, map[];
    }

    function Contents(): (b: Box)
      reads this
    {
      Box(messages, value, outbox)
    }
  }

  /** The live claims of `owner` among the presented pairs: what an acknowledge hits. */
  function Hits(messages: map<MessageId, Message>, owner: Owner, claims: set<(MessageId, Token)>, now: int): set<MessageId> {
    set id | id in messages && Live(messages[id], owner, now) && (id, messages[id].token.value) in claims
  }

  /** The live claims of `owner` under any of the tokens. */
  function Batch(messages: map<MessageId, Message>, owner: Owner, tokens: set<Token>, now: int): set<MessageId> {
    set id | id in messages && Live(messages[id], owner, now) && messages[id].token.value in tokens
  }

  predicate Held(messages: map<MessageId, Message>, id: MessageId, owner: Owner, token: Token, now: int) {
    id in messages && Live(messages[id], owner, now) && messages[id].token.value == token
  }

  function AsSet(claims: seq<(MessageId, Token)>): set<(MessageId, Token)> {
    set c | c in claims
  }

  lemma AsSetLast(claims: seq<(MessageId, Token)>, i: nat)
    requires i < |claims|
    ensures AsSet(claims[..i + 1]) == AsSet(claims[..i]) + {claims[i]}
  {
    assert claims[..i + 1] == claims[..i] + [claims[i]];
  }

  /** Acknowledging one more pair adds that message exactly when the pair is its live claim. */
  lemma OneMoreClaim(before: map<MessageId, Message>, owner: Owner, claims: set<(MessageId, Token)>, c: (MessageId, Token), now: int)
    ensures var current := Touched(before, Acknowledge(owner, claims, now));
            var hit := Held(current, c.0, owner, c.1, now);
            Touched(before, Acknowledge(owner, claims + {c}, now))
              == (if hit then current[c.0 := Acknowledged(current[c.0])] else current)
            && |Hits(before, owner, claims + {c}, now)| == |Hits(before, owner, claims, now)| + if hit then 1 else 0
  {
    OneMoreHit(before, owner, claims, c, now);
    OneMoreTouch(before, owner, claims, c, now);
  }

  lemma OneMoreTouch(before: map<MessageId, Message>, owner: Owner, claims: set<(MessageId, Token)>, c: (MessageId, Token), now: int)
    ensures var current := Touched(before, Acknowledge(owner, claims, now));
            Touched(before, Acknowledge(owner, claims + {c}, now))
              == (if Held(current, c.0, owner, c.1, now) then current[c.0 := Acknowledged(current[c.0])] else current)
  {
    var current := Touched(before, Acknowledge(owner, claims, now));
    var after := Touched(before, Acknowledge(owner, claims + {c}, now));
    var hit := Held(current, c.0, owner, c.1, now);
    forall id | id in before
      ensures after[id] == if hit && id == c.0 then Acknowledged(current[id]) else current[id]
    {
    }
  }

  lemma OneMoreHit(before: map<MessageId, Message>, owner: Owner, claims: set<(MessageId, Token)>, c: (MessageId, Token), now: int)
    ensures var hit := Held(Touched(before, Acknowledge(owner, claims, now)), c.0, owner, c.1, now);
            |Hits(before, owner, claims + {c}, now)| == |Hits(before, owner, claims, now)| + if hit then 1 else 0
  {
    var hit := Held(Touched(before, Acknowledge(owner, claims, now)), c.0, owner, c.1, now);
    var hits := Hits(before, owner, claims, now);
    assert hit <==> Held(before, c.0, owner, c.1, now) && c.0 !in hits;
    assert Hits(before, owner, claims + {c}, now) == hits + (if hit then {c.0} else {});
  }

  /** A claim under a fresh token takes exactly the pending or lapsed, addressed, unsuppressed messages. */
  lemma ClaimTakesExactly(b: Box, op: Op, id: MessageId)
    requires op.Claim? && id in b.messages && ClaimColumns(b.messages[id]) && b.messages[id].token != Some(op.token)
    ensures var m := b.messages[id];
            Apply(b, op).messages[id].token == Some(op.token) <==>
              (m.status == Pending || Expired(m, op.now)) && Addressed(m, op.recipient, op.thread) && !Suppressed(m, op.suppressed)
  {
  }

  class MailboxStore {
    const db: MailboxDatabase
    const owner: Owner

    constructor (db: MailboxDatabase, owner: Owner)
      ensures this.db == db && this.owner == owner
    {
      this.db, this.owner := db, owner;
    }

    /** INSERT OR IGNORE: an existing id or idempotency key leaves everything as it was. */
    method PublishMessage(id: MessageId, key: Option<Key>, body: Body) returns (added: bool)
      modifies db
      ensures db.Contents() == Apply(old(db.Contents()), Publish(id, key, body))
      ensures added <==> InsertFits(old(db.Contents()), id, key)
    {
      added := id !in db.messages && (key.None? || forall other :: other in db.messages ==> db.messages[other].key != key);
      assert added <==> InsertFits(db.Contents(), id, key);
      if added {
        db.value := db.value + 1;
        db.messages := db.messages[id := Message(body, key, db.value, Pending, None, None, None)];
      }
    }

    /** Expired claims are freed first; returns what the token now holds. */
    method ClaimMessages(recipient: Option<nat>, thread: nat, token: Token, lease: int, now: int, suppressed: set<Child>)
      returns (claimed: set<MessageId>)
      modifies db
      ensures db.Contents() == Apply(old(db.Contents()), Claim(owner, recipient, thread, token, lease, now, suppressed))
      ensures claimed == set id | id in db.messages && db.messages[id].holder == Some(owner) && db.messages[id].token == Some(token)
    {
      var freed := map id | id in db.messages :: Lapse(db.messages[id], now);
      var ids := set id | id in freed && freed[id].status == Pending && Addressed(freed[id], recipient, thread)
                          && !Suppressed(freed[id], suppressed);
      var taken := map id | id in freed ::
        if id in ids then freed[id].(status := Claimed, holder := Some(owner), token := Some(token), expires := Some(now + lease))
        else freed[id];
      assert taken == Touched(db.messages, Claim(owner, recipient, thread, token, lease, now, suppressed));
      db.messages := taken;
      claimed := set id | id in taken && taken[id].holder == Some(owner) && taken[id].token == Some(token);
    }

    /** One update per pair; counts the messages delivered, each once however often it is listed. */
    method AcknowledgeClaims(claims: seq<(MessageId, Token)>, now: int) returns (changed: nat)
      modifies db
      ensures db.Contents() == Apply(old(db.Contents()), Acknowledge(owner, AsSet(claims), now))
      ensures changed == |Hits(old(db.messages), owner, AsSet(claims), now)|
    {
      changed := 0;
      ghost var before, done := db.messages, {};
      var i := 0;
      assert Touched(before, Acknowledge(owner, {}, now)) == before;
      while i < |claims|
        invariant 0 <= i <= |claims| && db.value == old(db.value) && db.outbox == old(db.outbox)
        invariant done == AsSet(claims[..i])
        invariant db.messages == Touched(before, Acknowledge(owner, done, now))
        invariant changed == |Hits(before, owner, done, now)|
        modifies db
      {
        OneMoreClaim(before, owner, done, claims[i], now);
        AsSetLast(claims, i);
        var rowcount := AcknowledgeOne(claims[i].0, claims[i].1, now);
        changed := changed + rowcount;
        done := done + {claims[i]};
        i := i + 1;
      }
      assert claims[..i] == claims;
    }

    method AcknowledgeOne(id: MessageId, token: Token, now: int) returns (rowcount: nat)
      modifies db
      ensures db.value == old(db.value) && db.outbox == old(db.outbox)
      ensures rowcount == (if Held(old(db.messages), id, owner, token, now) then 1 else 0)
      ensures db.messages == (if rowcount == 1 then old(db.messages)[id := Acknowledged(old(db.messages)[id])] else old(db.messages))
    {
      rowcount := 0;
      if Held(db.messages, id, owner, token, now) {
        db.messages := db.messages[id := db.messages[id].(status := Delivered, token := None, expires := None)];
        rowcount := 1;
      }
    }

    method AcknowledgeClaimTokens(tokens: set<Token>, now: int) returns (changed: nat)
      modifies db
      ensures db.Contents() == Apply(old(db.Contents()), AcknowledgeTokens(owner, tokens, now))
      ensures changed == |Batch(old(db.messages), owner, tokens, now)|
    {
      var batch := Batch(db.messages, owner, tokens, now);
      db.messages := map id | id in db.messages ::
        if id in batch then db.messages[id].(status := Delivered, token := None, expires := None) else db.messages[id];
      changed := |batch|;
    }

    method ReleaseClaimTokens(tokens: set<Token>, now: int) returns (changed: nat)
      modifies db
      ensures db.Contents() == Apply(old(db.Contents()), ReleaseTokens(owner, tokens, now))
      ensures changed == |Batch(old(db.messages), owner, tokens, now)|
    {
      var batch := Batch(db.messages, owner, tokens, now);
      db.messages := map id | id in db.messages :: if id in batch then Freed(db.messages[id]) else db.messages[id];
      changed := |batch|;
    }

    /** Returns the presented tokens that still hold a live claim; exactly those are extended. */
    method RenewClaimTokens(tokens: set<Token>, lease: int, now: int) returns (live: set<Token>)
      modifies db
      ensures db.Contents() == Apply(old(db.Contents()), RenewTokens(owner, tokens, lease, now))
      ensures forall t :: t in live <==>
                t in tokens && exists id :: id in old(db.messages) && Live(old(db.messages[id]), owner, now)
                                            && old(db.messages[id]).token == Some(t)
    {
      live := set id | id in db.messages && Live(db.messages[id], owner, now) && db.messages[id].token.value in tokens
              :: db.messages[id].token.value;
      var liveNow := live;
      db.messages := map id | id in db.messages ::
        if Live(db.messages[id], owner, now) && db.messages[id].token.value in liveNow
        then db.messages[id].(expires := Some(now + lease)) else db.messages[id];
    }

    method RetractSettledMessages(thread: nat, child: Child)
      modifies db
      ensures db.Contents() == Apply(old(db.Contents()), RetractSettled(thread, child))
    {
      db.messages := map id | id in db.messages ::
        if db.messages[id].body.thread == thread && db.messages[id].body.child == Some(child)
           && db.messages[id].status in {Pending, Claimed}
        then db.messages[id].(status := Retracted, holder := None, token := None, expires := None)
        else db.messages[id];
    }

    method RecoverClaims(now: int)
      modifies db
      ensures db.Contents() == Apply(old(db.Contents()), Expire(now))
    {
      db.messages := map id | id in db.messages :: Lapse(db.messages[id], now);
    }

    /** The newest effective pending trigger, or 0; a wakeup is due beyond a watermark exactly when this exceeds it. */
    method MaxTriggeringSequence(recipient: nat, suppressed: set<Child>, now: int) returns (newest: nat)
      modifies db
      ensures db.Contents() == Apply(old(db.Contents()), Expire(now))
      ensures forall after: nat :: newest > after <==> HasTriggering(db.Contents(), recipient, after, suppressed)
    {
      RecoverClaims(now);
      newest := 0;
      var todo := db.messages.Keys;
      while todo != {}
        invariant todo <= db.messages.Keys && db.Contents() == Apply(old(db.Contents()), Expire(now))
        invariant forall id :: id in db.messages && id !in todo && Triggers(db.messages[id], recipient, suppressed) ==>
                                 db.messages[id].sequence <= newest
        invariant newest > 0 ==> exists id :: id in db.messages && Triggers(db.messages[id], recipient, suppressed)
                                              && db.messages[id].sequence == newest
        decreases |todo|
      {
        var id :| id in todo;
        todo := todo - {id};
        if Triggers(db.messages[id], recipient, suppressed) && db.messages[id].sequence > newest {
          newest := db.messages[id].sequence;
        }
      }
    }

    /** The recipients whose durable input still needs a wakeup. */
    method PendingTriggerRecipients(after: nat, suppressed: set<Child>, now: int) returns (recipients: set<nat>)
      modifies db
      ensures db.Contents() == Apply(old(db.Contents()), Expire(now))
      ensures forall r :: r in recipients <==> HasTriggering(db.Contents(), r, after, suppressed)
    {
      RecoverClaims(now);
      recipients := set id | id in db.messages && db.messages[id].body.recipient.Some? && db.messages[id].body.trigger
                             && db.messages[id].status == Pending && db.messages[id].sequence > after
                             && !Suppressed(db.messages[id], suppressed)
                    :: db.messages[id].body.recipient.value;
      forall r | HasTriggering(db.Contents(), r, after, suppressed) ensures r in recipients {
        var id :| id in db.messages && Triggers(db.messages[id], r, suppressed) && db.messages[id].sequence > after;
        assert db.messages[id].body.recipient.value == r;
      }
    }
  }
}
