/** What a holder of a lease can rely on while other commands run: its message stays unless
    taken out, its lease id is never given to another message, and fresh ids are fresh. */
module Custody {
  import opened Bytes
  import opened Store
  import opened Commands
  import opened Handlers
  import opened Journal
  import opened Steps
  import opened Safety
  import M = Moves

  /** A lease id handed out before never names another message. */
  ghost predicate LeaseFrame(q: Queue, q': Queue) {
    && q.nextLease <= q'.nextLease
    && forall l :: l in q'.leases && l < q.nextLease ==> l in q.leases && q'.leases[l].key == q.leases[l].key
  }

  lemma MoveFramesLeases(q: Queue, mv: M.Move)
    requires M.Enabled(q, mv)
    ensures LeaseFrame(q, M.Play(q, mv))
  {
  }

  lemma {:induction false} RunFramesLeases(q: Queue, mvs: seq<M.Move>, q': Queue)
    requires Runs(q, mvs, q')
    ensures LeaseFrame(q, q')
    decreases |mvs|
  {
    hide M.Play;
    hide M.Enabled;
    if mvs != [] {
      MoveFramesLeases(q, mvs[0]);
      RunFramesLeases(M.Play(q, mvs[0]), mvs[1..], q');
    }
  }

  lemma StepFramesLeases(db: Db, c: Command)
    requires M.Inv(db.q) && Allowed(c)
    ensures LeaseFrame(db.q, Step(db, c).b.q)
  {
    hide M.Inv;
    hide ApplyRedrive;
    hide LeaseFrame;
    if c.Redrive? {
      var mvs := RedriveRuns(db, c.group, c.id, c.now);
      RunFramesLeases(db.q, mvs, Step(db, c).b.q);
    } else {
      var mvs := StepRuns(db, c);
      RunFramesLeases(db.q, mvs, Step(db, c).b.q);
    }
  }

  /** A message no one takes out stays, with its content. */
  lemma Survives(db: Db, c: Command, k: MsgKey)
    requires M.Inv(db.q) && Allowed(c) && k in db.q.messages && !Takes(db, c, k)
    ensures k in Step(db, c).b.q.messages && SameContent(Step(db, c).b.q.messages[k], db.q.messages[k])
  {
    LiveIsKnown(db.q, k);
    if c.Redrive? {
      RedriveExact(db, c.group, c.id, c.now);
      RedriveStep(db, c);
      hide *;
      if IsDead(db.q, MsgKey(c.group, c.id)) {
        var d: DlqKey :| d.key == MsgKey(c.group, c.id)
            && Redrove(db, Step(db, c).b, d, LoadMeta(db.q, c.group).nextSeq, c.now);
        RedroveLeaves(db, Step(db, c).b, d, LoadMeta(db.q, c.group).nextSeq, c.now, k);
      }
      SameIsSame(db.q.messages[k]);
    } else {
      CommandExact(db, c);
      hide M.Inv;
      hide Step;
      hide Removal;
      hide M.Known;
    }
  }

  lemma RedroveLeaves(db: Db, b: Db, d: DlqKey, n: nat, now: nat, k: MsgKey)
    requires Redrove(db, b, d, n, now) && k in db.q.messages && M.Known(db.q, k)
    ensures k in b.q.messages && b.q.messages[k] == db.q.messages[k]
  {
    hide M.Known;
  }

  lemma SameIsSame(m: Message)
    ensures SameContent(m, m)
  {
  }

  lemma RedriveStep(db: Db, c: Command)
    requires c.Redrive?
    ensures Step(db, c) == ApplyRedrive(db, db, c.group, c.id, c.now)
  {
    hide ApplyRedrive;
  }

  /** Ids once handed out stay handed out. */
  lemma StaysKnown(db: Db, c: Command, k: MsgKey)
    requires M.Inv(db.q) && Allowed(c) && M.Known(db.q, k)
    ensures M.Known(Step(db, c).b.q, k)
  {
    if c.Redrive? {
      RedriveExact(db, c.group, c.id, c.now);
      RedriveStep(db, c);
      InvKeys(db.q);
      hide M.Known;
      hide M.KeysOk;
      hide Redrove;
      hide M.Inv;
      hide Step;
      hide ApplyRedrive;
      hide IsDead;
      if IsDead(db.q, MsgKey(c.group, c.id)) {
        var d: DlqKey :| d.key == MsgKey(c.group, c.id)
            && Redrove(db, Step(db, c).b, d, LoadMeta(db.q, c.group).nextSeq, c.now);
        RedroveKnown(db, Step(db, c).b, d, LoadMeta(db.q, c.group).nextSeq, c.now, k);
      }
    } else {
      CommandExact(db, c);
      hide M.Inv;
      hide Step;
      hide Removal;
    }
  }

  /** The id the committed store would hand out next in a group. */
  function NextKey(q: Queue, g: Group): MsgKey {
    MsgKey(g, LoadMeta(q, g).nextSeq)
  }

  /** A dispatched task as it enters the queue: ready at once, with no limit, delay, lifetime,
      headers or tokens of its own. */
  predicate IsTask(m: Message, k: MsgKey, payload: Payload) {
    m == Message(k, payload, map[], 0, 0, 0, 0, m.enqueued, Ready, 0, 0, false, None)
  }

  lemma NextIsFresh(q: Queue, g: Group)
    ensures !M.Known(q, NextKey(q, g))
  {
  }

  /** A granted lease: a new id on a live message of the group asked for. */
  lemma LeaseGrants(db: Db, c: Command)
    requires M.Inv(db.q) && c.LeaseNext? && Step(db, c).res.LeaseGranted?
    ensures var r, b := Step(db, c).res, Step(db, c).b;
            && r.lease == db.q.nextLease && r.lease < b.q.nextLease
            && r.msg.key.group == c.group && r.msg.key in db.q.messages
            && r.msg.payload == db.q.messages[r.msg.key].payload
            && r.lease in b.q.leases && b.q.leases[r.lease].key == r.msg.key
  {
    var id := HeadReady(db.q, c.group);
    ReadyCountFindsHead(db.q, c.group);
    hide HeadReady;
    if id.Some? { LiveIsKnown(db.q, MsgKey(c.group, id.value)); }
    hide M.Inv;
  }

  /** An ack takes out the message of its lease, and nothing else. */
  lemma AckTakes(db: Db, l: nat, k: MsgKey)
    ensures Takes(db, Ack(l), k) <==> l in db.q.leases && db.q.leases[l].key == k
  {
  }

  lemma AckAllowed(l: nat)
    ensures Allowed(Ack(l))
  {
  }

  /** A dead letter carries the payload of the message it replaces. */
  ghost predicate LetterIsOf(q: Queue, removal: Option<M.Move>) {
    match removal
    case Some(Bury(key, letter)) =>
      key in q.messages && letter.original.key == key && letter.original.payload == q.messages[key].payload
    case _ => true
  }

  lemma NackLetterIsOf(q: Queue, l: nat, mode: NackMode, meta: map<string, string>, now: nat)
    requires M.Inv(q)
    ensures LetterIsOf(q, NackRemoval(q, l, mode, meta, now))
  {
    hide M.Inv;
    hide M.Known;
    if Holds(q, l) { LiveIsKnown(q, q.leases[l].key); }
  }

  lemma FireLetterIsOf(q: Queue, ref: Ref, fireAt: nat)
    requires M.Inv(q)
    ensures LetterIsOf(q, FireRemoval(q, ref, fireAt))
  {
    hide M.Inv;
    hide M.Known;
    if ref.LeaseMaxLife? && Holds(q, ref.lease) {
      LiveIsKnown(q, q.leases[ref.lease].key);
    } else if ref.MsgExpiry? {
      LiveIsKnown(q, ref.key);
    }
  }

  lemma BuriedLetter(db: Db, c: Command)
    requires M.Inv(db.q)
    ensures LetterIsOf(db.q, Removal(db, c))
  {
    match c
    case Nack(l, mode, _, meta, now) => NackLetterIsOf(db.q, l, mode, meta, now);
    case Complete(hash, _, meta, _, now) =>
        if hash in db.tokens { NackLetterIsOf(db.q, db.tokens[hash], Retry, meta, now); }
    case Fire(t, fireAt) => FireLetterIsOf(db.q, t.ref, fireAt);
    case _ =>
    hide M.Inv;
    hide NackRemoval;
    hide FireRemoval;
  }
}
