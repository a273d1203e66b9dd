/** What a consumer can rely on over whole runs of the log: it is handed exactly what was
    published, not before its time, for as long as the lease says, and as often as the message's
    limit of attempts allows. */
module Deliveries {
  import opened Bytes
  import opened Store
  import opened Commands
  import opened Handlers
  import opened History
  import opened Lifecycle
  import C = Custody
  import F = Flight
  import R = Frames
  import M = Moves
  import S = Safety
  import T = Steps

  lemma AllowedPrefix(log: seq<Command>, n: nat)
    requires n <= |log| && S.AllAllowed(log)
    ensures M.Inv(DbAt(log, n).q)
  {
    hide M.Inv;
    S.ReachableInv(log[..n]);
  }

  // ----- Never back -----

  /** An id whose message is gone stays gone. */
  lemma NeverBack(db: Db, c: Command, k: MsgKey)
    requires M.Inv(db.q) && T.Allowed(c) && M.Known(db.q, k)
    ensures M.Known(Step(db, c).b.q, k) && (k in Step(db, c).b.q.messages ==> k in db.q.messages)
  {
    hide M.Inv;
    hide M.Known;
    hide Step;
    F.StepTurnover(db, c);
  }

  lemma {:induction false} StaysKnown(log: seq<Command>, i: nat, j: nat, k: MsgKey)
    requires i <= j <= |log| && S.AllAllowed(log) && M.Known(DbAt(log, i).q, k)
    ensures M.Known(DbAt(log, j).q, k)
    decreases j
  {
    hide Step;
    hide M.Known;
    hide M.Inv;
    hide T.Allowed;
    if i < j {
      StaysKnown(log, i, j - 1, k);
      AllowedPrefix(log, j - 1);
      DbAtNext(log, j - 1);
      NeverBack(DbAt(log, j - 1), log[j - 1], k);
    }
  }

  /** A message live at two points was live at every point between. */
  lemma {:induction false} LiveBetween(log: seq<Command>, i: nat, n: nat, j: nat, k: MsgKey)
    requires i <= n <= j <= |log| && S.AllAllowed(log) && M.Known(DbAt(log, i).q, k) && k in DbAt(log, j).q.messages
    ensures k in DbAt(log, n).q.messages
    decreases j
  {
    hide Step;
    hide M.Known;
    hide M.Inv;
    hide T.Allowed;
    if n < j {
      StaysKnown(log, i, j - 1, k);
      AllowedPrefix(log, j - 1);
      DbAtNext(log, j - 1);
      NeverBack(DbAt(log, j - 1), log[j - 1], k);
      LiveBetween(log, i, n, j - 1, k);
    }
  }

  lemma LiveStep(log: seq<Command>, i: nat, n: nat, k: MsgKey)
    requires i <= n < |log| && S.AllAllowed(log) && M.Known(DbAt(log, i).q, k) && k in DbAt(log, n + 1).q.messages
    ensures k in DbAt(log, n).q.messages
    ensures Some(DbAt(log, n + 1).q.messages[k]) ==
              AfterFate(DbAt(log, n).q.messages[k], FateOf(DbAt(log, n), log[n], k))
  {
    hide Step;
    hide M.Known;
    hide M.Inv;
    hide AfterFate;
    hide FateOf;
    LiveBetween(log, i, n, n + 1, k);
    AllowedPrefix(log, n);
    DbAtNext(log, n);
    assert T.Allowed(log[n]);
    hide T.Allowed;
    MessageStep(DbAt(log, n), log[n], k);
  }

  // ----- Content -----

  /** Whatever becomes of a message while it lives, it is what it was given, and under its limit. */
  lemma FateKeeps(m: Message, f: Fate)
    ensures var r := AfterFate(m, f);
            r.Some? ==> r.value == m.(attempt := r.value.attempt, state := r.value.state, epoch := r.value.epoch,
                                      curLease := r.value.curLease)
  {
  }

  /** What a message was given when it came. */
  predicate SameGift(m: Message, m': Message) {
    m' == m.(attempt := m'.attempt, state := m'.state, epoch := m'.epoch, curLease := m'.curLease)
  }

  lemma {:induction false} KeepsGift(log: seq<Command>, i: nat, j: nat, k: MsgKey)
    requires i <= j <= |log| && S.AllAllowed(log) && k in DbAt(log, i).q.messages && k in DbAt(log, j).q.messages
    ensures SameGift(DbAt(log, i).q.messages[k], DbAt(log, j).q.messages[k])
    decreases j
  {
    hide M.Inv;
    hide M.Known;
    hide Step;
    hide T.Allowed;
    hide AfterFate;
    hide FateOf;
    if i < j {
      KnownAt(log, i, k);
      LiveStep(log, i, j - 1, k);
      KeepsGift(log, i, j - 1, k);
      FateKeeps(DbAt(log, j - 1).q.messages[k], FateOf(DbAt(log, j - 1), log[j - 1], k));
    }
  }

  lemma KnownAt(log: seq<Command>, i: nat, k: MsgKey)
    requires i <= |log| && S.AllAllowed(log) && k in DbAt(log, i).q.messages
    ensures M.Known(DbAt(log, i).q, k)
  {
    hide M.Inv;
    hide M.Known;
    AllowedPrefix(log, i);
    T.LiveIsKnown(DbAt(log, i).q, k);
  }

  /** A message as it was published, whatever has happened to it since. */
  predicate Carries(m: Message, c: PublishCmd) {
    && m.payload == c.payload && m.headers == c.headers && m.maxAttempts == c.maxAttempts && m.enqueued == c.now
    && m.notBefore == c.notBefore && m.issueToken == c.issueToken && m.externalToken == c.externalToken
  }

  /** The j-th command leases the message. */
  ghost predicate HandsOut(log: seq<Command>, j: nat, k: MsgKey)
    requires j < |log|
  {
    var res := Step(DbAt(log, j), log[j]).res;
    log[j].LeaseNext? && res.LeaseGranted? && res.msg.key == k
  }

  /** The i-th command published the message under this key. */
  ghost predicate Publishes(log: seq<Command>, i: nat, k: MsgKey)
    requires i < |log|
  {
    log[i].Publish? && k.group == log[i].p.group && Step(DbAt(log, i), log[i]).res == Published(k.id, false)
  }

  lemma PublishedNew(db: Db, c: PublishCmd, k: MsgKey)
    requires k.group == c.group && Step(db, Publish(c)).res == Published(k.id, false)
    ensures var q := Step(db, Publish(c)).b.q;
            k.id == LoadMeta(db.q, c.group).nextSeq && k in q.messages && IsPublished(q.messages[k], c, k.id)
  {
    hide CheckDedup;
    PublishStores(db, c);
    hide Step;
    hide IsPublished;
  }

  /** Whenever a published message is handed out, it is what was published: payload, headers
      and all, until the deadline asked for, and under a lease id of its own. */
  lemma PublishedIsDelivered(log: seq<Command>, i: nat, j: nat, k: MsgKey)
    requires i < j < |log| && S.AllAllowed(log) && Publishes(log, i, k) && HandsOut(log, j, k)
    ensures var res := Step(DbAt(log, j), log[j]).res;
            && Carries(res.msg, log[i].p) && res.deadline == log[j].deadline && res.msg.state == Leased
            && res.lease == res.msg.curLease && res.lease !in DbAt(log, j).q.leases
  {
    hide Step;
    hide M.Inv;
    AllowedPrefix(log, j);
    GrantTold(DbAt(log, j), log[j]);
    PublishedNew(DbAt(log, i), log[i].p, k);
    DbAtNext(log, i);
    KeepsGift(log, i + 1, j, k);
    FreshLease(DbAt(log, j).q);
    hide Oldest;
  }

  lemma FreshLease(q: Queue)
    requires M.Inv(q)
    ensures q.nextLease !in q.leases
  {
  }

  // ----- Not before its time -----

  /** The command ripens the delayed message: its ready-at row fires. */
  predicate FiresFor(c: Command, k: MsgKey) {
    c.Fire? && c.timer.ref == ReadyAt(k)
  }

  /** A delayed message waits until its row fires: until then it is not handed out. */
  lemma {:induction false} DelayHolds(log: seq<Command>, i: nat, j: nat, k: MsgKey)
    requires i <= j <= |log| && S.AllAllowed(log) && k in DbAt(log, i).q.messages && k in DbAt(log, j).q.messages
    requires DbAt(log, i).q.messages[k].state == Delayed
    requires forall n :: i <= n < j ==> !FiresFor(log[n], k)
    ensures DbAt(log, j).q.messages[k].state == Delayed && (j < |log| ==> !HandsOut(log, j, k))
    decreases j
  {
    hide Step;
    hide M.Inv;
    hide M.Known;
    if i < j {
      KnownAt(log, i, k);
      LiveStep(log, i, j - 1, k);
      DelayHolds(log, i, j - 1, k);
      AllowedPrefix(log, j - 1);
      DelayedFate(DbAt(log, j - 1), log[j - 1], k);
      hide FateOf;
    }
    AllowedPrefix(log, j);
    if j < |log| && log[j].LeaseNext? { GrantTold(DbAt(log, j), log[j]); }
  }

  lemma DelayedFate(db: Db, c: Command, k: MsgKey)
    requires M.Inv(db.q) && k in db.q.messages && db.q.messages[k].state == Delayed && !FiresFor(c, k)
    ensures FateOf(db, c, k).Stays? || FateOf(db, c, k).Leaves?
  {
    hide M.Inv;
    hide RetryFate;
    hide NackFate;
    hide Oldest;
    forall l ensures !Names(db.q, l, k) {
      if l in db.q.leases { T.HeldTarget(db.q, l); }
    }
    assert !Oldest(db.q, k) by { NotOldest(db.q, k); }
  }

  lemma NotOldest(q: Queue, k: MsgKey)
    requires k in q.messages && q.messages[k].state == Delayed
    ensures !Oldest(q, k)
  {
  }

  // ----- Attempts -----

  /** The command is a retry nack of the lease on the message, by its id or by its token. */
  predicate Retries(db: Db, c: Command, k: MsgKey) {
    || (c.Nack? && c.mode == Retry && Names(db.q, c.lease, k))
    || (c.Complete? && !c.success && c.hash in db.tokens && Names(db.q, db.tokens[c.hash], k))
  }

  /** How many of the commands from the i-th to before the j-th retry the message. */
  ghost function RetryCount(log: seq<Command>, i: nat, j: nat, k: MsgKey): nat
    requires i <= j <= |log|
    decreases j
  {
    if i == j then 0 else RetryCount(log, i, j - 1, k) + if Retries(DbAt(log, j - 1), log[j - 1], k) then 1 else 0
  }

  /** A retry takes one attempt, nothing else does, and the one that reaches the limit is the
      message's last. */
  lemma RetryFates(db: Db, c: Command, k: MsgKey)
    requires k in db.q.messages
    ensures var m, r := db.q.messages[k], AfterFate(db.q.messages[k], FateOf(db, c, k));
            && (r.Some? ==> r.value.attempt == m.attempt + if Retries(db, c, k) then 1 else 0)
            && (Retries(db, c, k) ==> (r.Some? <==> m.attempt + 1 < (if m.maxAttempts == 0 then 3 else m.maxAttempts)))
  {
  }

  /** While a message lives, its attempts are the retries it has had. */
  lemma {:induction false} AttemptsAreRetries(log: seq<Command>, i: nat, j: nat, k: MsgKey)
    requires i <= j <= |log| && S.AllAllowed(log) && k in DbAt(log, i).q.messages && k in DbAt(log, j).q.messages
    ensures DbAt(log, j).q.messages[k].attempt == DbAt(log, i).q.messages[k].attempt + RetryCount(log, i, j, k)
    decreases j
  {
    hide M.Inv;
    hide M.Known;
    hide Step;
    hide T.Allowed;
    hide AfterFate;
    hide FateOf;
    hide Retries;
    if i < j {
      KnownAt(log, i, k);
      LiveStep(log, i, j - 1, k);
      AttemptsAreRetries(log, i, j - 1, k);
      RetryFates(DbAt(log, j - 1), log[j - 1], k);
    }
  }

  /** The i-th command brought the message into being. */
  ghost predicate Born(log: seq<Command>, i: nat, k: MsgKey)
    requires i < |log|
  {
    !M.Known(DbAt(log, i).q, k) && k in DbAt(log, i + 1).q.messages
  }

  /** The letter a message buried by its last retry leaves. */
  ghost predicate Spent(q: Queue, k: MsgKey, m: Message, n: nat, stamp: nat) {
    && DlqKey(k, stamp) in q.dlq
    && var d := q.dlq[DlqKey(k, stamp)];
       d.original == m.(attempt := n) && d.finalAttempt == n && d.reason == "max_attempts" && d.deadAt == stamp
  }

  /** A message with a limit of n attempts outlives its first n - 1 retries, and the n-th buries
      it: as long as it lives it has had fewer than n, and a retry takes it away exactly when
      it is the n-th, leaving it among the dead letters with all n attempts. */
  lemma NthRetryBuries(log: seq<Command>, i: nat, p: nat, k: MsgKey)
    requires i < p < |log| && S.AllAllowed(log) && Born(log, i, k) && k in DbAt(log, p).q.messages
    requires Retries(DbAt(log, p), log[p], k)
    ensures var m := DbAt(log, p).q.messages[k];
            var n := if m.maxAttempts == 0 then 3 else m.maxAttempts;
            && RetryCount(log, i + 1, p, k) < n
            && (k in DbAt(log, p + 1).q.messages <==> RetryCount(log, i + 1, p, k) + 1 < n)
            && (k !in DbAt(log, p + 1).q.messages ==> Spent(DbAt(log, p + 1).q, k, m, n, log[p].now))
  {
    hide Step;
    hide M.Inv;
    hide M.Known;
    AllowedPrefix(log, i);
    AllowedPrefix(log, p);
    DbAtNext(log, i);
    DbAtNext(log, p);
    assert T.Allowed(log[i]) && T.Allowed(log[p]);
    hide T.Allowed;
    hide Spent;
    NewStep(DbAt(log, i), log[i], k);
    AttemptsAreRetries(log, i + 1, p, k);
    MessageStep(DbAt(log, p), log[p], k);
    RetryFates(DbAt(log, p), log[p], k);
    BelowLimit(log, i + 1, p, k);
    if k !in DbAt(log, p + 1).q.messages { LastRetry(DbAt(log, p), log[p], k); }
    hide FateOf;
    hide AfterFate;
    hide Retries;
  }

  /** A command that leaves a message below its limit leaves it alive below it. */
  lemma LimitHolds(db: Db, c: Command, k: MsgKey, m': Message)
    requires k in db.q.messages && db.q.messages[k].attempt < Limit(db.q.messages[k])
    requires AfterFate(db.q.messages[k], FateOf(db, c, k)) == Some(m')
    ensures m'.attempt < Limit(m')
  {
    RetryFates(db, c, k);
    FateKeeps(db.q.messages[k], FateOf(db, c, k));
    hide AfterFate;
    hide FateOf;
  }

  /** A live message is always below its limit. */
  lemma {:induction false} BelowLimit(log: seq<Command>, i: nat, j: nat, k: MsgKey)
    requires i <= j <= |log| && S.AllAllowed(log) && k in DbAt(log, i).q.messages && k in DbAt(log, j).q.messages
    requires DbAt(log, i).q.messages[k].attempt == 0
    ensures DbAt(log, j).q.messages[k].attempt < Limit(DbAt(log, j).q.messages[k])
    decreases j
  {
    hide M.Inv;
    hide M.Known;
    hide Step;
    hide T.Allowed;
    hide AfterFate;
    hide FateOf;
    if i < j {
      KnownAt(log, i, k);
      LiveStep(log, i, j - 1, k);
      BelowLimit(log, i, j - 1, k);
      LimitHolds(DbAt(log, j - 1), log[j - 1], k, DbAt(log, j).q.messages[k]);
    }
  }

  lemma LastRetry(db: Db, c: Command, k: MsgKey)
    requires M.Inv(db.q) && T.Allowed(c) && k in db.q.messages && Retries(db, c, k)
    requires db.q.messages[k].attempt + 1 == Limit(db.q.messages[k])
    ensures Spent(Step(db, c).b.q, k, db.q.messages[k], Limit(db.q.messages[k]), c.now)
  {
    hide M.Inv;
    hide T.Allowed;
    var l := if c.Nack? then c.lease else db.tokens[c.hash];
    T.HeldTarget(db.q, l);
    RetryRemoval(db, c, k);
    S.CommandExact(db, c);
    hide Step;
    hide T.Removal;
  }

  lemma RetryRemoval(db: Db, c: Command, k: MsgKey)
    requires k in db.q.messages && Retries(db, c, k) && db.q.messages[k].attempt + 1 == Limit(db.q.messages[k])
    requires Holds(db.q, if c.Nack? then c.lease else db.tokens[c.hash])
    ensures var m := db.q.messages[k].(attempt := Limit(db.q.messages[k]));
            T.Removal(db, c) == Some(M.Bury(k, DeadLetter(m, m.attempt, "max_attempts", c.meta, c.now)))
  {
  }

  // ----- The lease -----

  /** A lease row after a command that leaves it: extended, given a token, or as it was. */
  function RowAfter(row: Lease, c: Command, l: nat): Lease {
    if c.ExtendLease? && c.lease == l then
      row.(deadline := c.deadline, extendCount := row.extendCount + 1, epoch := (row.epoch + 1) % 0x1_0000_0000)
    else if c.IssueToken? && c.lease == l then row.(token := c.hash)
    else row
  }

  lemma ExtendRow(db: Db, c: Command, l: nat)
    requires M.Inv(db.q) && l in db.q.leases && (c.ExtendLease? || c.IssueToken?)
    ensures var leases := Step(db, c).b.q.leases; l in leases && leases[l] == RowAfter(db.q.leases[l], c, l)
  {
    hide M.Inv;
    if c.lease in db.q.leases { T.HeldTarget(db.q, c.lease); }
  }

  lemma ControlRow(db: Db, c: Command, l: nat)
    requires l in db.q.leases && (c.GroupConfig? || c.Lifecycle? || c.Singleton? || c.Unknown?)
    ensures Step(db, c).b.q.leases == db.q.leases
  {
    hide ApplySingleton;
    hide ApplyLifecycle;
    if c.Lifecycle? { F.LifecycleLeases(db, c.group, c.op); }
    if c.Singleton? { SingletonKeys(db, c); }
  }

  lemma GrantedRow(db: Db, c: Command, l: nat)
    requires M.Inv(db.q) && c.LeaseNext? && l in db.q.leases
    ensures var leases := Step(db, c).b.q.leases; l in leases && leases[l] == db.q.leases[l]
  {
    hide M.Inv;
    hide HeadReady;
    FreshLease(db.q);
  }

  /** A lease that stands before and after a command has the row the command leaves it. */
  lemma RowStep(db: Db, c: Command, l: nat)
    requires M.Inv(db.q) && T.Allowed(c) && l in db.q.leases && l in Step(db, c).b.q.leases
    ensures Step(db, c).b.q.leases[l] == RowAfter(db.q.leases[l], c, l)
  {
    hide M.Inv;
    hide T.Allowed;
    hide Step;
    if c.Ack? || c.Nack? || c.Complete? || c.Fire? {
      F.EndingLeases(db, c);
      hide F.Ended;
    } else if c.Publish? || c.PublishBatch? || c.Redrive? {
      F.PublishLeases(db, c);
    } else if c.StartRun? || c.AppendEvents? || c.CompleteActivity? || c.SignalRun? || c.CancelRun? {
      F.EngineLeases(db, c);
    } else if c.LeaseNext? {
      GrantedRow(db, c, l);
    } else if c.ExtendLease? || c.IssueToken? {
      ExtendRow(db, c, l);
    } else {
      ControlRow(db, c, l);
    }
  }

  /** A lease id that is gone, or whose turn has not come, is only ever given to a new lease. */
  lemma NewLease(db: Db, c: Command, l: nat)
    requires M.Inv(db.q) && T.Allowed(c) && l !in db.q.leases && l < db.q.nextLease
    ensures l !in Step(db, c).b.q.leases && l < Step(db, c).b.q.nextLease
  {
    hide M.Inv;
    hide T.Allowed;
    hide Step;
    C.StepFramesLeases(db, c);
  }

  /** The i-th command granted the lease. */
  ghost predicate Grants(log: seq<Command>, i: nat, l: nat)
    requires i < |log|
  {
    var res := Step(DbAt(log, i), log[i]).res;
    log[i].LeaseNext? && res.LeaseGranted? && res.lease == l
  }

  /** The last deadline asked for the lease: by the command that granted it, or by the last
      extension since. */
  function DeadlineAsked(log: seq<Command>, i: nat, j: nat, l: nat): nat
    requires i < j <= |log| && log[i].LeaseNext?
    decreases j
  {
    if j == i + 1 then log[i].deadline
    else if log[j - 1].ExtendLease? && log[j - 1].lease == l then log[j - 1].deadline
    else DeadlineAsked(log, i, j - 1, l)
  }

  /** As long as a lease stands it is on the message it was granted on, for the consumer it was
      granted to, until the last deadline asked for, and its deadline row is armed there. */
  lemma {:induction false} DeadlineStands(log: seq<Command>, i: nat, j: nat, l: nat)
    requires i < j <= |log| && S.AllAllowed(log) && Grants(log, i, l) && l in DbAt(log, j).q.leases
    ensures var q, res := DbAt(log, j).q, Step(DbAt(log, i), log[i]).res;
            && q.leases[l].deadline == DeadlineAsked(log, i, j, l)
            && q.leases[l].key == res.msg.key && q.leases[l].consumer == log[i].consumer
            && Timer(DeadlineAsked(log, i, j, l), LeaseDeadline(l)) in q.timers
    decreases j
  {
    hide Step;
    hide M.Inv;
    hide T.Allowed;
    AllowedPrefix(log, j);
    AllowedPrefix(log, j - 1);
    DbAtNext(log, j - 1);
    DeadlineArmed(DbAt(log, j).q, l);
    if j == i + 1 {
      GrantedNow(DbAt(log, i), log[i]);
    } else {
      assert T.Allowed(log[j - 1]);
      GrantedBelow(log, i, j - 1, l);
      if l !in DbAt(log, j - 1).q.leases { NewLease(DbAt(log, j - 1), log[j - 1], l); }
      DeadlineStands(log, i, j - 1, l);
      RowStep(DbAt(log, j - 1), log[j - 1], l);
    }
  }

  lemma GrantedNow(db: Db, c: Command)
    requires M.Inv(db.q) && c.LeaseNext? && Step(db, c).res.LeaseGranted?
    ensures var res, q := Step(db, c).res, Step(db, c).b.q;
            && res.lease == db.q.nextLease < q.nextLease && res.lease in q.leases
            && q.leases[res.lease].deadline == c.deadline && q.leases[res.lease].consumer == c.consumer
            && q.leases[res.lease].key == res.msg.key
  {
    hide M.Inv;
    hide HeadReady;
    S.ReadyCountFindsHead(db.q, c.group);
    if HeadReady(db.q, c.group).Some? { T.LiveIsKnown(db.q, MsgKey(c.group, HeadReady(db.q, c.group).value)); }
    hide M.KeysOk;
    hide M.Known;
  }

  lemma DeadlineArmed(q: Queue, l: nat)
    requires M.Inv(q) && l in q.leases
    ensures Timer(q.leases[l].deadline, LeaseDeadline(l)) in q.timers
  {
  }

  lemma {:induction false} GrantedBelow(log: seq<Command>, i: nat, j: nat, l: nat)
    requires i < j <= |log| && S.AllAllowed(log) && Grants(log, i, l)
    ensures l < DbAt(log, j).q.nextLease
    decreases j
  {
    hide Step;
    hide M.Inv;
    hide T.Allowed;
    AllowedPrefix(log, j - 1);
    DbAtNext(log, j - 1);
    if j == i + 1 {
      GrantedNow(DbAt(log, i), log[i]);
    } else {
      GrantedBelow(log, i, j - 1, l);
      assert T.Allowed(log[j - 1]);
      C.StepFramesLeases(DbAt(log, j - 1), log[j - 1]);
    }
  }

  // ----- Completion tokens -----

  lemma CompletedToken(db: Db, c: Command)
    requires c.Complete? && c.hash in db.tokens
    ensures c.hash !in Step(db, c).b.tokens
  {
    hide ApplyAck;
    hide ApplyNack;
    var b := db.(tokens := db.tokens - {c.hash});
    R.AckKeepsRest(db, b, db.tokens[c.hash]);
    R.NackKeepsRest(db, b, db.tokens[c.hash], Retry, c.delay, c.meta, c.now);
  }

  lemma IssuedToken(db: Db, c: Command, hash: Blob)
    requires c.IssueToken? && c.hash != hash
    ensures hash in Step(db, c).b.tokens <==> hash in db.tokens
  {
  }

  /** Only issuing it again brings a token back. */
  lemma StaysSpent(db: Db, c: Command, hash: Blob)
    requires hash !in db.tokens && !(c.IssueToken? && c.hash == hash)
    ensures hash !in Step(db, c).b.tokens
  {
    hide Step;
    if c.IssueToken? {
      IssuedToken(db, c, hash);
    } else {
      R.StepKeepsRest(db, c);
    }
  }

  lemma {:induction false} SpentFrom(log: seq<Command>, i: nat, j: nat, hash: Blob)
    requires i <= j <= |log| && hash !in DbAt(log, i).tokens
    requires forall n :: i <= n < j ==> !(log[n].IssueToken? && log[n].hash == hash)
    ensures hash !in DbAt(log, j).tokens
    decreases j
  {
    hide Step;
    if i < j {
      SpentFrom(log, i, j - 1, hash);
      DbAtNext(log, j - 1);
      StaysSpent(DbAt(log, j - 1), log[j - 1], hash);
    }
  }

  /** A token is spent by its first completion, whatever that answers: until it is issued
      again, a later one does not know it. */
  lemma TokenSpent(log: seq<Command>, i: nat, j: nat)
    requires i < j < |log| && log[i].Complete? && log[j].Complete? && log[j].hash == log[i].hash
    requires forall n :: i < n < j ==> !(log[n].IssueToken? && log[n].hash == log[i].hash)
    ensures Step(DbAt(log, j), log[j]) == Applied(DbAt(log, j), TokenCompleted(false, false, true))
  {
    hide Step;
    var db, hash := DbAt(log, i), log[i].hash;
    DbAtNext(log, i);
    if hash in db.tokens {
      CompletedToken(db, log[i]);
    } else {
      StaysSpent(db, log[i], hash);
    }
    SpentFrom(log, i + 1, j, hash);
    UnknownToken(DbAt(log, j), log[j]);
  }

  lemma UnknownToken(db: Db, c: Command)
    requires c.Complete? && c.hash !in db.tokens
    ensures Step(db, c) == Applied(db, TokenCompleted(false, false, true))
  {
  }

  /** A token issued for a standing lease is that lease's from then on. */
  lemma TokenIsIssued(db: Db, c: Command)
    requires c.IssueToken?
    ensures var r := Step(db, c);
            if c.lease in db.q.leases
            then r.b.tokens == db.tokens[c.hash := c.lease] && c.lease in r.b.q.leases
                 && r.b.q.leases[c.lease] == db.q.leases[c.lease].(token := c.hash)
            else r.b == db
  {
  }
}
