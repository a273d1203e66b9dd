/** Singleton leases over whole runs: fences only grow, and a holder keeps its lease until it
    lets go or its last deadline passes. */
module Singletons {
  import opened Bytes
  import opened Store
  import opened Commands
  import opened Handlers
  import opened History
  import F = Frames

  ghost function ResultAt(log: seq<Command>, i: nat): Result
    requires i < |log|
  {
    Step(DbAt(log, i), log[i]).res
  }

  /** The i-th command is a successful operation on the name by the holder. */
  ghost predicate Did(log: seq<Command>, i: nat, op: SingletonOp, name: string, holder: string)
    requires i < |log|
  {
    log[i].Singleton? && log[i].sop == op && log[i].name == name && log[i].holder == holder
    && ResultAt(log, i).SingletonIs? && ResultAt(log, i).ok
  }

  // ----- Fences -----

  predicate FenceAtLeast(db: Db, name: string, f: nat) {
    name in db.singletons && db.singletons[name].fence >= f
  }

  lemma FenceStep(db: Db, c: Command, name: string, f: nat)
    ensures FenceAtLeast(db, name, f) ==> FenceAtLeast(Step(db, c).b, name, f)
    ensures c.Singleton? && c.sop == Acquire && c.name == name && Step(db, c).res.ok ==>
              FenceAtLeast(Step(db, c).b, name, Step(db, c).res.fence)
                  && (FenceAtLeast(db, name, f) ==> Step(db, c).res.fence > f)
  {
    F.StepKeepsRest(db, c);
    if !c.Singleton? { hide Step; }
  }

  lemma {:induction false} FenceGrows(log: seq<Command>, i: nat, j: nat, name: string, f: nat)
    requires i <= j <= |log| && FenceAtLeast(DbAt(log, i), name, f)
    ensures FenceAtLeast(DbAt(log, j), name, f)
    decreases j
  {
    hide Step;
    if i < j {
      FenceGrows(log, i, j - 1, name, f);
      DbAtNext(log, j - 1);
      FenceStep(DbAt(log, j - 1), log[j - 1], name, f);
    }
  }

  /** Fences of successful acquires strictly increase, across releases and re-acquires. */
  lemma FencesIncrease(log: seq<Command>, i: nat, j: nat, name: string, h: string, h': string)
    requires i < j < |log| && Did(log, i, Acquire, name, h) && Did(log, j, Acquire, name, h')
    ensures ResultAt(log, i).fence < ResultAt(log, j).fence
  {
    hide Step;
    DbAtNext(log, i);
    FenceStep(DbAt(log, i), log[i], name, 0);
    FenceGrows(log, i + 1, j, name, ResultAt(log, i).fence);
    FenceStep(DbAt(log, j), log[j], name, ResultAt(log, i).fence);
  }

  // ----- Holding -----

  /** The commands on singletons are stamped in order. */
  ghost predicate Stamped(log: seq<Command>) {
    forall i, j :: 0 <= i < j < |log| && log[i].Singleton? && log[j].Singleton? ==> log[i].now <= log[j].now
  }

  /** The deadline a successful acquire or renewal stores. */
  function DeadlineOf(c: Command): nat
    requires c.Singleton?
  {
    Add64(c.now, c.ttl)
  }

  predicate HeldBy(db: Db, name: string, h: string, d: nat) {
    name in db.singletons && db.singletons[name].holder == h && db.singletons[name].deadline == d
  }

  lemma GrantHolds(db: Db, c: Command)
    requires c.Singleton? && (c.sop == Acquire || c.sop == Renew) && Step(db, c).res.ok
    ensures HeldBy(Step(db, c).b, c.name, c.holder, DeadlineOf(c))
  {
  }

  /** A command either leaves the lease with its holder and deadline, or is that holder's own
      operation, or is an acquire after the deadline. */
  lemma HoldStep(db: Db, c: Command, name: string, h: string, d: nat)
    requires HeldBy(db, name, h, d) && h != ""
    ensures HeldBy(Step(db, c).b, name, h, d)
         || (c.Singleton? && c.name == name && c.holder == h && Step(db, c).res.ok)
         || (c.Singleton? && c.name == name && c.sop == Acquire && c.holder != h && d <= c.now)
  {
    F.StepKeepsRest(db, c);
    if !c.Singleton? { hide Step; }
  }

  lemma RefusedWhileHeld(db: Db, c: Command, h: string, d: nat)
    requires c.Singleton? && c.sop == Acquire && c.holder != h && h != "" && HeldBy(db, c.name, h, d)
    requires Step(db, c).res.ok
    ensures d <= c.now
  {
  }

  ghost predicate Idle(log: seq<Command>, i: nat, j: nat, name: string, h: string)
    requires j <= |log|
  {
    forall m, op :: i < m < j ==> !Did(log, m, op, name, h)
  }

  lemma {:induction false} HoldsUntil(log: seq<Command>, i: nat, j: nat, name: string, h: string)
    requires i < j <= |log| && Stamped(log) && h != "" && (Did(log, i, Acquire, name, h) || Did(log, i, Renew, name, h))
    requires Idle(log, i, j, name, h)
    ensures HeldBy(DbAt(log, j), name, h, DeadlineOf(log[i]))
         || exists m :: i < m < j && log[m].Singleton? && DeadlineOf(log[i]) <= log[m].now
    decreases j
  {
    hide Step;
    var d := DeadlineOf(log[i]);
    DbAtNext(log, j - 1);
    if i == j - 1 {
      GrantHolds(DbAt(log, i), log[i]);
    } else {
      HoldsUntil(log, i, j - 1, name, h);
      if HeldBy(DbAt(log, j - 1), name, h, d) {
        HoldStep(DbAt(log, j - 1), log[j - 1], name, h, d);
        if log[j - 1].Singleton? {
          SingletonResult(DbAt(log, j - 1), log[j - 1]);
          assert !Did(log, j - 1, log[j - 1].sop, name, h);
        }
      }
    }
  }

  lemma SingletonResult(db: Db, c: Command)
    requires c.Singleton?
    ensures Step(db, c).res.SingletonIs?
  {
  }

  /** A different holder is granted the lease only after the previous holder did something to
      it since (a release, a renewal, a re-acquire), or the deadline its last successful
      acquire or renewal stored has passed. */
  lemma OneHolder(log: seq<Command>, i: nat, j: nat, name: string, h: string, h': string)
    requires i < j < |log| && Stamped(log) && h != "" && h' != h
    requires Did(log, i, Acquire, name, h) || Did(log, i, Renew, name, h)
    requires Did(log, j, Acquire, name, h')
    requires Idle(log, i, j, name, h)
    ensures DeadlineOf(log[i]) <= log[j].now
  {
    hide Step;
    HoldsUntil(log, i, j, name, h);
    if HeldBy(DbAt(log, j), name, h, DeadlineOf(log[i])) {
      RefusedWhileHeld(DbAt(log, j), log[j], h, DeadlineOf(log[i]));
    }
  }

  // ----- Letting go, and stale fences -----

  /** The stored record has this holder and this fence. */
  predicate Carries(db: Db, name: string, holder: string, fence: nat) {
    name in db.singletons && db.singletons[name].holder == holder && db.singletons[name].fence == fence
  }

  /** An acquire is refused exactly while another holder's deadline lies ahead, and then told
      who holds the lease; otherwise the next fence is the caller's, until its time to live is over. */
  lemma AcquireIff(db: Db, c: Command)
    requires c.Singleton? && c.sop == Acquire
    ensures var r, b := Step(db, c).res, Step(db, c).b;
            && (r.ok <==> !exists h, f :: Carries(db, c.name, h, f) && h != "" && h != c.holder
                                          && db.singletons[c.name].deadline > c.now)
            && (r.ok ==>
                  && r.fence == (if c.name in db.singletons then db.singletons[c.name].fence else 0) + 1
                  && Carries(b, c.name, c.holder, r.fence) && r.holder == c.holder
                  && b.singletons[c.name].deadline == (c.now + c.ttl) % 0x1_0000_0000_0000_0000)
            && (!r.ok ==> b.singletons == db.singletons && Carries(db, c.name, r.holder, r.fence))
  {
    if c.name in db.singletons {
      assert Carries(db, c.name, db.singletons[c.name].holder, db.singletons[c.name].fence);
    }
  }

  /** A renewal or release succeeds exactly for the stored holder under the stored fence. A
      refused one writes nothing; a renewal moves the deadline alone; a release leaves the
      fence, and no holder. */
  lemma KeepIff(db: Db, c: Command)
    requires c.Singleton? && (c.sop == Renew || c.sop == Release)
    ensures var r, b := Step(db, c).res, Step(db, c).b;
            && (r.ok <==> Carries(db, c.name, c.holder, c.fence))
            && (!r.ok ==> b.singletons == db.singletons)
            && (r.ok ==> c.name in b.singletons)
            && (r.ok && c.sop == Renew ==>
                  b.singletons[c.name] == SingletonRec(c.holder, (c.now + c.ttl) % 0x1_0000_0000_0000_0000, c.fence))
            && (r.ok && c.sop == Release ==> b.singletons[c.name] == SingletonRec("", 0, c.fence))
            && forall n :: n != c.name ==> (n in b.singletons <==> n in db.singletons)
                                           && (n in b.singletons ==> b.singletons[n] == db.singletons[n])
  {
  }

  /** Once a fence is handed out, a renewal or release under any smaller one is refused and
      leaves the table as it was, at every later point of the log. */
  lemma StaleFenceRefused(log: seq<Command>, i: nat, j: nat, h: string)
    requires i < j < |log| && log[j].Singleton? && (log[j].sop == Renew || log[j].sop == Release)
    requires Did(log, i, Acquire, log[j].name, h) && log[j].fence < ResultAt(log, i).fence
    ensures ResultAt(log, j).SingletonIs? && !ResultAt(log, j).ok
    ensures DbAt(log, j + 1).singletons == DbAt(log, j).singletons
  {
    hide Step;
    DbAtNext(log, i);
    DbAtNext(log, j);
    FenceStep(DbAt(log, i), log[i], log[j].name, 0);
    FenceGrows(log, i + 1, j, log[j].name, ResultAt(log, i).fence);
    KeepIff(DbAt(log, j), log[j]);
    SingletonResult(DbAt(log, j), log[j]);
  }

  predicate Free(db: Db, name: string, f: nat) {
    Carries(db, name, "", f)
  }

  /** A free lease stays free, under its fence, until somebody acquires it. */
  lemma FreeStep(db: Db, c: Command, name: string, f: nat)
    requires Free(db, name, f) && !(c.Singleton? && c.sop == Acquire && c.name == name)
    ensures Free(Step(db, c).b, name, f)
  {
    F.StepKeepsRest(db, c);
    if !c.Singleton? { hide Step; }
  }

  lemma {:induction false} StaysFree(log: seq<Command>, i: nat, j: nat, name: string, f: nat)
    requires i <= j <= |log| && Free(DbAt(log, i), name, f)
    requires forall m :: i <= m < j ==> !(log[m].Singleton? && log[m].sop == Acquire && log[m].name == name)
    ensures Free(DbAt(log, j), name, f)
    decreases j
  {
    hide Step;
    hide Free;
    if i < j {
      StaysFree(log, i, j - 1, name, f);
      DbAtNext(log, j - 1);
      FreeStep(DbAt(log, j - 1), log[j - 1], name, f);
    }
  }

  /** A release frees the lease at once: the next acquirer, whoever it is and whenever it
      comes, gets it, under the next fence. */
  lemma ReleaseFrees(log: seq<Command>, i: nat, j: nat, name: string, h: string)
    requires i < j < |log| && Did(log, i, Release, name, h)
    requires log[j].Singleton? && log[j].sop == Acquire && log[j].name == name
    requires forall m :: i < m < j ==> !(log[m].Singleton? && log[m].sop == Acquire && log[m].name == name)
    ensures Did(log, j, Acquire, name, log[j].holder) && ResultAt(log, j).fence == log[i].fence + 1
  {
    hide Step;
    DbAtNext(log, i);
    KeepIff(DbAt(log, i), log[i]);
    StaysFree(log, i + 1, j, name, log[i].fence);
    AcquireIff(DbAt(log, j), log[j]);
    SingletonResult(DbAt(log, j), log[j]);
  }
}
