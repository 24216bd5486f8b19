/** Concurrent writers of the outbox. Each holds its account's lock from before
    it reads the last sequence until it commits or rolls back, so what readers
    see of an account is a prefix without gaps, growing at its end. */
module OutboxWriters {
  import opened Prelude
  import opened Rows
  import opened Consumption

  type TxId = nat

  /** A transaction that locked an account, with events nobody else sees yet. */
  datatype Writer = Writer(account: Id, pending: seq<EventRow>)

  datatype Store = Store(committed: map<Id, seq<EventRow>>, writers: map<TxId, Writer>)

  datatype Move =
    | Lock(tx: TxId, account: Id)
    | Write(tx: TxId, event: Event)
    | Commit(tx: TxId)
    | Rollback(tx: TxId)

  function View(db: Store, account: Id): seq<EventRow> {
    if account in db.committed then db.committed[account] else []
  }

  /** `SELECT .. FOR UPDATE`: waits while another transaction has the row. */
  predicate Free(db: Store, account: Id) {
    forall tx :: tx in db.writers ==> db.writers[tx].account != account
  }

  /** Sequence after the last one the transaction sees. */
  function NextSequence(db: Store, w: Writer): int {
    var seen := View(db, w.account) + w.pending;
    if seen == [] then 1 else seen[|seen| - 1].sequence + 1
  }

  function Step(db: Store, move: Move): Store {
    match move
    case Lock(tx, account) =>
      if tx in db.writers || !Free(db, account) then db
      else db.(writers := db.writers[tx := Writer(account, [])])
    case Write(tx, event) =>
      if tx !in db.writers || !Fits(NextSequence(db, db.writers[tx])) then db
      else
        var w := db.writers[tx];
        db.(writers := db.writers[tx := w.(pending := w.pending + [EventRow(NextSequence(db, w), event)])])
    case Commit(tx) =>
      if tx !in db.writers then db
      else
        var w := db.writers[tx];
        Store(db.committed[w.account := View(db, w.account) + w.pending], db.writers - {tx})
    case Rollback(tx) => db.(writers := db.writers - {tx})
  }

  function Run(db: Store, moves: seq<Move>): Store {
    if moves == [] then db else Step(Run(db, moves[..|moves| - 1]), moves[|moves| - 1])
  }

  /** One writer per account, and its events continue what is committed. */
  predicate Serialized(db: Store) {
    && (forall a :: a in db.committed ==> Dense(db.committed[a]))
    && (forall tx :: tx in db.writers ==> Dense(View(db, db.writers[tx].account) + db.writers[tx].pending))
    && (forall t, u :: t in db.writers && u in db.writers && db.writers[t].account == db.writers[u].account ==> t == u)
  }

  lemma LockSerialized(db: Store, tx: TxId, account: Id)
    requires Serialized(db)
    ensures Serialized(Step(db, Lock(tx, account)))
  {
    hide NextSequence, Dense;
    assert View(db, account) + [] == View(db, account);
    ViewDense(db, account);
  }

  lemma ViewDense(db: Store, account: Id)
    requires Serialized(db)
    ensures Dense(View(db, account))
  {
  }

  lemma WriteSerialized(db: Store, tx: TxId, event: Event)
    requires Serialized(db)
    ensures Serialized(Step(db, Write(tx, event)))
  {
    if tx in db.writers && Fits(NextSequence(db, db.writers[tx])) {
      var w := db.writers[tx];
      var row := EventRow(NextSequence(db, w), event);
      NextIsDense(View(db, w.account) + w.pending, row);
      assert View(db, w.account) + w.pending + [row] == View(db, w.account) + (w.pending + [row]);
      hide Dense, NextSequence;
      var after := Step(db, Write(tx, event));
      forall t | t in after.writers ensures Dense(View(after, after.writers[t].account) + after.writers[t].pending) {
        assert View(after, after.writers[t].account) == View(db, after.writers[t].account);
      }
    }
  }

  lemma NextIsDense(seen: seq<EventRow>, row: EventRow)
    requires Dense(seen) && row.sequence == if seen == [] then 1 else seen[|seen| - 1].sequence + 1
    ensures Dense(seen + [row])
  {
  }

  lemma CommitSerialized(db: Store, tx: TxId)
    requires Serialized(db)
    ensures Serialized(Step(db, Commit(tx)))
  {
    hide NextSequence, Dense;
    if tx in db.writers {
      var after := Step(db, Commit(tx));
      forall t | t in after.writers ensures Dense(View(after, after.writers[t].account) + after.writers[t].pending) {
        assert View(after, after.writers[t].account) == View(db, after.writers[t].account);
      }
    }
  }

  lemma StepSerialized(db: Store, move: Move)
    requires Serialized(db)
    ensures Serialized(Step(db, move))
  {
    hide Serialized;
    match move {
      case Lock(tx, account) => LockSerialized(db, tx, account);
      case Write(tx, event) => WriteSerialized(db, tx, event);
      case Commit(tx) => CommitSerialized(db, tx);
      case Rollback(tx) => RollbackSerialized(db, tx);
    }
  }

  lemma RollbackSerialized(db: Store, tx: TxId)
    requires Serialized(db)
    ensures Serialized(Step(db, Rollback(tx)))
  {
    hide NextSequence, Dense;
    var after := Step(db, Rollback(tx));
    forall t | t in after.writers ensures Dense(View(after, after.writers[t].account) + after.writers[t].pending) {
      assert View(after, after.writers[t].account) == View(db, after.writers[t].account);
    }
  }

  lemma StepExtends(db: Store, move: Move, account: Id)
    ensures View(db, account) <= View(Step(db, move), account)
  {
  }

  /** Whatever the transactions do, and in whatever order they end: the committed
      outbox of every account is 1, 2, 3, .. without gaps. */
  lemma {:induction false} CommittedIsDense(moves: seq<Move>, account: Id)
    ensures Serialized(Run(Store(map[], map[]), moves))
    ensures Dense(View(Run(Store(map[], map[]), moves), account))
  {
    if moves != [] {
      CommittedIsDense(moves[..|moves| - 1], account);
      StepSerialized(Run(Store(map[], map[]), moves[..|moves| - 1]), moves[|moves| - 1]);
    }
  }

  /** A later reader sees what an earlier reader saw, and perhaps more after it:
      no event ever appears below one that was already visible. */
  lemma {:induction false} ViewsArePrefixes(db: Store, moves: seq<Move>, account: Id)
    ensures View(db, account) <= View(Run(db, moves), account)
  {
    if moves != [] {
      ViewsArePrefixes(db, moves[..|moves| - 1], account);
      StepExtends(Run(db, moves[..|moves| - 1]), moves[|moves| - 1], account);
    }
  }

  /** The same moves if locking never waited. */
  function StepUnlocked(db: Store, move: Move): Store {
    match move
    case Lock(tx, account) => if tx in db.writers then db else db.(writers := db.writers[tx := Writer(account, [])])
    case _ => Step(db, move)
  }

  /** Two writers of one account with nothing written yet. */
  predicate BothHold(db: Store, account: Id, t1: TxId, t2: TxId) {
    && t1 != t2 && t1 in db.writers && t2 in db.writers
    && db.writers[t1] == db.writers[t2] == Writer(account, [])
  }

  lemma FirstSequence(db: Store, w: Writer)
    requires Dense(View(db, w.account)) && w.pending == []
    ensures NextSequence(db, w) == |View(db, w.account)| + 1
  {
    assert View(db, w.account) + [] == View(db, w.account);
  }

  lemma BothWrite(db: Store, account: Id, t1: TxId, t2: TxId, e1: Event, e2: Event)
    requires BothHold(db, account, t1, t2) && Dense(View(db, account)) && |View(db, account)| < I64_MAX
    ensures
      var next := |View(db, account)| + 1;
      var after := Step(Step(db, Write(t1, e1)), Write(t2, e2));
      && after.committed == db.committed && t1 in after.writers && t2 in after.writers
      && after.writers[t1] == Writer(account, [EventRow(next, e1)])
      && after.writers[t2] == Writer(account, [EventRow(next, e2)])
  {
    hide NextSequence, Dense;
    FirstSequence(db, db.writers[t1]);
    var mid := Step(db, Write(t1, e1));
    assert View(mid, account) == View(db, account);
    FirstSequence(mid, mid.writers[t2]);
  }

  /** It is the waiting that does it: without it, two writers of any account who
      both read its last sequence before either commits give two events the same. */
  lemma LockIsNeeded(db: Store, account: Id, t1: TxId, t2: TxId, e1: Event, e2: Event)
    requires Serialized(db) && t1 != t2 && t1 !in db.writers && t2 !in db.writers
    requires |View(db, account)| < I64_MAX
    ensures
      var next := |View(db, account)| + 1;
      var held := StepUnlocked(StepUnlocked(db, Lock(t1, account)), Lock(t2, account));
      var written := StepUnlocked(StepUnlocked(held, Write(t1, e1)), Write(t2, e2));
      var after := View(StepUnlocked(StepUnlocked(written, Commit(t1)), Commit(t2)), account);
      after == View(db, account) + [EventRow(next, e1), EventRow(next, e2)] && !Dense(after)
  {
    hide NextSequence, Dense;
    ViewDense(db, account);
    var held := StepUnlocked(StepUnlocked(db, Lock(t1, account)), Lock(t2, account));
    assert View(held, account) == View(db, account);
    BothWrite(held, account, t1, t2, e1, e2);
    var row1, row2 := EventRow(|View(db, account)| + 1, e1), EventRow(|View(db, account)| + 1, e2);
    Repeated(View(db, account), row1, row2);
    assert View(db, account) + [row1] + [row2] == View(db, account) + [row1, row2];
  }

  lemma Repeated(seen: seq<EventRow>, row1: EventRow, row2: EventRow)
    requires row1.sequence == row2.sequence
    ensures !Dense(seen + [row1, row2])
  {
    var all := seen + [row1, row2];
    assert all[|seen|].sequence == all[|seen| + 1].sequence;
  }
}

/** Named consumers of an account's outbox: a cursor of acknowledged and
    delivered sequences, read without a lock first and re-read under one. */
module BillingFeed {
  import opened Prelude
  import opened Rows
  import opened Outbox
  import opened WorkerRules
  import opened Consumption

  datatype AckRequest = AckRequest(expected: I64, sequence: I64)

  datatype PollRequest = PollRequest(limit: nat, ack: Option<AckRequest>)

  datatype Cursor = Cursor(acknowledged: I64, delivered: I64)

  datatype Page = Page(events: seq<EventRow>, acknowledged: I64, delivered: I64, hasMore: bool) {
    predicate Changed(row: Cursor) {
      acknowledged != row.acknowledged || delivered != row.delivered
    }
  }

  const FIRST := Cursor(0, 0)

  // ---- rules --------------------------------------------------------------

  /** A repeated acknowledgement is idempotent; any other must start from the
      cursor and stay within what was delivered. */
  function AcknowledgedBy(row: Cursor, ack: Option<AckRequest>): Result<I64> {
    match ack
    case None => Ok(row.acknowledged)
    case Some(a) =>
      if a.sequence < 0 || a.expected < 0 then Err(Invalid)
      else if a.sequence == row.acknowledged then Ok(row.acknowledged)
      else if a.expected != row.acknowledged || a.sequence < row.acknowledged || row.delivered < a.sequence
      then Err(Conflict)
      else Ok(a.sequence)
  }

  /** One row more than asked for tells whether there are more. */
  function Following(log: seq<EventRow>, ack: I64, limit: nat): (seq<EventRow>, bool) {
    var found := Limit(Between(log, ack, I64_MAX), limit + 1);
    if limit < |found| then (found[..limit], true) else (found, false)
  }

  function PageOf(log: seq<EventRow>, row: Cursor, q: PollRequest): Result<Page> {
    match AcknowledgedBy(row, q.ack)
    case Err(error) => Err(error)
    case Ok(ack) =>
      var (events, more) := Following(log, ack, q.limit);
      var delivered: I64 := if events == [] then row.delivered else Max(row.delivered, events[|events| - 1].sequence);
      Ok(Page(events, ack, delivered, more))
  }

  /** The part of a poll that holds the cursor's lock. */
  function Polled(log: seq<EventRow>, row: Cursor, q: PollRequest): Result<(Cursor, Page)> {
    match PageOf(log, row, q)
    case Err(error) => Err(error)
    case Ok(page) => Ok((Cursor(page.acknowledged, page.delivered), page))
  }

  /** Acknowledged is behind delivered, and delivered behind the outbox. */
  predicate InOrder(row: Cursor, log: seq<EventRow>) {
    0 <= row.acknowledged <= row.delivered <= |log|
  }

  lemma FollowingIsSlice(log: seq<EventRow>, ack: I64, limit: nat)
    requires Dense(log) && 0 <= ack <= |log| <= I64_MAX
    ensures Following(log, ack, limit) == (log[ack..Min(|log|, ack + limit)], ack + limit < |log|)
  {
    BetweenDense(log, ack, I64_MAX);
    hide Between, Dense;
    var tail := log[ack..|log|];
    assert Between(log, ack, I64_MAX) == tail;
    if limit < |tail| {
      assert tail[..limit + 1][..limit] == tail[..limit] == log[ack..ack + limit];
    }
  }

  /** The page is what follows the acknowledgement, as far as the limit goes. */
  lemma PageIsSlice(log: seq<EventRow>, row: Cursor, q: PollRequest)
    requires Dense(log) && |log| <= I64_MAX && InOrder(row, log) && PageOf(log, row, q).Ok?
    ensures
      var page := PageOf(log, row, q).value;
      && row.acknowledged <= page.acknowledged <= row.delivered
      && page.events == log[page.acknowledged..Min(|log|, page.acknowledged + q.limit)]
      && page.delivered == Max(row.delivered, page.acknowledged + |page.events|)
      && (page.hasMore <==> page.acknowledged + q.limit < |log|)
      && InOrder(Cursor(page.acknowledged, page.delivered), log)
  {
    hide Following;
    var ack := AcknowledgedBy(row, q.ack).value;
    FollowingIsSlice(log, ack, q.limit);
    var end := Min(|log|, ack + q.limit);
    assert ack < end ==> log[ack..end][end - ack - 1] == log[end - 1];
  }

  // ---- the service --------------------------------------------------------

  /** What happens to the tables between two statements of a transaction that
      holds no lock on them. */
  datatype Move =
    | Commits(events: seq<EventRow>)
    | Polls(name: Id, poll: PollRequest)
    | Acks(name: Id, ack: AckRequest)

  /** The committed outbox of one account and the cursors of its consumers. */
  class Feed {
    var log: seq<EventRow>
    var cursors: map<Id, Cursor>
    /** Sequences some response to the consumer has carried. */
    ghost var served: map<Id, set<int>>

    ghost predicate Valid()
      reads this
    {
      && Dense(log) && |log| <= I64_MAX
      && (forall name :: name in cursors ==>
            && InOrder(cursors[name], log)
            && name in served
            && forall s :: 1 <= s <= cursors[name].delivered ==> s in served[name])
    }

    constructor ()
      ensures Valid() && log == [] && cursors == map[]
    {
      log := [];
      cursors := map[];
      served := map[];
    }

    /** Nothing goes back: outbox, cursors and what was served only grow. */
    twostate predicate Forward()
      reads this
    {
      && old(log) <= log
      && forall name :: name in old(cursors) ==>
           && name in cursors && name in served && name in old(served)
           && old(cursors)[name].acknowledged <= cursors[name].acknowledged
           && old(cursors)[name].delivered <= cursors[name].delivered
           && old(served)[name] <= served[name]
    }

    /** A response leaves the service. */
    ghost method Serve(name: Id, events: seq<EventRow>)
      modifies this`served
      ensures served == old(served)[name :=
        (if name in old(served) then old(served)[name] else {}) + (set e | e in events :: e.sequence as int)]
    {
      served := served[name := (if name in served then served[name] else {}) + (set e | e in events :: e.sequence as int)];
    }

    /** Creates the cursor at its start unless it exists. */
    method Register(name: Id)
      requires Valid()
      modifies this
      ensures Valid() && Forward() && log == old(log)
      ensures name in cursors && cursors == (if name in old(cursors) then old(cursors) else old(cursors)[name := FIRST])
      ensures name in old(cursors) ==> served == old(served)
    {
      if name !in cursors {
        cursors := cursors[name := FIRST];
        served := served[name := {}];
      }
    }

    /** Re-reads the cursor under its lock, so it never overwrites progress that
        happened since the optimistic read. */
    method PollLocked(name: Id, q: PollRequest) returns (r: Result<Page>)
      requires Valid() && name in cursors && 1 <= q.limit
      modifies this
      ensures Valid() && Forward() && log == old(log)
      ensures match Polled(old(log), old(cursors)[name], q)
              case Ok((row, page)) => r == Ok(page) && cursors == old(cursors)[name := row]
              case Err(error) => r == Err(error) && cursors == old(cursors)
    {
      hide PageOf, Dense;
      var row := cursors[name];
      var page :- PageOf(log, row, q);
      PageIsSlice(log, row, q);
      if page.Changed(row) {
        cursors := cursors[name := Cursor(page.acknowledged, page.delivered)];
      }
      Serve(name, page.events);
      Covered(log, row, page, old(served)[name], served[name]);
      assert Cursor(page.acknowledged, page.delivered) == cursors[name];
      assert cursors == old(cursors)[name := cursors[name]];
      return Ok(page);
    }

    /** Answers without writing: an empty page, or one that was served before. */
    method Redeliver(name: Id, page: Page)
      requires Valid() && name in cursors
      modifies this`served
      ensures Valid() && Forward()
    {
      Serve(name, page.events);
    }

    /** One transaction: an unlocked look first. If it shows nothing to write, the
        poll ends there without taking a lock. Others may move in between. */
    method PollBillingEvents(name: Id, q: PollRequest, meanwhile: seq<Move>) returns (r: Result<Page>)
      requires Valid()
      modifies this
      ensures Valid() && Forward()
      ensures !Identifier(name) || !(1 <= q.limit <= 100) ==>
        r == Err(Invalid) && log == old(log) && cursors == old(cursors)
      ensures Identifier(name) && 1 <= q.limit <= 100 && name in old(cursors)
              && PageOf(old(log), old(cursors)[name], q).Ok?
              && !PageOf(old(log), old(cursors)[name], q).value.Changed(old(cursors)[name]) ==>
        r == PageOf(old(log), old(cursors)[name], q) && log == old(log) && cursors == old(cursors)
      ensures Identifier(name) && 1 <= q.limit <= 100 && meanwhile == [] ==>
        log == old(log)
        && match Polled(old(log), if name in old(cursors) then old(cursors)[name] else FIRST, q)
           case Ok((row, page)) => r == Ok(page) && cursors == old(cursors)[name := row]
           case Err(error) => r == Err(error) && cursors == old(cursors)
    {
      hide PageOf, Dense, InOrder;
      if !Identifier(name) || !(1 <= q.limit <= 100) {
        return Err(Invalid);
      }
      var row := if name in cursors then cursors[name] else FIRST;
      var initial :- PageOf(log, row, q);
      Register(name);
      if !initial.Changed(row) {
        Redeliver(name, initial);
        assert cursors == old(cursors)[name := row];
        return Ok(initial);
      }
      Interfere(meanwhile);
      r := PollLocked(name, q);
    }

    method AckLocked(name: Id, ack: AckRequest) returns (r: Result<Cursor>)
      requires Valid() && name in cursors
      modifies this
      ensures Valid() && Forward() && log == old(log) && served == old(served)
      ensures match AcknowledgedBy(old(cursors)[name], Some(ack))
              case Ok(next) =>
                && r == Ok(old(cursors)[name].(acknowledged := next))
                && cursors == old(cursors)[name := old(cursors)[name].(acknowledged := next)]
              case Err(error) => r == Err(error) && cursors == old(cursors)
    {
      var row := cursors[name];
      var next :- AcknowledgedBy(row, Some(ack));
      if next == row.acknowledged {
        assert cursors == old(cursors)[name := row];
        return Ok(row);
      }
      cursors := cursors[name := row.(acknowledged := next)];
      return Ok(cursors[name]);
    }

    method AckBillingEvents(name: Id, ack: AckRequest, meanwhile: seq<Move>) returns (r: Result<Cursor>)
      requires Valid()
      modifies this
      ensures Valid() && Forward()
      ensures r.Ok? ==> name in cursors && r.value.acknowledged <= cursors[name].acknowledged
      ensures Identifier(name) && name in old(cursors) && meanwhile == [] ==>
        log == old(log)
        && match AcknowledgedBy(old(cursors)[name], Some(ack))
           case Ok(next) => r == Ok(old(cursors)[name].(acknowledged := next)) && cursors == old(cursors)[name := r.value]
           case Err(error) => r == Err(error) && cursors == old(cursors)
    {
      if !Identifier(name) {
        return Err(Invalid);
      }
      if name !in cursors {
        return Err(NotFound);
      }
      var row := cursors[name];
      var next :- AcknowledgedBy(row, Some(ack));
      if next == row.acknowledged {
        assert cursors == cursors[name := row];
        return Ok(row);
      }
      Interfere(meanwhile);
      r := AckLocked(name, ack);
    }

    /** Any sequence of commits, polls and acknowledgements by others. */
    method Interfere(moves: seq<Move>)
      requires Valid()
      modifies this
      ensures Valid() && Forward()
      ensures moves == [] ==> log == old(log) && cursors == old(cursors) && served == old(served)
    {
      var i := 0;
      while i < |moves|
        invariant 0 <= i <= |moves|
        invariant Valid() && Forward()
        invariant moves == [] ==> log == old(log) && cursors == old(cursors) && served == old(served)
      {
        match moves[i] {
          case Commits(events) =>
            if Dense(log + events) && |log + events| <= I64_MAX {
              log := log + events;
            }
          case Polls(name, q) =>
            if name in cursors && 1 <= q.limit {
              var _ := PollLocked(name, q);
            }
          case Acks(name, ack) =>
            if name in cursors {
              var _ := AckLocked(name, ack);
            }
        }
        i := i + 1;
      }
    }
  }

  /** Everything up to the new delivery mark has been served. */
  lemma Covered(log: seq<EventRow>, row: Cursor, page: Page, before: set<int>, after: set<int>)
    requires Dense(log) && InOrder(row, log) && row.acknowledged <= page.acknowledged <= row.delivered
    requires forall s :: 1 <= s <= row.delivered ==> s in before
    requires page.acknowledged + |page.events| <= |log|
    requires page.events == log[page.acknowledged..page.acknowledged + |page.events|]
    requires page.delivered == Max(row.delivered, page.acknowledged + |page.events|)
    requires after == before + (set e | e in page.events :: e.sequence as int)
    ensures forall s :: 1 <= s <= page.delivered ==> s in after
  {
    forall s | row.delivered < s <= page.delivered ensures s in after {
      assert page.events[s - 1 - page.acknowledged] == log[s - 1];
      assert log[s - 1] in page.events && log[s - 1].sequence == s;
    }
  }
}
