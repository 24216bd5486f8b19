/** The transactional outbox: account-local sequences, and the worker job each
    new event wakes. Callers hold the account lock until they commit. */
module Outbox {
  import opened Prelude
  import opened Rows

  /** Wakes an idle job; a failure backoff or a dead job stays as it is. */
  function Schedule(jobs: map<Id, Job>, account: Id, sequence: I64, now: int): map<Id, Job> {
    if account in jobs then
      var job := jobs[account];
      jobs[account := job.(target := sequence, state := if job.state == Idle then JobPending else job.state)]
    else
      jobs[account := Job(0, sequence, 0, 0, None, None, now, JobPending, 0, None)]
  }

  /** Sequence of the newest event, zero before the first. */
  function LastSequence(log: seq<EventRow>): I64 {
    if log == [] then 0 else log[|log| - 1].sequence
  }

  /** The event takes the next sequence of its account. */
  function Append(h: History, account: Id, e: Event, now: Instant): Result<History> {
    var prior := LastSequence(Log(h, account));
    if prior == I64_MAX then Err(Invalid)
    else
      Ok(h.(log := h.log[account := Log(h, account) + [EventRow(prior + 1, e)]],
            jobs := Schedule(h.jobs, account, prior + 1, now.at)))
  }
}

/** Double-entry postings against the customer balance of an account. */
module Ledger {
  import opened Prelude
  import opened Rows
  import opened Totals
  import opened Outbox

  predicate KeyUsed(h: History, idempotencyKey: string) {
    exists i :: 0 <= i < |h.ledger| && h.ledger[i].idempotencyKey == idempotencyKey
  }

  /** The balance left after the holds covers the debit, in checked arithmetic. */
  predicate Affords(balance: int, held: int, debit: int) {
    Fits(balance - held) && Fits(balance - held - debit) && 0 <= balance - held - debit
  }

  /** Both entries of a posting: the customer's side and its counter account. */
  function Pair(account: Id, delta: I64, counter: Book): (entries: seq<Entry>)
    requires delta != I64_MIN
    ensures |entries| == 2
  {
    [Entry(account, CustomerBalance, delta), Entry(account, counter, -delta)]
  }

  /** The posting and its event, if the balance can carry it and the key is new. */
  ghost function BookPosting(h: History, account: Id, posting: Posting, delta: I64, now: Instant): Result<History> {
    if !Fits(Balance(h, account) + delta) then Err(Internal)
    else if KeyUsed(h, posting.idempotencyKey) then Err(Conflict)
    else
      Append(h.(ledger := h.ledger + [posting]), account,
             LedgerPosted(|h.ledger|, posting.kind, posting.reference, delta), now)
  }

  ghost function Post(h: History, account: Id, kind: PostingKind, reference: Reference,
                      idempotencyKey: string, delta: I64, counter: Book, now: Instant): Result<History>
  {
    if delta == I64_MIN then Err(Invalid)
    else if account !in h.accounts then Err(NotFound)
    else if delta < 0 && h.accounts[account].enforceBalance
            && !Affords(Balance(h, account), Held(h, account), -delta) then Err(InsufficientFunds)
    else BookPosting(h, account, Posting(kind, reference, idempotencyKey, Pair(account, delta, counter)), delta, now)
  }
}
