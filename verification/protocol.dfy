/** What the reservation protocol and v1 metering mean, stated over source
    records alone: every admission looks at a sum over history. */
module Protocol {
  import opened Prelude
  import opened Rows
  import opened Totals
  import opened Outbox
  import opened Ledger

  // ---- admission checks ---------------------------------------------------

  predicate ReserveRequestOk(q: ReserveRequest) {
    && Identifier(q.id) && Identifier(q.tenant) && Identifier(q.project) && Identifier(q.key)
    && Identifier(q.requestId) && Identifier(q.model) && Identifier(q.modelRevision)
    && Identifier(q.priceVersion)
    && 0 <= q.inputLimit && 0 <= q.outputLimit
  }

  predicate KeyAdmits(key: ApiKey, q: ReserveRequest, now: Instant) {
    && key.project == q.project
    && key.tenant == q.tenant
    && !key.revoked
    && (key.expires.Some? ==> now.at < key.expires.value.at)
    && ("chat.completions" in key.scopes || "completions" in key.scopes)
    && q.model in key.allowedModels
  }

  function ActiveModel(c: Catalog, id: Id): Option<Model> {
    if id in c.models && c.models[id].enabled then Some(c.models[id].definition) else None
  }

  predicate WithinContext(q: ReserveRequest, model: Model) {
    0 < q.inputLimit + q.outputLimit <= model.maxContextTokens
  }

  /** Some reservation or usage event of the project carries the request id. */
  predicate ReservedRequest(h: History, project: Id, requestId: Id) {
    exists id :: id in h.reservations
      && h.reservations[id].spec.project == project && h.reservations[id].spec.requestId == requestId
  }

  predicate MeteredRequest(h: History, project: Id, requestId: Id) {
    exists id :: id in h.usage && h.usage[id].project == project && h.usage[id].requestId == requestId
  }

  predicate WithinBudget(spent: int, keyHeld: int, amount: int, budget: int) {
    Fits(spent + keyHeld) && Fits(spent + keyHeld + amount) && spent + keyHeld + amount <= budget
  }

  /** The account's and the key's hold can both move by delta. */
  ghost predicate HoldRoom(h: History, account: Id, key: Id, delta: int) {
    0 <= Held(h, account) + delta <= I64_MAX && 0 <= KeyHeld(h, key) + delta <= I64_MAX
  }

  // ---- reservation protocol -----------------------------------------------

  ghost function Reserve(h: History, q: ReserveRequest, now: Instant): Result<(History, Reservation)> {
    if !ReserveRequestOk(q) then Err(Invalid)
    else if q.project !in h.accounts then Err(NotFound)
    else if h.accounts[q.project].tenant != q.tenant then Err(Forbidden)
    else if q.id in h.reservations then
      if h.reservations[q.id].spec != q then Err(Conflict) else Ok((h, h.reservations[q.id]))
    else if !h.accounts[q.project].active || h.accounts[q.project].currency != "CNY" then Err(Forbidden)
    else if q.key !in h.keys || !KeyAdmits(h.keys[q.key], q, now) then Err(Forbidden)
    else
      match ActiveModel(h.catalog, q.model)
      case None => Err(Invalid)
      case Some(model) =>
        if q.priceVersion != model.priceVersion || !WithinContext(q, model) then Err(Invalid)
        else if ReservedRequest(h, q.project, q.requestId) || MeteredRequest(h, q.project, q.requestId)
        then Err(Conflict)
        else
          match UsageCost(model, q.inputLimit, q.outputLimit)
          case None => Err(Invalid)
          case Some(amount) => Admit(h, q, model, amount, now)
  }

  /** The balance covers the hold, when the account is prepaid. */
  ghost function BalanceGate(h: History, account: Id, amount: I64): Result<()>
    requires account in h.accounts
  {
    if h.accounts[account].enforceBalance && !Affords(Balance(h, account), Held(h, account), amount)
    then Err(InsufficientFunds)
    else Ok(())
  }

  /** The month's spend, all unresolved holds and the new hold fit the budget. */
  ghost function BudgetGate(h: History, key: Id, month: int, amount: I64): Result<()>
    requires key in h.keys
  {
    var budget := h.keys[key].monthlyBudget * MICROS_PER_MINOR_UNIT;
    if h.keys[key].monthlyBudget <= 0 then Ok(())
    else if !Fits(budget) then Err(Invalid)
    else if !WithinBudget(Spent(h, key, month), KeyHeld(h, key), amount, budget) then Err(InsufficientFunds)
    else Ok(())
  }

  /** Funds, budget and room for the hold; then the reservation and its event. */
  ghost function Admit(h: History, q: ReserveRequest, model: Model, amount: I64, now: Instant)
    : Result<(History, Reservation)>
    requires q.project in h.accounts && q.key in h.keys
  {
    if BalanceGate(h, q.project, amount).Err? then Err(BalanceGate(h, q.project, amount).error)
    else if BudgetGate(h, q.key, now.month, amount).Err? then Err(BudgetGate(h, q.key, now.month, amount).error)
    else if !HoldRoom(h, q.project, q.key, amount) then Err(Internal)
    else
      Rewrite(h, Reservation(q, model, amount, None, Reserved, None),
              ReservationCreated(q.id, amount, model.priceVersion), now)
  }

  /** The project's reservation, looked up under its account lock. */
  function Locked(h: History, project: Id, id: Id): Result<Reservation> {
    if project in h.accounts && id in h.reservations && h.reservations[id].spec.project == project
    then Ok(h.reservations[id])
    else Err(NotFound)
  }

  /** A reservation row replaced together with the event that announces it. */
  function Rewrite(h: History, row: Reservation, e: Event, now: Instant): Result<(History, Reservation)> {
    match Append(h.(reservations := h.reservations[row.spec.id := row]), row.spec.project, e, now)
    case Err(error) => Err(error)
    case Ok(after) => Ok((after, row))
  }

  function Dispatch(h: History, project: Id, id: Id, now: Instant): Result<(History, Reservation)> {
    match Locked(h, project, id)
    case Err(error) => Err(error)
    case Ok(row) =>
      if row.state == Dispatched then Ok((h, row))
      else if row.state != Reserved then Err(Conflict)
      else Rewrite(h, row.(state := Dispatched), ReservationDispatched(id), now)
  }

  ghost function Release(h: History, project: Id, id: Id, reason: string, now: Instant)
    : Result<(History, Reservation)>
  {
    if reason != "not_dispatched" then Err(Invalid)
    else
      match Locked(h, project, id)
      case Err(error) => Err(error)
      case Ok(row) =>
        if row.state == Released then Ok((h, row))
        else if row.state != Reserved then Err(Conflict)
        else if !HoldRoom(h, project, row.spec.key, -(row.reserved as int)) then Err(Internal)
        else Rewrite(h, row.(state := Released, completion := Some(NotDispatched)), ReservationReleased(id), now)
  }

  predicate UnresolvedOk(q: UnresolvedRequest) {
    && Identifier(q.eventId)
    && (q.reason == "usage_missing" || q.reason == "usage_over_limit")
    && (q.reason == "usage_missing" ==> q.inputTokens == None && q.outputTokens == None)
    && (q.reason == "usage_over_limit" ==> q.inputTokens.Some? && q.outputTokens.Some?)
  }

  function ReportUnresolved(h: History, project: Id, id: Id, q: UnresolvedRequest, now: Instant)
    : Result<(History, Reservation)>
  {
    if !UnresolvedOk(q) then Err(Invalid)
    else
      match Locked(h, project, id)
      case Err(error) => Err(error)
      case Ok(row) =>
        if row.state == Settled || row.state == Waived then Ok((h, row))
        else if row.state != Dispatched then Err(Conflict)
        else if row.completion.Some? then
          if row.completion.value != Unresolved(q) then Err(Conflict) else Ok((h, row))
        else
          Rewrite(h, row.(completion := Some(Unresolved(q))), ReservationUnresolved(id, q), now)
  }

  predicate SettleRequestOk(q: SettleRequest) {
    && 0 <= q.inputTokens && 0 <= q.outputTokens && 0 <= q.latencyMs
    && Identifier(q.endpoint) && Identifier(q.region)
    && (q.status == "succeeded" || q.status == "cancelled" || q.status == "provider_error")
  }

  function UsageId(reservation: Id): Id {
    "evt-reservation-" + reservation
  }

  function SettlementKey(reservation: Id): string {
    "reservation:" + reservation
  }

  function SettledRow(row: Reservation, q: SettleRequest, amount: I64): Reservation {
    row.(settled := Some(amount), state := Settled, completion := Some(Usage(q)))
  }

  function SettledUsage(row: Reservation, q: SettleRequest, amount: I64, now: Instant): UsageEvent {
    UsageEvent(row.spec.requestId, row.spec.project, row.spec.key, row.spec.model, row.price.priceVersion,
               q.inputTokens, q.outputTokens, q.status, now, amount)
  }

  /** A settlement of known usage within the reserved bounds. */
  predicate SettlesWithin(row: Reservation, q: SettleRequest) {
    && row.state == Dispatched
    && q.inputTokens <= row.spec.inputLimit
    && q.outputTokens <= row.spec.outputLimit
  }

  /** The row is settled, answers a repeat of its own settlement, or refuses. */
  ghost function SettleLocked(h: History, row: Reservation, q: SettleRequest, now: Instant)
    : Result<(History, Reservation)>
  {
    if !SettleRequestOk(q) then Err(Invalid)
    else if row.state == Settled then
      if row.completion != Some(Usage(q)) then Err(Conflict) else Ok((h, row))
    else if !SettlesWithin(row, q) then Err(Conflict)
    else
      match UsageCost(row.price, q.inputTokens, q.outputTokens)
      case None => Err(Invalid)
      case Some(amount) => Charge(h, row, q, amount, now)
  }

  ghost function Charge(h: History, row: Reservation, q: SettleRequest, amount: I64, now: Instant)
    : Result<(History, Reservation)>
  {
    if !HoldRoom(h, row.spec.project, row.spec.key, -(row.reserved as int)) then Err(Internal)
    else if UsageId(row.spec.id) in h.usage then Err(Database)
    else if !(0 <= Spent(h, row.spec.key, now.month) + amount <= I64_MAX) then Err(Internal)
    else
      var metered := Metered(h, row, q, amount, now);
      match PostUsage(metered, row.spec.project, UsageId(row.spec.id), SettlementKey(row.spec.id), amount, now)
      case Err(error) => Err(error)
      case Ok(posted) =>
        match Append(posted, row.spec.project, ReservationSettled(row.spec.id, UsageId(row.spec.id), amount), now)
        case Err(error) => Err(error)
        case Ok(after) => Ok((after, SettledRow(row, q, amount)))
  }

  /** The usage event is in and the reservation is settled; nothing is posted. */
  function Metered(h: History, row: Reservation, q: SettleRequest, amount: I64, now: Instant): History {
    h.(usage := h.usage[UsageId(row.spec.id) := SettledUsage(row, q, amount, now)],
       reservations := h.reservations[row.spec.id := SettledRow(row, q, amount)])
  }

  /** Usage that costs nothing posts nothing. */
  ghost function PostUsage(h: History, project: Id, usageId: Id, idempotencyKey: string, amount: I64,
                           now: Instant): Result<History>
  {
    if 0 < amount
    then Post(h, project, UsageCharge, UsageRef(usageId), idempotencyKey, -amount, UsageRevenue, now)
    else Ok(h)
  }

  ghost function Settle(h: History, project: Id, id: Id, q: SettleRequest, now: Instant)
    : Result<(History, Reservation)>
  {
    match Locked(h, project, id)
    case Err(error) => Err(error)
    case Ok(row) => SettleLocked(h, row, q, now)
  }

  // ---- v1 metering --------------------------------------------------------

  predicate UsageReportOk(u: UsageReport) {
    && NonBlank(u.eventId) && NonBlank(u.requestId) && NonBlank(u.tenant) && NonBlank(u.project)
    && NonBlank(u.key) && NonBlank(u.model) && NonBlank(u.priceVersion) && NonBlank(u.status)
    && 0 <= u.inputTokens && 0 <= u.outputTokens && 0 <= u.cachedInputTokens && 0 <= u.latencyMs
  }

  predicate Chargeable(u: UsageReport) {
    u.status == "succeeded" && (0 < u.inputTokens || 0 < u.outputTokens)
  }

  /** Price of a report: the immutable price book, or nothing for failures. */
  function ReportCost(c: Catalog, u: UsageReport): Option<I64> {
    if !Chargeable(u) then Some(0)
    else if (u.model, u.priceVersion) !in c.prices then None
    else UsageCost(c.prices[(u.model, u.priceVersion)], u.inputTokens, u.outputTokens)
  }

  function ReportedUsage(u: UsageReport, cost: I64): UsageEvent {
    UsageEvent(u.requestId, u.project, u.key, u.model, u.priceVersion, u.inputTokens, u.outputTokens,
               u.status, u.occurredAt, cost)
  }

  function ReportKey(eventId: Id): string {
    "usage:" + eventId
  }

  /** True when the event was new; a replay changes nothing. */
  ghost function RecordUsage(h: History, u: UsageReport, now: Instant): Result<(History, bool)> {
    if !UsageReportOk(u) then Err(Invalid)
    else if u.key !in h.keys || h.keys[u.key].project != u.project || h.keys[u.key].tenant != u.tenant
    then Err(Invalid)
    else
      match ReportCost(h.catalog, u)
      case None => Err(Invalid)
      case Some(cost) =>
        if u.project !in h.accounts then Err(NotFound)
        else if ReservedRequest(h, u.project, u.requestId) then Err(Conflict)
        else if u.eventId in h.usage then Ok((h, false))
        else if !(0 <= Spent(h, u.key, u.occurredAt.month) + cost <= I64_MAX) then Err(Internal)
        else
          var metered := h.(usage := h.usage[u.eventId := ReportedUsage(u, cost)]);
          match PostUsage(metered, u.project, u.eventId, ReportKey(u.eventId), cost, now)
          case Err(error) => Err(error)
          case Ok(after) => Ok((after, true))
  }
}
