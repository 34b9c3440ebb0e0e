/**
 The broker outbox: one row per reply, claimed with an incrementing token by any number of
 publishers. A publisher that lost its lease keeps running with the copy it took.
 */
module OutboxMachine {
  import opened Common

  type RowId = nat

  datatype OutboxStatus = Pending | Processing | Sent | Failed | Skipped

  datatype OutboxRow = OutboxRow(
    task: nat,
    ingress: nat,
    status: OutboxStatus,
    body: Option<string>,
    routing: seq<string>,
    attempts: nat,
    token: nat,
    createdAt: int,
    updatedAt: int)

  /** A claim is named by the row and the token it got. */
  datatype ClaimKey = ClaimKey(row: RowId, token: nat)

  datatype Phase =
    | Claimed
    | Drafted(draft: string, queues: seq<string>)
    | Publishing(reply: string, targets: seq<string>, done: nat)

  /** The publisher's copy of the row at claim time, and where it is in its work. */
  datatype Claim = Claim(body: Option<string>, routing: seq<string>, phase: Phase)

  datatype Message = Message(key: ClaimKey, queue: string, body: string)

  datatype Outbox = Outbox(
    now: int,
    limit: int,                       // max_attempts
    rows: map<RowId, OutboxRow>,
    claims: map<ClaimKey, Claim>,
    log: seq<Message>)                // every publish ever made

  datatype Step =
    | Tick(elapsed: int)
    | Create(id: RowId, task: nat, ingress: nat)
    | Take(ids: set<RowId>, limit: nat, stale: int)
    | Draft(key: ClaimKey, body: string, routing: seq<string>)
    | Store(key: ClaimKey)
    | Resume(key: ClaimKey)
    | Publish(key: ClaimKey)
    | MarkSent(key: ClaimKey)
    | Skip(key: ClaimKey)
    | Fail(key: ClaimKey)
    | Vanish(key: ClaimKey)           // the publisher died

  predicate Settled(status: OutboxStatus) {
    status in {Sent, Failed, Skipped}
  }

  predicate Claimable(row: OutboxRow, now: int, stale: int) {
    row.status == Pending || (row.status == Processing && row.updatedAt < now - stale)
  }

  function ClaimableIds(s: Outbox, stale: int): set<RowId> {
    set id | id in s.rows && Claimable(s.rows[id], s.now, stale)
  }

  /** `_owned_processing`: the guard of every update after the claim. */
  predicate Owns(s: Outbox, key: ClaimKey) {
    key.row in s.rows && s.rows[key.row].status == Processing && s.rows[key.row].token == key.token
  }

  function ClaimRow(row: OutboxRow, now: int): OutboxRow {
    row.(status := Processing, token := row.token + 1, updatedAt := now)
  }

  function ClaimRows(s: Outbox, ids: set<RowId>): map<RowId, OutboxRow> {
    map id | id in s.rows :: if id in ids then ClaimRow(s.rows[id], s.now) else s.rows[id]
  }

  function ClaimsFor(s: Outbox, ids: set<RowId>): map<ClaimKey, Claim>
    requires ids <= s.rows.Keys
  {
    map id | id in ids :: ClaimKey(id, s.rows[id].token + 1) := Claim(s.rows[id].body, s.rows[id].routing, Claimed)
  }

  function StoreReply(s: Outbox, key: ClaimKey, body: string, routing: seq<string>): map<RowId, OutboxRow> {
    if Owns(s, key)
    then s.rows[key.row := s.rows[key.row].(body := Some(body), routing := routing, updatedAt := s.now)]
    else s.rows
  }

  function SetStatus(s: Outbox, key: ClaimKey, status: OutboxStatus): map<RowId, OutboxRow> {
    if Owns(s, key) then s.rows[key.row := s.rows[key.row].(status := status, updatedAt := s.now)] else s.rows
  }

  function RecordFailure(s: Outbox, key: ClaimKey): map<RowId, OutboxRow> {
    if Owns(s, key) then
      var row := s.rows[key.row];
      s.rows[key.row := row.(attempts := row.attempts + 1, updatedAt := s.now,
        status := if row.attempts + 1 >= s.limit then Failed else Pending)]
    else s.rows
  }

  ghost predicate Enabled(s: Outbox, step: Step) {
    match step
    case Tick(elapsed) => elapsed > 0
    case Create(id, task, _) => id !in s.rows && forall r :: r in s.rows ==> s.rows[r].task != task
    case Take(ids, limit, stale) => ids <= ClaimableIds(s, stale) && |ids| <= limit
    case Draft(key, _, routing) =>
      key in s.claims && s.claims[key].phase.Claimed? && s.claims[key].body.None? && routing != []
    case Store(key) => key in s.claims && s.claims[key].phase.Drafted?
    case Resume(key) => key in s.claims && s.claims[key].phase.Claimed? && s.claims[key].body.Some?
    case Publish(key) =>
      key in s.claims && s.claims[key].phase.Publishing?
      && s.claims[key].phase.done < |s.claims[key].phase.targets|
    case MarkSent(key) =>
      key in s.claims && s.claims[key].phase.Publishing?
      && s.claims[key].phase.done == |s.claims[key].phase.targets|
    case Skip(key) => key in s.claims && s.claims[key].phase.Claimed?
    case Fail(key) => key in s.claims
    case Vanish(key) => key in s.claims
  }

  ghost function Apply(s: Outbox, step: Step): Outbox
    requires Enabled(s, step)
  {
    match step
    case Tick(elapsed) => s.(now := s.now + elapsed)
    case Create(id, task, ingress) =>
      s.(rows := s.rows[id := OutboxRow(task, ingress, Pending, None, [], 0, 0, s.now, s.now)])
    case Take(ids, _, _) => s.(rows := ClaimRows(s, ids), claims := s.claims + ClaimsFor(s, ids))
    case Draft(key, body, routing) =>
      s.(claims := s.claims[key := s.claims[key].(phase := Drafted(body, routing))])
    case Store(key) =>
      var phase := s.claims[key].phase;
      s.(rows := StoreReply(s, key, phase.draft, phase.queues),
         claims := if Owns(s, key)
                   then s.claims[key := s.claims[key].(phase := Publishing(phase.draft, phase.queues, 0))]
                   else s.claims - {key})
    case Resume(key) =>
      var claim := s.claims[key];
      s.(claims := s.claims[key := claim.(phase := Publishing(claim.body.value, claim.routing, 0))])
    case Publish(key) =>
      var phase := s.claims[key].phase;
      s.(log := s.log + [Message(key, phase.targets[phase.done], phase.reply)],
         claims := s.claims[key := s.claims[key].(phase := phase.(done := phase.done + 1))])
    case MarkSent(key) => s.(rows := SetStatus(s, key, Sent), claims := s.claims - {key})
    case Skip(key) => s.(rows := SetStatus(s, key, Skipped), claims := s.claims - {key})
    case Fail(key) => s.(rows := RecordFailure(s, key), claims := s.claims - {key})
    case Vanish(key) => s.(claims := s.claims - {key})
  }

  function Init(limit: int): Outbox {
    Outbox(0, limit, map[], map[], [])
  }

  ghost predicate IsRun(s: Outbox, steps: seq<Step>)
    decreases |steps|
  {
    steps != [] ==> Enabled(s, steps[0]) && IsRun(Apply(s, steps[0]), steps[1..])
  }

  ghost function Exec(s: Outbox, steps: seq<Step>): Outbox
    requires IsRun(s, steps)
    decreases |steps|
  {
    if steps == [] then s else Exec(Apply(s, steps[0]), steps[1..])
  }

  /** The queues one claim published to, in order. */
  function PublishedBy(log: seq<Message>, key: ClaimKey): seq<string> {
    if log == [] then []
    else
      var rest := PublishedBy(log[..|log| - 1], key);
      if log[|log| - 1].key == key then rest + [log[|log| - 1].queue] else rest
  }
}
