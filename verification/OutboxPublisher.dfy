/** The outbox table as an object, and one publishing pass of `publish_pending_outbox` over it. */
module OutboxPublisher {
  import opened Common
  import opened Text
  import opened OutboxMachine
  import opened Claims

  // ---- routing -----------------------------------------------------------------

  function NonBlank(cx: Chars, queues: seq<string>): seq<string> {
    if queues == [] then []
    else (if Strip(cx, queues[0]) != "" then [queues[0]] else []) + NonBlank(cx, queues[1..])
  }

  function ResolveRoutingQueues(cx: Chars, drafted: seq<string>, replyTo: Option<string>, outputs: seq<string>)
    : seq<string>
  {
    if drafted != [] then NonBlank(cx, drafted)
    else if replyTo.Some? && Strip(cx, replyTo.value) != "" then [Strip(cx, replyTo.value)]
    else NonBlank(cx, outputs)
  }

  lemma {:induction false} NonBlankKeeps(cx: Chars, queues: seq<string>, q: string)
    ensures q in NonBlank(cx, queues) <==> q in queues && Strip(cx, q) != ""
  {
    if queues == [] {
    } else {
      NonBlankKeeps(cx, queues[1..], q);
      assert queues == [queues[0]] + queues[1..];
    }
  }

  /**
   No blank queue is ever routed to, and the draft's own list shuts out both fallbacks even when all
   of it is blank.
   */
  lemma RoutingIsNeverBlank(cx: Chars, drafted: seq<string>, replyTo: Option<string>, outputs: seq<string>, q: string)
    requires q in ResolveRoutingQueues(cx, drafted, replyTo, outputs)
    ensures Strip(cx, q) != ""
    ensures drafted != [] ==> q in drafted
    ensures drafted == [] && replyTo.Some? && Strip(cx, replyTo.value) != "" ==> q == Strip(cx, replyTo.value)
  {
    NonBlankKeeps(cx, drafted, q);
    NonBlankKeeps(cx, outputs, q);
    if drafted == [] && replyTo.Some? {
      StripIsTrimmed(cx, replyTo.value);
      assert "" + Strip(cx, replyTo.value) + "" == Strip(cx, replyTo.value);
      StripUndoesPadding(cx, "", Strip(cx, replyTo.value), "");
    }
  }

  /** Filtering goes queue by queue, in order. */
  lemma {:induction false} NonBlankAppends(cx: Chars, a: seq<string>, b: seq<string>)
    ensures NonBlank(cx, a + b) == NonBlank(cx, a) + NonBlank(cx, b)
  {
    if a == [] {
      assert a + b == b;
    } else {
      assert (a + b)[0] == a[0] && (a + b)[1..] == a[1..] + b;
      NonBlankAppends(cx, a[1..], b);
    }
  }

  lemma OneQueue(cx: Chars, q: string)
    ensures NonBlank(cx, [q]) == if Strip(cx, q) == "" then [] else [q]
  {
    assert [q][1..] == [];
  }

  /**
   A reply goes to exactly the non-blank queues of its draft; without a draft list to the reply address,
   or to the outputs.
   */
  lemma ResolvedQueuesAre(cx: Chars, drafted: seq<string>, replyTo: Option<string>, outputs: seq<string>)
    ensures var queues := ResolveRoutingQueues(cx, drafted, replyTo, outputs);
            var address := if replyTo == None then "" else Strip(cx, replyTo.value);
            && (drafted != [] ==> forall q :: q in queues <==> q in drafted && Strip(cx, q) != "")
            && (drafted == [] && address != "" ==> queues == [address])
            && (drafted == [] && address == "" ==> forall q :: q in queues <==> q in outputs && Strip(cx, q) != "")
  {
    forall q ensures q in NonBlank(cx, drafted) <==> q in drafted && Strip(cx, q) != "" {
      NonBlankKeeps(cx, drafted, q);
    }
    forall q ensures q in NonBlank(cx, outputs) <==> q in outputs && Strip(cx, q) != "" {
      NonBlankKeeps(cx, outputs, q);
    }
  }

  /** Every queue a reply could go to is blank. */
  predicate RoutesNowhere(cx: Chars, drafted: seq<string>, replyTo: Option<string>, outputs: seq<string>) {
    if drafted != [] then forall q :: q in drafted ==> Strip(cx, q) == ""
    else (replyTo == None || Strip(cx, replyTo.value) == "") && forall q :: q in outputs ==> Strip(cx, q) == ""
  }

  lemma RoutesNowhereIff(cx: Chars, drafted: seq<string>, replyTo: Option<string>, outputs: seq<string>)
    ensures ResolveRoutingQueues(cx, drafted, replyTo, outputs) == []
            <==> RoutesNowhere(cx, drafted, replyTo, outputs)
  {
    ResolvedQueuesAre(cx, drafted, replyTo, outputs);
    var queues := ResolveRoutingQueues(cx, drafted, replyTo, outputs);
    if queues != [] {
      assert queues[0] in queues;
    }
  }

  // ---- which rows a claim takes ------------------------------------------------------

  /** `ORDER BY created_at, id`. */
  function Older(rows: map<RowId, OutboxRow>): Claims.Order {
    (a: nat, b: nat) =>
      && a in rows && b in rows
      && (rows[a].createdAt < rows[b].createdAt || (rows[a].createdAt == rows[b].createdAt && a < b))
  }

  lemma OlderLines(rows: map<RowId, OutboxRow>, ids: set<RowId>)
    requires ids <= rows.Keys
    ensures Lines(Older(rows), ids)
  {
  }

  /** A row that waits for a publisher, or whose publisher was last seen before `since`. */
  predicate Unattended(row: OutboxRow, since: int) {
    match row.status
    case Pending => true
    case Processing => row.updatedAt < since
    case _ => false
  }

  lemma ClaimableIff(row: OutboxRow, now: int, stale: int)
    ensures Claimable(row, now, stale) <==> Unattended(row, now - stale)
  {
  }

  lemma UnattendedAreClaimed(s: Outbox, stale: int, locked: set<RowId>, max: nat, ids: set<RowId>)
    requires FrontOf(Older(s.rows), ClaimableIds(s, stale) - locked, max, ids)
    ensures forall id :: id in ids ==> id in s.rows && id !in locked && Unattended(s.rows[id], s.now - stale)
    ensures |ids| < max ==>
              forall id :: id in s.rows && id !in locked && Unattended(s.rows[id], s.now - stale) ==> id in ids
  {
    var eligible := ClaimableIds(s, stale) - locked;
    if |ids| < max {
      ShortFrontTakesAll(Older(s.rows), eligible, max, ids);
    }
    forall id | id in s.rows
      ensures id in eligible <==> id !in locked && Unattended(s.rows[id], s.now - stale)
    {
      ClaimableIff(s.rows[id], s.now, stale);
    }
  }

  /** Each claimed row is PROCESSING under a new token, which it now shares with nobody; no other row changed. */
  ghost predicate ClaimedAnew(s: Outbox, t: Outbox, claimed: set<RowId>) {
    && t.now == s.now && t.limit == s.limit && t.log == s.log && t.rows.Keys == s.rows.Keys && claimed <= s.rows.Keys
    && (forall id :: id in s.rows && id !in claimed ==> t.rows[id] == s.rows[id])
    && (forall id :: id in claimed ==>
          && t.rows[id] == s.rows[id].(status := Processing, token := s.rows[id].token + 1, updatedAt := s.now)
          && (forall token :: Owns(t, ClaimKey(id, token)) <==> token == s.rows[id].token + 1))
  }

  // ---- one claimed row -----------------------------------------------------------

  /** What the plugin side answers for a claimed row. */
  datatype Egress =
    | LoadFails                    // task or ingress row missing
    | NoPlugin                     // no hooks or settings registered
    | HookRaises
    | NoReply
    | Reply(body: string, drafted: seq<string>, replyTo: Option<string>, outputs: seq<string>)

  /** The claim's copy of its row. */
  datatype Held = Held(key: ClaimKey, body: Option<string>, routing: seq<string>)

  /** What a turn does before it publishes; `store` says whether the reply is new. */
  datatype Opening = GiveUp | LetGo | Send(body: string, queues: seq<string>, store: bool)

  function Open(cx: Chars, held: Held, egress: Egress): Opening {
    match egress
    case LoadFails => GiveUp
    case NoPlugin => LetGo
    case HookRaises => if held.body.Some? then Send(held.body.value, held.routing, false) else GiveUp
    case NoReply => if held.body.Some? then Send(held.body.value, held.routing, false) else LetGo
    case Reply(body, drafted, replyTo, outputs) =>
      if held.body.Some? then Send(held.body.value, held.routing, false)
      else
        var queues := ResolveRoutingQueues(cx, drafted, replyTo, outputs);
        if queues == [] then LetGo else Send(body, queues, true)
  }

  function OpenedRows(s: Outbox, key: ClaimKey, opening: Opening): map<RowId, OutboxRow> {
    match opening
    case GiveUp => RecordFailure(s, key)
    case LetGo => SetStatus(s, key, Skipped)
    case Send(body, queues, store) => if store then StoreReply(s, key, body, queues) else s.rows
  }

  /** A turn that lost its lease before it stored its reply goes no further. */
  predicate GoesOn(s: Outbox, key: ClaimKey, opening: Opening) {
    opening.Send? && (opening.store ==> Owns(s, key))
  }

  /** The queues published to when the `fuse`-th publish raises. */
  function Reached(queues: seq<string>, fuse: nat): seq<string> {
    if fuse < |queues| then queues[..fuse] else queues
  }

  /** What other publishers made of the outbox between this one's two transactions. */
  function Meanwhile(s: Outbox, others: Option<Outbox>): Outbox {
    match others
    case Some(t) => t
    case None => s
  }

  function Published(s: Outbox, key: ClaimKey, send: Opening, fuse: nat): Outbox
    requires send.Send?
  {
    s.(log := s.log + Messages(key, Reached(send.queues, fuse), send.body),
       rows := if fuse >= |send.queues| then SetStatus(s, key, Sent) else RecordFailure(s, key))
  }

  /** A turn and whether it counts as sent. The lease may be lost before it, or to `others` while it publishes. */
  function Turn(cx: Chars, s: Outbox, held: Held, egress: Egress, fuse: nat, others: Option<Outbox>): (Outbox, bool) {
    var opening := Open(cx, held, egress);
    var s1 := s.(rows := OpenedRows(s, held.key, opening));
    if GoesOn(s, held.key, opening) then
      var s2 := Meanwhile(s1, others);
      (Published(s2, held.key, opening, fuse), fuse >= |opening.queues| && Owns(s2, held.key))
    else (s1, false)
  }

  /** A turn that does not own its row writes no row; it publishes only a reply that its claim found stored. */
  lemma LostLeaseWritesNothing(cx: Chars, s: Outbox, held: Held, egress: Egress, fuse: nat, others: Option<Outbox>)
    requires !Owns(s, held.key) && (others.Some? ==> !Owns(others.value, held.key))
    ensures var (t, sent) := Turn(cx, s, held, egress, fuse, others);
            && !sent
            && (t.rows == s.rows || (others.Some? && t.rows == others.value.rows))
            && (held.body.None? ==> t == s)
  {
  }

  /** The row of an owned, undisturbed turn, and the queues published to. */
  function Outcome(cx: Chars, row: OutboxRow, egress: Egress, fuse: nat, limit: int, now: int)
    : (OutboxRow, seq<string>)
  {
    var failed := row.(attempts := row.attempts + 1, updatedAt := now,
                       status := if row.attempts + 1 >= limit then Failed else Pending);
    match Open(cx, Held(ClaimKey(0, row.token), row.body, row.routing), egress)
    case GiveUp => (failed, [])
    case LetGo => (row.(status := Skipped, updatedAt := now), [])
    case Send(body, queues, _) =>
      var stored := if fuse < |queues| then failed else row.(status := Sent, updatedAt := now);
      (stored.(body := Some(body), routing := queues), Reached(queues, fuse))
  }

  /**
   An undisturbed turn ends its claim: SENT exactly when every queue of the stored list was published,
   a stored reply is kept, and no blank queue enters a new list.
   */
  lemma OutcomeEndsClaim(cx: Chars, row: OutboxRow, egress: Egress, fuse: nat, limit: int, now: int)
    requires row.status == Processing && (row.body.Some? ==> row.routing != [])
    ensures var (row', published) := Outcome(cx, row, egress, fuse, limit, now);
            && row'.status != Processing && row'.token == row.token
            && (row.body.Some? ==> row'.body == row.body && row'.routing == row.routing)
            && (row'.status == Sent <==> row'.body.Some? && published == row'.routing && published != [])
            && (published != [] ==> row'.body.Some? && published <= row'.routing)
            && (row'.attempts != row.attempts <==> row'.status in {Pending, Failed})
            && (row.body.None? && row'.body.Some? ==> forall q :: q in row'.routing ==> Strip(cx, q) != "")
  {
    if egress.Reply? {
      forall q | q in ResolveRoutingQueues(cx, egress.drafted, egress.replyTo, egress.outputs)
        ensures Strip(cx, q) != ""
      {
        RoutingIsNeverBlank(cx, egress.drafted, egress.replyTo, egress.outputs, q);
      }
    }
  }

  /** The plugin side leaves nothing to send for the row. */
  predicate NothingToSend(cx: Chars, row: OutboxRow, egress: Egress) {
    || egress == NoPlugin
    || (row.body == None && egress == NoReply)
    || (row.body == None && egress.Reply? && RoutesNowhere(cx, egress.drafted, egress.replyTo, egress.outputs))
  }

  /** The plugin side fails before anything is sent. */
  predicate FailsBefore(row: OutboxRow, egress: Egress) {
    egress == LoadFails || (row.body == None && egress == HookRaises)
  }

  /** The queues the row is to be sent to: the stored ones, or those its new reply resolves to. */
  function QueuesFor(cx: Chars, row: OutboxRow, egress: Egress): seq<string> {
    if row.body.None? && egress.Reply?
    then ResolveRoutingQueues(cx, egress.drafted, egress.replyTo, egress.outputs)
    else row.routing
  }

  /**
   What an owned, undisturbed turn makes of its row and of the log, by the plugin's answer and the stored body. SKIPPED
   exactly if there is nothing to send; one more attempt, and FAILED exactly at the limit, exactly if the plugin
   side or a publish fails; otherwise SENT.
   */
  ghost predicate TurnVerdict(cx: Chars, s: Outbox, t: Outbox, held: Held, egress: Egress, fuse: nat, sent: bool) {
    var id := held.key.row;
    id in s.rows && t.rows.Keys == s.rows.Keys && t.now == s.now && t.limit == s.limit &&
    var row, row', queues := s.rows[id], t.rows[id], QueuesFor(cx, s.rows[id], egress);
    var starts := !NothingToSend(cx, row, egress) && !FailsBefore(row, egress);
    var fails := FailsBefore(row, egress) || (starts && fuse < |queues|);
    && (row'.status == Skipped <==> NothingToSend(cx, row, egress))
    && row'.attempts == row.attempts + (if fails then 1 else 0)
    && (fails ==> row'.status == if row.attempts + 1 >= s.limit then Failed else Pending)
    && (row'.status == Sent <==> starts && !fails) && (sent <==> starts && !fails)
    && row'.body == (if row.body.None? && starts then Some(egress.body) else row.body)
    && row'.routing == (if row.body.None? && starts then queues else row.routing)
    && PublishedBy(t.log, held.key)
       == PublishedBy(s.log, held.key) + (if !starts then [] else if fuse < |queues| then queues[..fuse] else queues)
    && (forall other :: other in s.rows && other != id ==> t.rows[other] == s.rows[other])
  }

  lemma UndisturbedTurnVerdict(cx: Chars, s: Outbox, held: Held, egress: Egress, fuse: nat)
    requires FreshlyHeld(s, held)
    ensures var (t, sent) := Turn(cx, s, held, egress, fuse, None); TurnVerdict(cx, s, t, held, egress, fuse, sent)
  {
    if egress.Reply? { RoutesNowhereIff(cx, egress.drafted, egress.replyTo, egress.outputs); }
    UndisturbedTurn(cx, s, held, egress, fuse);
    var (row, published) := Outcome(cx, s.rows[held.key.row], egress, fuse, s.limit, s.now);
    if row.body.Some? {
      MessagesArePublished(s.log, held.key, published, row.body.value);
    } else {
      assert s.log + [] == s.log;
    }
    assert PublishedBy(s.log, held.key) + [] == PublishedBy(s.log, held.key);
  }

  predicate FreshlyHeld(s: Outbox, held: Held) {
    Owns(s, held.key) && held.body == s.rows[held.key.row].body && held.routing == s.rows[held.key.row].routing
  }

  lemma UndisturbedTurn(cx: Chars, s: Outbox, held: Held, egress: Egress, fuse: nat)
    requires FreshlyHeld(s, held)
    ensures var (row, published) := Outcome(cx, s.rows[held.key.row], egress, fuse, s.limit, s.now);
            && Turn(cx, s, held, egress, fuse, None).1 == (row.status == Sent)
            && Turn(cx, s, held, egress, fuse, None).0
               == s.(rows := s.rows[held.key.row := row],
                     log := s.log + if row.body.Some? then Messages(held.key, published, row.body.value) else [])
  {
    var row := s.rows[held.key.row];
    assert Open(cx, held, egress) == Open(cx, Held(ClaimKey(0, row.token), row.body, row.routing), egress);
    if !Open(cx, held, egress).Send? && row.body.Some? {
      assert Messages(held.key, [], row.body.value) == [];
    }
    assert s.log + [] == s.log;
  }

  class BrokerOutbox {
    var now: int
    var limit: int
    var rows: map<RowId, OutboxRow>
    var log: seq<Message>

    function View(): Outbox
      reads this
    {
      Outbox(now, limit, rows, map[], log)
    }

    constructor (limit: int)
      ensures View() == Init(limit)
    {
      now, rows, log := 0, map[], [];
      this.limit := limit;
    }

    /** `locked` are the rows other transactions hold at this moment. */
    method ClaimPendingOutbox(max: nat, stale: int, locked: set<RowId>) returns (claimed: map<RowId, Held>)
      modifies this`rows
      ensures FrontOf(Older(old(rows)), ClaimableIds(old(View()), stale) - locked, max, claimed.Keys)
      ensures ClaimedAnew(old(View()), View(), claimed.Keys) && rows == ClaimRows(old(View()), claimed.Keys)
      ensures HeldAs(old(View()), claimed)
      ensures forall id :: id in claimed ==> id in old(rows) && id !in locked && Unattended(old(rows)[id], now - stale)
      ensures |claimed| < max ==>
                forall id :: id in old(rows) && id !in locked && Unattended(old(rows)[id], now - stale) ==>
                  id in claimed
    {
      var eligible := ClaimableIds(View(), stale) - locked;
      OlderLines(rows, eligible);
      var ids := Front(Older(rows), eligible, max);
      FrontIsFrontOf(Older(rows), eligible, max);
      UnattendedAreClaimed(View(), stale, locked, max, ids);
      claimed := TakeRows(ids);
    }

    /** `UPDATE ... WHERE id IN (ids) RETURNING ...`. */
    method TakeRows(ids: set<RowId>) returns (claimed: map<RowId, Held>)
      requires ids <= rows.Keys
      modifies this`rows
      ensures claimed.Keys == ids && ClaimedAnew(old(View()), View(), ids) && rows == ClaimRows(old(View()), ids)
      ensures HeldAs(old(View()), claimed)
    {
      var taken := map id | id in ids ::
        rows[id].(status := Processing, token := rows[id].token + 1, updatedAt := now);
      rows := rows + taken;
      claimed := map id | id in ids :: Held(ClaimKey(id, rows[id].token), rows[id].body, rows[id].routing);
    }

    method MarkOutboxSkipped(key: ClaimKey) returns (owned: bool)
      modifies this`rows
      ensures owned <==> && key.row in old(rows) && old(rows)[key.row].status == Processing
                         && old(rows)[key.row].token == key.token
      ensures rows == SetStatus(old(View()), key, Skipped)
      ensures rows == if owned then old(rows)[key.row := old(rows)[key.row].(status := Skipped, updatedAt := now)]
                      else old(rows)
    {
      owned := Owns(View(), key);
      if owned { rows := rows[key.row := rows[key.row].(status := Skipped, updatedAt := now)]; }
    }

    method StoreOutboxReply(key: ClaimKey, body: string, routing: seq<string>) returns (owned: bool)
      modifies this`rows
      ensures owned <==> && key.row in old(rows) && old(rows)[key.row].status == Processing
                         && old(rows)[key.row].token == key.token
      ensures rows == StoreReply(old(View()), key, body, routing)
      ensures !owned ==> rows == old(rows)
      ensures owned ==>
                var row := old(rows)[key.row];
                rows == old(rows)[key.row := row.(body := Some(body), routing := routing, updatedAt := now)]
    {
      owned := Owns(View(), key);
      if owned { rows := rows[key.row := rows[key.row].(body := Some(body), routing := routing, updatedAt := now)]; }
    }

    method MarkOutboxSent(key: ClaimKey) returns (owned: bool)
      modifies this`rows
      ensures owned <==> && key.row in old(rows) && old(rows)[key.row].status == Processing
                         && old(rows)[key.row].token == key.token
      ensures rows == SetStatus(old(View()), key, Sent)
      ensures rows == if owned then old(rows)[key.row := old(rows)[key.row].(status := Sent, updatedAt := now)]
                      else old(rows)
    {
      owned := Owns(View(), key);
      if owned { rows := rows[key.row := rows[key.row].(status := Sent, updatedAt := now)]; }
    }

    method MarkOutboxPublishFailure(key: ClaimKey) returns (owned: bool)
      modifies this`rows
      ensures owned <==> && key.row in old(rows) && old(rows)[key.row].status == Processing
                         && old(rows)[key.row].token == key.token
      ensures rows == RecordFailure(old(View()), key)
      ensures !owned ==> rows == old(rows)
      ensures owned ==>
                var row := old(rows)[key.row];
                var status := if row.attempts + 1 >= limit then Failed else Pending;
                rows == old(rows)[key.row := row.(attempts := row.attempts + 1, updatedAt := now, status := status)]
    {
      owned := Owns(View(), key);
      if owned {
        var row := rows[key.row];
        var status := if row.attempts + 1 >= limit then Failed else Pending;
        rows := rows[key.row := row.(attempts := row.attempts + 1, updatedAt := now, status := status)];
      }
    }

    /** Fail-fast fan-out: the publish number `fuse` raises. */
    method PublishAllQueues(key: ClaimKey, queues: seq<string>, body: string, fuse: nat) returns (ok: bool)
      modifies this`log
      ensures ok <==> fuse >= |queues|
      ensures log == old(log) + Messages(key, Reached(queues, fuse), body)
    {
      for i := 0 to |queues|
        invariant i <= fuse
        invariant log == old(log) + Messages(key, queues[..i], body)
      {
        if i == fuse {
          return false;
        }
        log := log + [Message(key, queues[i], body)];
        MessagesGrow(key, queues, body, i);
      }
      assert queues[..|queues|] == queues;
      ok := true;
    }

    /** Other publishers' transactions and publishes, as far as this one can see them. */
    method LetOthersRun(others: Option<Outbox>)
      modifies this
      ensures others.Some? ==> View() == others.value.(claims := map[])
      ensures others.None? ==> View() == old(View())
    {
      if others.Some? {
        now, limit, rows, log := others.value.now, others.value.limit, others.value.rows, others.value.log;
      }
    }

    /** What `Turn` makes of the tables; claims are the publishers' own. */
    ghost predicate TurnTaken(before: Outbox, sent: bool, cx: Chars, held: Held, egress: Egress, fuse: nat,
                              others: Option<Outbox>)
      reads this
    {
      var (t, ok) := Turn(cx, before, held, egress, fuse, others);
      View() == t.(claims := map[]) && sent == ok
    }

    /** The body of the loop of `publish_pending_outbox` for one claimed row, whether or not its lease still holds. */
    method ProcessClaimed(cx: Chars, held: Held, egress: Egress, fuse: nat, others: Option<Outbox>) returns (sent: bool)
      modifies this
      ensures TurnTaken(old(View()), sent, cx, held, egress, fuse, others)
    {
      var key := held.key;
      sent := false;
      if egress.LoadFails? {
        var _ := MarkOutboxPublishFailure(key);
        return;
      }
      if egress.NoPlugin? {
        var _ := MarkOutboxSkipped(key);
        return;
      }
      var body, queues := held.body, held.routing;
      if body.None? {
        if egress.HookRaises? {
          var _ := MarkOutboxPublishFailure(key);
          return;
        }
        if egress.NoReply? {
          var _ := MarkOutboxSkipped(key);
          return;
        }
        queues := ResolveRoutingQueues(cx, egress.drafted, egress.replyTo, egress.outputs);
        if queues == [] {
          var _ := MarkOutboxSkipped(key);
          return;
        }
        var stored := StoreOutboxReply(key, egress.body, queues);
        if !stored {
          return;
        }
        body := Some(egress.body);
      }
      sent := PublishAndMark(key, queues, body.value, fuse, others);
    }

    method PublishAndMark(key: ClaimKey, queues: seq<string>, body: string, fuse: nat, others: Option<Outbox>)
      returns (sent: bool)
      modifies this
      ensures var s := Meanwhile(old(View()), others);
              && View() == Published(s, key, Send(body, queues, false), fuse).(claims := map[])
              && sent == (fuse >= |queues| && Owns(s, key))
    {
      LetOthersRun(others);
      var ok := PublishAllQueues(key, queues, body, fuse);
      if ok {
        sent := MarkOutboxSent(key);
      } else {
        var _ := MarkOutboxPublishFailure(key);
        sent := false;
      }
    }

    /**
     One pass: claim, then a turn for every claimed row, in the order the database returned them. Others may
     run before each turn and inside it.
     */
    method PublishPendingOutbox(cx: Chars, max: nat, stale: int, locked: set<RowId>, plan: RowId -> TurnPlan)
      returns (sent: nat, claimed: map<RowId, Held>, order: seq<RowId>)
      modifies this
      ensures FrontOf(Older(old(rows)), ClaimableIds(old(View()), stale) - locked, max, claimed.Keys)
      ensures HeldAs(old(View()), claimed) && Enumerates(order, claimed.Keys)
      ensures (View(), sent)
           == Pass(cx, old(View()).(rows := ClaimRows(old(View()), claimed.Keys)), claimed, order, plan)
    {
      claimed := ClaimPendingOutbox(max, stale, locked);
      order := Listed(claimed.Keys);
      sent := TakeTurns(cx, claimed, order, plan);
    }

    method TakeTurn(cx: Chars, held: Held, turn: TurnPlan) returns (ok: bool)
      modifies this
      ensures (View(), ok) == PassTurn(cx, old(View()), held, turn)
    {
      LetOthersRun(turn.before);
      ok := ProcessClaimed(cx, held, turn.egress, turn.fuse, turn.during);
    }

    method TakeTurns(cx: Chars, claimed: map<RowId, Held>, order: seq<RowId>, plan: RowId -> TurnPlan)
      returns (sent: nat)
      requires forall i :: 0 <= i < |order| ==> order[i] in claimed
      modifies this
      ensures (View(), sent) == Pass(cx, old(View()), claimed, order, plan)
    {
      sent := 0;
      for i := 0 to |order|
        invariant (View(), sent) == Pass(cx, old(View()), claimed, order[..i], plan)
      {
        assert order[..i + 1][..i] == order[..i];
        var ok := TakeTurn(cx, claimed[order[i]], plan(order[i]));
        if ok { sent := sent + 1; }
      }
      assert order[..|order|] == order;
    }
  }

  // ---- a pass -------------------------------------------------------------------------

  /** What one turn meets: the others before it, the plugin's answer, the publish that raises, the others during it. */
  datatype TurnPlan = TurnPlan(before: Option<Outbox>, egress: Egress, fuse: nat, during: Option<Outbox>)

  function HeldAfterClaim(s: Outbox, id: RowId): Held
    requires id in s.rows
  {
    Held(ClaimKey(id, s.rows[id].token + 1), s.rows[id].body, s.rows[id].routing)
  }

  /** The claims hold the rows as they were before, each under its next token. */
  predicate HeldAs(s: Outbox, claimed: map<RowId, Held>) {
    claimed.Keys <= s.rows.Keys && forall id :: id in claimed ==> claimed[id] == HeldAfterClaim(s, id)
  }

  predicate Enumerates(order: seq<RowId>, ids: set<RowId>) {
    && |order| == |ids| && (forall i :: 0 <= i < |order| ==> order[i] in ids)
    && (forall i, j :: 0 <= i < j < |order| ==> order[i] != order[j])
  }

  method Listed(ids: set<RowId>) returns (order: seq<RowId>)
    ensures Enumerates(order, ids)
  {
    order := [];
    var left := ids;
    while left != {}
      invariant left <= ids && Enumerates(order, ids - left)
    {
      var id :| id in left;
      assert ids - (left - {id}) == ids - left + {id};
      order, left := order + [id], left - {id};
    }
    assert ids - left == ids;
  }

  function PassTurn(cx: Chars, s: Outbox, held: Held, turn: TurnPlan): (Outbox, bool) {
    var (t, ok) := Turn(cx, Meanwhile(s, turn.before), held, turn.egress, turn.fuse, turn.during);
    (t.(claims := map[]), ok)
  }

  function Pass(cx: Chars, s: Outbox, claimed: map<RowId, Held>, order: seq<RowId>, plan: RowId -> TurnPlan)
    : (Outbox, nat)
    requires forall i :: 0 <= i < |order| ==> order[i] in claimed
  {
    if order == [] then (s, 0)
    else
      var id := order[|order| - 1];
      var (t, sent) := Pass(cx, s, claimed, order[..|order| - 1], plan);
      var (t', ok) := PassTurn(cx, t, claimed[id], plan(id));
      (t', if ok then sent + 1 else sent)
  }

  /** Nobody else runs during the pass. */
  predicate Undisturbed(plan: RowId -> TurnPlan, order: seq<RowId>) {
    forall i :: 0 <= i < |order| ==> plan(order[i]).before.None? && plan(order[i]).during.None?
  }

  function OwnOutcome(cx: Chars, s: Outbox, id: RowId, plan: RowId -> TurnPlan): (OutboxRow, seq<string>)
    requires id in s.rows
  {
    Outcome(cx, ClaimRow(s.rows[id], s.now), plan(id).egress, plan(id).fuse, s.limit, s.now)
  }

  function SentIn(s: Outbox, ids: set<RowId>): set<RowId> {
    set id | id in ids && id in s.rows && s.rows[id].status == Sent
  }

  /**
   Between `s` and `t`, the claimed rows outside `left` had their turn, those in `left` are claimed,
   and nothing else changed.
   */
  ghost predicate PassDone(cx: Chars, s: Outbox, t: Outbox, claimed: set<RowId>, left: set<RowId>,
                           plan: RowId -> TurnPlan)
  {
    && t.now == s.now && t.limit == s.limit && t.rows.Keys == s.rows.Keys && claimed <= s.rows.Keys
    && (forall id :: id in s.rows ==>
          t.rows[id] == if id !in claimed then s.rows[id]
                        else if id in left then ClaimRow(s.rows[id], s.now)
                        else OwnOutcome(cx, s, id, plan).0)
    && (forall id :: id in claimed ==>
          PublishedBy(t.log, ClaimKey(id, s.rows[id].token + 1))
          == PublishedBy(s.log, ClaimKey(id, s.rows[id].token + 1))
             + if id in left then [] else OwnOutcome(cx, s, id, plan).1)
  }

  lemma PassStarts(cx: Chars, s: Outbox, t: Outbox, claimed: set<RowId>, plan: RowId -> TurnPlan)
    requires claimed <= s.rows.Keys && t == s.(rows := ClaimRows(s, claimed))
    ensures PassDone(cx, s, t, claimed, claimed, plan)
    ensures SentIn(t, claimed - claimed) == {}
  {
    forall id | id in claimed
      ensures PublishedBy(t.log, ClaimKey(id, s.rows[id].token + 1))
           == PublishedBy(s.log, ClaimKey(id, s.rows[id].token + 1)) + []
    {
    }
  }

  lemma LeftIsOwned(cx: Chars, s: Outbox, t: Outbox, claimed: set<RowId>, left: set<RowId>, id: RowId,
                    plan: RowId -> TurnPlan)
    requires PassDone(cx, s, t, claimed, left, plan) && left <= claimed && id in left
    ensures t.rows[id] == ClaimRow(s.rows[id], s.now) && FreshlyHeld(t, HeldAfterClaim(s, id))
  {
  }

  lemma SentGrows(t: Outbox, t': Outbox, claimed: set<RowId>, left: set<RowId>, id: RowId)
    requires left <= claimed && id in left && id in t.rows && id in t'.rows && t'.rows == t.rows[id := t'.rows[id]]
    ensures SentIn(t', claimed - (left - {id}))
         == SentIn(t, claimed - left) + (if t'.rows[id].status == Sent then {id} else {})
    ensures id !in SentIn(t, claimed - left)
  {
  }

  lemma OneTurn(cx: Chars, s: Outbox, t: Outbox, t': Outbox, claimed: set<RowId>, left: set<RowId>, id: RowId,
                plan: RowId -> TurnPlan)
    requires PassDone(cx, s, t, claimed, left, plan) && left <= claimed && id in left
    requires var (row, published) := OwnOutcome(cx, s, id, plan);
             var key := ClaimKey(id, s.rows[id].token + 1);
             && t'.now == t.now && t'.limit == t.limit && t'.rows == t.rows[id := row]
             && t'.log == t.log + (if row.body.Some? then Messages(key, published, row.body.value) else [])
    requires var (row, published) := OwnOutcome(cx, s, id, plan); row.body.None? ==> published == []
    ensures PassDone(cx, s, t', claimed, left - {id}, plan)
    ensures SentIn(t', claimed - (left - {id}))
         == SentIn(t, claimed - left) + (if t'.rows[id].status == Sent then {id} else {})
    ensures id !in SentIn(t, claimed - left)
  {
    var (row, published) := OwnOutcome(cx, s, id, plan);
    var key := ClaimKey(id, s.rows[id].token + 1);
    TurnIsLogged(t, t', key, row, published);
    SentGrows(t, t', claimed, left, id);
    forall other | other in claimed
      ensures PublishedBy(t'.log, ClaimKey(other, s.rows[other].token + 1))
           == PublishedBy(s.log, ClaimKey(other, s.rows[other].token + 1))
              + if other in left - {id} then [] else OwnOutcome(cx, s, other, plan).1
    {
      assert other != id ==> ClaimKey(other, s.rows[other].token + 1) != key;
      assert other == id ==> PublishedBy(s.log, key) + [] == PublishedBy(s.log, key);
    }
  }

  /** The rows still to come after the first ones of `order`. */
  function Rest(claimed: set<RowId>, order: seq<RowId>): set<RowId> {
    claimed - set i | 0 <= i < |order| :: order[i]
  }

  /**
   An undisturbed pass gives every claimed row its own outcome, publishes for each claim exactly what its outcome says,
   touches nothing else, and counts the rows that became SENT.
   */
  lemma {:induction false} UndisturbedPass(cx: Chars, s: Outbox, claimed: map<RowId, Held>, order: seq<RowId>,
                                           plan: RowId -> TurnPlan)
    requires s.claims == map[] && HeldAs(s, claimed) && Undisturbed(plan, order) && Distinct(order, claimed.Keys)
    ensures var (t, sent) := Pass(cx, s.(rows := ClaimRows(s, claimed.Keys)), claimed, order, plan);
            && PassDone(cx, s, t, claimed.Keys, Rest(claimed.Keys, order), plan)
            && t.claims == map[]
            && sent == |SentIn(t, claimed.Keys - Rest(claimed.Keys, order))|
    decreases |order|
  {
    var start := s.(rows := ClaimRows(s, claimed.Keys));
    if order == [] {
      PassStarts(cx, s, start, claimed.Keys, plan);
      assert Rest(claimed.Keys, order) == claimed.Keys;
    } else {
      var init, id := order[..|order| - 1], order[|order| - 1];
      UndisturbedPass(cx, s, claimed, init, plan);
      var (t, sent) := Pass(cx, start, claimed, init, plan);
      RestShrinks(claimed.Keys, order);
      UndisturbedStep(cx, s, t, claimed.Keys, Rest(claimed.Keys, init), id, plan);
      PassGrows(cx, start, claimed, order, plan);
    }
  }

  predicate Distinct(order: seq<RowId>, ids: set<RowId>) {
    && (forall i :: 0 <= i < |order| ==> order[i] in ids)
    && (forall i, j :: 0 <= i < j < |order| ==> order[i] != order[j])
  }

  lemma RestShrinks(claimed: set<RowId>, order: seq<RowId>)
    requires order != [] && Distinct(order, claimed)
    ensures var init, id := order[..|order| - 1], order[|order| - 1];
            id in Rest(claimed, init) && Rest(claimed, order) == Rest(claimed, init) - {id}
  {
  }

  lemma PassGrows(cx: Chars, s: Outbox, claimed: map<RowId, Held>, order: seq<RowId>, plan: RowId -> TurnPlan)
    requires order != [] && Distinct(order, claimed.Keys) && Undisturbed(plan, order)
    ensures var init, id := order[..|order| - 1], order[|order| - 1];
            var (t, sent) := Pass(cx, s, claimed, init, plan);
            var (t', ok) := Turn(cx, t, claimed[id], plan(id).egress, plan(id).fuse, None);
            Pass(cx, s, claimed, order, plan) == (t'.(claims := map[]), if ok then sent + 1 else sent)
  {
    var id := order[|order| - 1];
    assert plan(id).before.None? && plan(id).during.None?;
  }

  lemma UndisturbedStep(cx: Chars, s: Outbox, t: Outbox, claimed: set<RowId>, left: set<RowId>, id: RowId,
                        plan: RowId -> TurnPlan)
    requires PassDone(cx, s, t, claimed, left, plan) && left <= claimed && id in left && t.claims == map[]
    ensures var (t', ok) := Turn(cx, t, HeldAfterClaim(s, id), plan(id).egress, plan(id).fuse, None);
            && PassDone(cx, s, t', claimed, left - {id}, plan) && t'.claims == map[]
            && |SentIn(t', claimed - (left - {id}))| == |SentIn(t, claimed - left)| + if ok then 1 else 0
  {
    LeftIsOwned(cx, s, t, claimed, left, id, plan);
    var held := HeldAfterClaim(s, id);
    UndisturbedTurn(cx, t, held, plan(id).egress, plan(id).fuse);
    OneTurn(cx, s, t, Turn(cx, t, held, plan(id).egress, plan(id).fuse, None).0, claimed, left, id, plan);
  }

  lemma TurnIsLogged(t: Outbox, t': Outbox, key: ClaimKey, row: OutboxRow, published: seq<string>)
    requires t'.log == t.log + (if row.body.Some? then Messages(key, published, row.body.value) else [])
    requires row.body.None? ==> published == []
    ensures PublishedBy(t'.log, key) == PublishedBy(t.log, key) + published
    ensures forall other :: other != key ==> PublishedBy(t'.log, other) == PublishedBy(t.log, other)
  {
    if row.body.Some? {
      MessagesArePublished(t.log, key, published, row.body.value);
      OthersAreSilent(t.log, key, published, row.body.value);
    } else {
      assert t.log + [] == t.log && published == [];
    }
  }

  lemma {:induction false} OthersAreSilent(log: seq<Message>, key: ClaimKey, queues: seq<string>, body: string)
    ensures forall other :: other != key ==>
              PublishedBy(log + Messages(key, queues, body), other) == PublishedBy(log, other)
  {
    if queues == [] {
      assert log + [] == log;
    } else {
      var init, last := queues[..|queues| - 1], queues[|queues| - 1];
      OthersAreSilent(log, key, init, body);
      var sent := log + Messages(key, init, body);
      assert log + Messages(key, queues, body) == sent + [Message(key, last, body)];
      assert (sent + [Message(key, last, body)])[..|sent|] == sent;
    }
  }

  function Messages(key: ClaimKey, queues: seq<string>, body: string): seq<Message> {
    if queues == [] then []
    else Messages(key, queues[..|queues| - 1], body) + [Message(key, queues[|queues| - 1], body)]
  }

  lemma MessagesGrow(key: ClaimKey, queues: seq<string>, body: string, i: nat)
    requires i < |queues|
    ensures Messages(key, queues[..i + 1], body) == Messages(key, queues[..i], body) + [Message(key, queues[i], body)]
  {
    assert queues[..i + 1][..i] == queues[..i];
  }

  /** A published fan-out shows up as exactly its queues, in order, under its own claim. */
  lemma {:induction false} MessagesArePublished(log: seq<Message>, key: ClaimKey, queues: seq<string>, body: string)
    ensures PublishedBy(log + Messages(key, queues, body), key) == PublishedBy(log, key) + queues
  {
    if queues == [] {
      assert log + [] == log;
    } else {
      var init, last := queues[..|queues| - 1], queues[|queues| - 1];
      MessagesArePublished(log, key, init, body);
      var sent := log + Messages(key, init, body);
      assert log + Messages(key, queues, body) == sent + [Message(key, last, body)];
      assert (sent + [Message(key, last, body)])[..|sent|] == sent;
      assert queues == init + [last];
    }
  }
}
