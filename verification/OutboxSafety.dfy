/** Fencing, and what every publish ever made carries. */
module OutboxSafety {
  import opened Common
  import opened OutboxMachine

  // ---- one step, one row ----------------------------------------------------

  /**
   Fencing. A step changes an existing row only as a new claim, which raises the token
   by one, or as the claim that holds the row's token now.
   */
  lemma OnlyTheLatestClaimantWrites(s: Outbox, step: Step, id: RowId)
    requires Enabled(s, step) && id in s.rows
    ensures id in Apply(s, step).rows
    ensures var a, b := s.rows[id], Apply(s, step).rows[id];
            && b.task == a.task && b.ingress == a.ingress
            && (a != b ==>
                  || (step.Take? && id in step.ids && !Settled(a.status) && b == ClaimRow(a, s.now))
                  || (&& a.status == Processing
                      && (step.Store? || step.MarkSent? || step.Skip? || step.Fail?)
                      && step.key == ClaimKey(id, a.token) && b.token == a.token))
  {
    if step.Take? {
      assert id in step.ids ==> id in ClaimableIds(s, step.stale);
    }
  }

  lemma OnlyCreateAddsRows(s: Outbox, step: Step)
    requires Enabled(s, step) && !step.Create?
    ensures Apply(s, step).rows.Keys == s.rows.Keys
  {
  }

  predicate RowInv(row: OutboxRow, limit: int, log: seq<Message>, id: RowId) {
    && (row.body.Some? ==> row.routing != [])
    && (row.status == Sent ==> row.body.Some? && PublishedBy(log, ClaimKey(id, row.token)) == row.routing)
    && (limit >= 1 ==> if row.status == Failed then row.attempts == limit else row.attempts < limit)
  }

  /** A claim that still owns its row has seen the stored reply, or nobody has stored one. */
  ghost predicate ClaimInv(s: Outbox, key: ClaimKey)
    requires key in s.claims
  {
    var claim := s.claims[key];
    && key.row in s.rows && key.token <= s.rows[key.row].token
    && var row := s.rows[key.row];
       && (claim.body.Some? ==> row.body == claim.body && row.routing == claim.routing && claim.routing != [])
       && match claim.phase
          case Claimed =>
            && PublishedBy(s.log, key) == []
            && (Owns(s, key) ==> row.body == claim.body)
          case Drafted(_, queues) =>
            && queues != [] && claim.body.None?
            && PublishedBy(s.log, key) == []
            && (Owns(s, key) ==> row.body.None?)
          case Publishing(reply, targets, done) =>
            && row.body == Some(reply) && row.routing == targets && done <= |targets|
            && PublishedBy(s.log, key) == targets[..done]
  }

  ghost predicate MessageInv(s: Outbox, m: Message) {
    && m.key.row in s.rows
    && m.key.token <= s.rows[m.key.row].token
    && s.rows[m.key.row].body == Some(m.body)
    && m.queue in s.rows[m.key.row].routing
  }

  ghost predicate Inv(s: Outbox) {
    && (forall id :: id in s.rows ==> RowInv(s.rows[id], s.limit, s.log, id))
    && (forall key :: key in s.claims ==> ClaimInv(s, key))
    && (forall i :: 0 <= i < |s.log| ==> MessageInv(s, s.log[i]))
  }

  lemma PublishedAppend(log: seq<Message>, m: Message, key: ClaimKey)
    ensures PublishedBy(log + [m], key) == PublishedBy(log, key) + (if m.key == key then [m.queue] else [])
  {
    assert (log + [m])[..|log|] == log;
  }

  /** No message carries a token that was not handed out yet. */
  lemma {:induction false} FutureTokenIsSilent(log: seq<Message>, key: ClaimKey)
    requires forall i :: 0 <= i < |log| ==> log[i].key != key
    ensures PublishedBy(log, key) == []
  {
    if log == [] {
    } else {
      FutureTokenIsSilent(log[..|log| - 1], key);
    }
  }

  lemma StoredReplyIsKept(s: Outbox, step: Step, id: RowId)
    requires Inv(s) && Enabled(s, step) && id in s.rows && s.rows[id].body.Some?
    ensures id in Apply(s, step).rows
    ensures Apply(s, step).rows[id].body == s.rows[id].body && Apply(s, step).rows[id].routing == s.rows[id].routing
  {
    if step.Store? {
      assert ClaimInv(s, step.key);
    }
  }

  lemma MessageStep(s: Outbox, step: Step, i: nat)
    requires Inv(s) && Enabled(s, step) && i < |Apply(s, step).log|
    ensures MessageInv(Apply(s, step), Apply(s, step).log[i])
  {
    if i < |s.log| {
      assert Apply(s, step).log[i] == s.log[i] && MessageInv(s, s.log[i]);
      StoredReplyIsKept(s, step, s.log[i].key.row);
      OnlyTheLatestClaimantWrites(s, step, s.log[i].key.row);
    } else {
      assert ClaimInv(s, step.key);
    }
  }

  lemma LogKeepsOthers(s: Outbox, step: Step, key: ClaimKey)
    requires Enabled(s, step) && (step.Publish? ==> step.key != key)
    ensures PublishedBy(Apply(s, step).log, key) == PublishedBy(s.log, key)
  {
    if step.Publish? {
      var phase := s.claims[step.key].phase;
      PublishedAppend(s.log, Message(step.key, phase.targets[phase.done], phase.reply), key);
    }
  }

  lemma RowStepInv(s: Outbox, step: Step, id: RowId)
    requires Inv(s) && Enabled(s, step) && id in Apply(s, step).rows
    ensures RowInv(Apply(s, step).rows[id], s.limit, Apply(s, step).log, id)
  {
    if id in s.rows {
      OnlyTheLatestClaimantWrites(s, step, id);
      var key := ClaimKey(id, s.rows[id].token);
      assert RowInv(s.rows[id], s.limit, s.log, id);
      if step.Publish? {
        assert ClaimInv(s, step.key);
        if step.key != key { LogKeepsOthers(s, step, key); }
      } else {
        LogKeepsOthers(s, step, key);
        if step.Store? || step.MarkSent? { assert ClaimInv(s, step.key); }
      }
    }
  }

  lemma NewClaimInv(s: Outbox, step: Step, key: ClaimKey)
    requires Inv(s) && Enabled(s, step) && key in Apply(s, step).claims && key !in s.claims
    ensures ClaimInv(Apply(s, step), key)
  {
    assert step.Take? && key.row in step.ids && key.token == s.rows[key.row].token + 1;
    assert RowInv(s.rows[key.row], s.limit, s.log, key.row);
    forall i | 0 <= i < |s.log| ensures s.log[i].key != key {
      assert MessageInv(s, s.log[i]);
    }
    FutureTokenIsSilent(s.log, key);
  }

  lemma AdvancedClaimInv(s: Outbox, step: Step, key: ClaimKey)
    requires Inv(s) && Enabled(s, step) && key in Apply(s, step).claims && key in s.claims
    requires (step.Draft? || step.Store? || step.Resume? || step.Publish?) && step.key == key
    ensures ClaimInv(Apply(s, step), key)
  {
    assert ClaimInv(s, key);
    if step.Publish? {
      var phase := s.claims[key].phase;
      PublishedAppend(s.log, Message(key, phase.targets[phase.done], phase.reply), key);
    }
  }

  lemma OtherClaimInv(s: Outbox, step: Step, key: ClaimKey)
    requires Inv(s) && Enabled(s, step) && key in Apply(s, step).claims && key in s.claims
    requires !((step.Draft? || step.Store? || step.Resume? || step.Publish?) && step.key == key)
    ensures ClaimInv(Apply(s, step), key)
  {
    var s' := Apply(s, step);
    assert ClaimInv(s, key);
    assert s'.claims[key] == s.claims[key] by {
      if step.Take? && key.row in step.ids { assert key.token <= s.rows[key.row].token; }
    }
    OnlyTheLatestClaimantWrites(s, step, key.row);
    LogKeepsOthers(s, step, key);
    if s.rows[key.row].body.Some? { StoredReplyIsKept(s, step, key.row); }
  }

  lemma InvStep(s: Outbox, step: Step)
    requires Inv(s) && Enabled(s, step)
    ensures Inv(Apply(s, step))
  {
    var s' := Apply(s, step);
    forall id | id in s'.rows ensures RowInv(s'.rows[id], s'.limit, s'.log, id) {
      RowStepInv(s, step, id);
    }
    forall key | key in s'.claims ensures ClaimInv(s', key) {
      if key !in s.claims {
        NewClaimInv(s, step, key);
      } else if (step.Draft? || step.Store? || step.Resume? || step.Publish?) && step.key == key {
        AdvancedClaimInv(s, step, key);
      } else {
        OtherClaimInv(s, step, key);
      }
    }
    forall i | 0 <= i < |s'.log| ensures MessageInv(s', s'.log[i]) {
      MessageStep(s, step, i);
    }
  }

  lemma {:induction false} InvRun(s: Outbox, steps: seq<Step>)
    requires Inv(s) && IsRun(s, steps)
    ensures Inv(Exec(s, steps))
    decreases |steps|
  {
    if steps == [] {
    } else {
      InvStep(s, steps[0]);
      InvRun(Apply(s, steps[0]), steps[1..]);
    }
  }

  // ---- over whole runs --------------------------------------------------------

  /**
   Every publish ever made, whoever made it, carries the row's one stored body to a queue of the row's
   stored list, under a token that was handed out.
   */
  lemma PublishesCarryTheStoredReply(limit: int, steps: seq<Step>, i: nat)
    requires IsRun(Init(limit), steps) && i < |Exec(Init(limit), steps).log|
    ensures var s := Exec(Init(limit), steps);
            var m := s.log[i];
            && m.key.row in s.rows && m.key.token <= s.rows[m.key.row].token
            && s.rows[m.key.row].body == Some(m.body) && m.queue in s.rows[m.key.row].routing
  {
    InvRun(Init(limit), steps);
    assert MessageInv(Exec(Init(limit), steps), Exec(Init(limit), steps).log[i]);
  }

  /** A SENT row has a non-empty routing list, and the claim that marked it published to exactly that list, in order. */
  lemma SentMeansPublishedByOneClaim(limit: int, steps: seq<Step>, id: RowId)
    requires IsRun(Init(limit), steps)
    ensures var s := Exec(Init(limit), steps);
            id in s.rows && s.rows[id].status == Sent ==>
              s.rows[id].routing != [] && PublishedBy(s.log, ClaimKey(id, s.rows[id].token)) == s.rows[id].routing
  {
    InvRun(Init(limit), steps);
    var s := Exec(Init(limit), steps);
    assert id in s.rows ==> RowInv(s.rows[id], s.limit, s.log, id);
  }

  ghost function Claims(s: Outbox, steps: seq<Step>, id: RowId): nat
    requires IsRun(s, steps)
    decreases |steps|
  {
    if steps == [] then 0
    else (if steps[0].Take? && id in steps[0].ids then 1 else 0) + Claims(Apply(s, steps[0]), steps[1..], id)
  }

  ghost function RecordedFailures(s: Outbox, steps: seq<Step>, id: RowId): nat
    requires IsRun(s, steps)
    decreases |steps|
  {
    if steps == [] then 0
    else (if steps[0].Fail? && steps[0].key.row == id && Owns(s, steps[0].key) then 1 else 0)
         + RecordedFailures(Apply(s, steps[0]), steps[1..], id)
  }

  /**
   From any reachable state on: a stored reply is final, a settled row is final, the token counts
   the claims, and the attempt counter counts the failures recorded by owners.
   */
  lemma {:induction false} RowOverARun(s: Outbox, steps: seq<Step>, id: RowId)
    requires Inv(s) && IsRun(s, steps) && id in s.rows
    ensures id in Exec(s, steps).rows
    ensures var a, b := s.rows[id], Exec(s, steps).rows[id];
            && (a.body.Some? ==> b.body == a.body && b.routing == a.routing)
            && (Settled(a.status) ==> b == a)
            && b.task == a.task && b.ingress == a.ingress
            && b.token == a.token + Claims(s, steps, id)
            && b.attempts == a.attempts + RecordedFailures(s, steps, id)
    decreases |steps|
  {
    if steps == [] {
    } else {
      var step := steps[0];
      InvStep(s, step);
      OnlyTheLatestClaimantWrites(s, step, id);
      if s.rows[id].body.Some? { StoredReplyIsKept(s, step, id); }
      OneStepCounts(s, step, id);
      RowOverARun(Apply(s, step), steps[1..], id);
    }
  }

  lemma OneStepCounts(s: Outbox, step: Step, id: RowId)
    requires Inv(s) && Enabled(s, step) && id in s.rows
    ensures id in Apply(s, step).rows
    ensures Apply(s, step).rows[id].token == s.rows[id].token + (if step.Take? && id in step.ids then 1 else 0)
    ensures Apply(s, step).rows[id].attempts
         == s.rows[id].attempts + (if step.Fail? && step.key.row == id && Owns(s, step.key) then 1 else 0)
  {
    OnlyTheLatestClaimantWrites(s, step, id);
  }

  /** With a limit of at least one, an open row has attempts left and a FAILED row has used them all. */
  lemma AttemptsAreBounded(limit: int, steps: seq<Step>, id: RowId)
    requires limit >= 1 && IsRun(Init(limit), steps)
    ensures var s := Exec(Init(limit), steps);
            id in s.rows ==>
              if s.rows[id].status == Failed then s.rows[id].attempts == limit else s.rows[id].attempts < limit
  {
    LimitIsFixed(Init(limit), steps);
    InvRun(Init(limit), steps);
    var s := Exec(Init(limit), steps);
    assert id in s.rows ==> RowInv(s.rows[id], s.limit, s.log, id);
  }

  lemma {:induction false} LimitIsFixed(s: Outbox, steps: seq<Step>)
    requires IsRun(s, steps)
    ensures Exec(s, steps).limit == s.limit
    decreases |steps|
  {
    if steps == [] {
    } else {
      LimitIsFixed(Apply(s, steps[0]), steps[1..]);
    }
  }
}
