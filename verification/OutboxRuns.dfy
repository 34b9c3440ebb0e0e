/** A claim's turn in `publish_pending_outbox`, as a run of the outbox machine. */
module OutboxRuns {
  import opened Common
  import opened OutboxMachine
  import opened Text
  import opened OutboxPublisher

  lemma {:induction false} RunsCompose(s: Outbox, a: seq<Step>, b: seq<Step>)
    requires IsRun(s, a) && IsRun(Exec(s, a), b)
    ensures IsRun(s, a + b) && Exec(s, a + b) == Exec(Exec(s, a), b)
    decreases |a|
  {
    if a == [] {
      assert a + b == b;
    } else {
      assert (a + b)[0] == a[0] && (a + b)[1..] == a[1..] + b;
      RunsCompose(Apply(s, a[0]), a[1..], b);
    }
  }

  lemma OneStep(s: Outbox, step: Step)
    requires Enabled(s, step)
    ensures IsRun(s, [step]) && Exec(s, [step]) == Apply(s, step)
  {
    assert [step][1..] == [];
  }

  /** The first `n` publishes of a fan-out. */
  lemma {:induction false} FanOut(s: Outbox, key: ClaimKey, n: nat) returns (steps: seq<Step>)
    requires key in s.claims && s.claims[key].phase.Publishing? && s.claims[key].phase.done == 0
    requires n <= |s.claims[key].phase.targets|
    ensures IsRun(s, steps)
    ensures var phase := s.claims[key].phase;
            Exec(s, steps) == s.(log := s.log + Messages(key, phase.targets[..n], phase.reply),
                                 claims := s.claims[key := s.claims[key].(phase := phase.(done := n))])
  {
    steps := [];
    if n > 0 {
      steps := FanOut(s, key, n - 1);
      var t := Exec(s, steps);
      OneStep(t, Publish(key));
      RunsCompose(s, steps, [Publish(key)]);
      MessagesGrow(key, s.claims[key].phase.targets, s.claims[key].phase.reply, n - 1);
      steps := steps + [Publish(key)];
    } else {
      assert s.log + [] == s.log;
      assert s.claims[key := s.claims[key]] == s.claims;
    }
  }

  /** From the stored reply on: publish to every queue and mark, or fail at the first error. */
  lemma PublishingEnds(s: Outbox, key: ClaimKey, fuse: nat) returns (steps: seq<Step>)
    requires key in s.claims && s.claims[key].phase.Publishing? && s.claims[key].phase.done == 0
    ensures IsRun(s, steps)
    ensures var phase := s.claims[key].phase;
            var ok := fuse >= |phase.targets|;
            Exec(s, steps) == s.(rows := if ok then SetStatus(s, key, Sent) else RecordFailure(s, key),
                                 log := s.log + Messages(key, Reached(phase.targets, fuse), phase.reply),
                                 claims := s.claims - {key})
  {
    var targets := s.claims[key].phase.targets;
    var n := if fuse >= |targets| then |targets| else fuse;
    assert targets[..|targets|] == targets;
    steps := FanOut(s, key, n);
    var t := Exec(s, steps);
    var last := if fuse >= |targets| then MarkSent(key) else Fail(key);
    OneStep(t, last);
    RunsCompose(s, steps, [last]);
    steps := steps + [last];
  }

  /** The claim `held` is about to take its turn; it may have lost its lease. */
  predicate AboutToRun(s: Outbox, held: Held) {
    held.key in s.claims && s.claims[held.key] == Claim(held.body, held.routing, Claimed)
  }

  /** The machine's state after the first transaction of a turn that goes on. */
  function Opened(s: Outbox, held: Held, opening: Opening): Outbox
    requires opening.Send?
  {
    s.(rows := OpenedRows(s, held.key, opening),
       claims := s.claims[held.key := Claim(held.body, held.routing, Publishing(opening.body, opening.queues, 0))])
  }

  lemma OpeningEnds(s: Outbox, held: Held, opening: Opening) returns (steps: seq<Step>)
    requires AboutToRun(s, held) && !GoesOn(s, held.key, opening)
    requires opening.Send? && opening.store ==> held.body.None? && opening.queues != []
    ensures IsRun(s, steps)
    ensures Exec(s, steps) == s.(rows := OpenedRows(s, held.key, opening), claims := s.claims - {held.key})
  {
    var key := held.key;
    match opening
    case GiveUp =>
      steps := [Fail(key)];
      OneStep(s, Fail(key));
    case LetGo =>
      steps := [Skip(key)];
      OneStep(s, Skip(key));
    case Send(body, queues, _) =>
      var draft := Step.Draft(key, body, queues);
      OneStep(s, draft);
      var t := Apply(s, draft);
      OneStep(t, Store(key));
      RunsCompose(s, [draft], [Store(key)]);
      steps := [draft] + [Store(key)];
      assert t.claims - {key} == s.claims - {key};
  }

  lemma OpeningGoesOn(s: Outbox, held: Held, opening: Opening) returns (steps: seq<Step>)
    requires AboutToRun(s, held) && GoesOn(s, held.key, opening)
    requires if opening.store then held.body.None? && opening.queues != []
             else held.body == Some(opening.body) && held.routing == opening.queues
    ensures IsRun(s, steps) && Exec(s, steps) == Opened(s, held, opening)
  {
    var key := held.key;
    if opening.store {
      var draft := Step.Draft(key, opening.body, opening.queues);
      OneStep(s, draft);
      var t := Apply(s, draft);
      OneStep(t, Store(key));
      RunsCompose(s, [draft], [Store(key)]);
      steps := [draft] + [Store(key)];
      assert Exec(s, steps).claims == Opened(s, held, opening).claims;
    } else {
      steps := [Resume(key)];
      OneStep(s, Resume(key));
    }
  }

  /**
   What a turn of the publishing loop does, lease held or lost, is what a run of the machine does: its own
   steps, with any run `between` of the others in the middle. So everything proved of all runs
   holds of the publisher's own order of steps.
   */
  lemma TurnIsARun(cx: Chars, s: Outbox, held: Held, egress: Egress, fuse: nat, between: seq<Step>)
    returns (steps: seq<Step>)
    requires AboutToRun(s, held)
    requires var opening := Open(cx, held, egress);
             GoesOn(s, held.key, opening) ==>
               && IsRun(Opened(s, held, opening), between)
               && held.key in Exec(Opened(s, held, opening), between).claims
               && Exec(Opened(s, held, opening), between).claims[held.key]
                  == Opened(s, held, opening).claims[held.key]
    ensures IsRun(s, steps)
    ensures var opening := Open(cx, held, egress);
            var others := if GoesOn(s, held.key, opening) then Some(Exec(Opened(s, held, opening), between)) else None;
            var t := Turn(cx, s, held, egress, fuse, others).0;
            Exec(s, steps) == t.(claims := t.claims - {held.key})
  {
    var opening := Open(cx, held, egress);
    if GoesOn(s, held.key, opening) {
      steps := OpeningGoesOn(s, held, opening);
      RunsCompose(s, steps, between);
      var t := Exec(Opened(s, held, opening), between);
      var rest := PublishingEnds(t, held.key, fuse);
      RunsCompose(s, steps + between, rest);
      steps := steps + between + rest;
    } else {
      steps := OpeningEnds(s, held, opening);
    }
  }
}
