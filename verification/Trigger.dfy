/** TriggerQueueProcessing under interference: it drains the one-slot notification channel and then sends on
it, so that another sender in between makes it block. A caller that blocks waits for the main loop or for
another caller; the main goroutine, which triggers before its own loop exists, may wait for good. */
module Trigger {
  import opened Common
  import opened Tables
  import opened OrderEvents
  import opened Pipeline
  import opened ProcessorState
  import Flight = SingleFlight

  // ---- What is in the channel ----

  predicate Fills(step: Step) {
    step == OfMain(Signal) || (step.OfEnv? && step.envStep.ProducerSends?)
  }

  predicate Empties(step: Step) {
    || step == OfMain(Drain) || step == OfMain(TakeNotice)
    || (step.OfEnv? && (step.envStep.ProducerDrains? || step.envStep.Crash?))
  }

  /** The last step that fills or empties the channel fills it, or none does and it was full before. */
  predicate LastFills(before: bool, steps: seq<Step>) {
    || (exists k :: 0 <= k < |steps| && Fills(steps[k]) && forall j :: k < j < |steps| ==> !Empties(steps[j]))
    || (before && forall j :: 0 <= j < |steps| ==> !Empties(steps[j]))
  }

  lemma MainTurnsToken(s: State, step: MainStep)
    requires MainEnabled(s, step)
    ensures DoMain(s, step).proc.notified
         == (Fills(OfMain(step)) || (s.proc.notified && !Empties(OfMain(step))))
  {
  }

  lemma {:induction false} StepTurnsToken(s: State, step: Step)
    requires Enabled(s, step)
    ensures Do(s, step).proc.notified == (Fills(step) || (s.proc.notified && !Empties(step)))
  {
    match step
    case OfMain(m) => MainTurnsToken(s, m);
    case _ =>
  }

  lemma {:induction false} LastFillsFromSecond(before: bool, steps: seq<Step>)
    requires steps != []
    ensures LastFills(before, steps)
       <==> LastFills(Fills(steps[0]) || (before && !Empties(steps[0])), steps[1..])
  {
    var rest := steps[1..];
    assert forall j :: 0 < j < |steps| ==> steps[j] == rest[j - 1];
    if k :| 0 <= k < |steps| && Fills(steps[k]) && forall j :: k < j < |steps| ==> !Empties(steps[j]) {
      assert forall j :: 0 <= j < |rest| ==> rest[j] == steps[j + 1];
      assert k > 0 ==> Fills(rest[k - 1]);
    }
    if k :| 0 <= k < |rest| && Fills(rest[k]) && forall j :: k < j < |rest| ==> !Empties(rest[j]) {
      assert Fills(steps[k + 1]);
    }
  }

  /** After any steps the channel is full if and only if the last step that fills or empties it fills it;
  hence exactly then whoever is about to send on it, a caller or the main goroutine, has to wait. */
  lemma {:induction false} SendersWaitExactlyAfterAFill(s: State, steps: seq<Step>)
    requires After(s, steps).Some?
    ensures var t := After(s, steps).value;
            && (t.proc.notified <==> LastFills(s.proc.notified, steps))
            && (t.flow.main == Signalling ==> (Enabled(t, OfMain(Signal)) <==> !LastFills(s.proc.notified, steps)))
            && (forall p :: p in t.producers && t.producers[p].ToSend? ==>
                  (Enabled(t, OfEnv(ProducerSends(p))) <==> !LastFills(s.proc.notified, steps)))
    decreases |steps|
  {
    if steps != [] {
      StepTurnsToken(s, steps[0]);
      LastFillsFromSecond(s.proc.notified, steps);
      SendersWaitExactlyAfterAFill(Do(s, steps[0]), steps[1..]);
    }
  }

  // ---- The trigger can block ----

  /** Of two callers that have both drained the channel the second one to send has to wait. */
  lemma {:induction false} TriggerCanBlock(s: State, p: nat, q: nat) returns (steps: seq<Step>)
    requires p != q && p in s.producers && q in s.producers && s.producers[p].ToDrain? && s.producers[q].ToDrain?
    ensures After(s, steps).Some?
    ensures var t := After(s, steps).value;
            && q in t.producers && t.producers[q].ToSend? && !Enabled(t, OfEnv(ProducerSends(q)))
            && t.flow == s.flow
  {
    assert After(s, []) == Some(s);
    AfterAppends(s, [], OfEnv(ProducerDrains(p)));
    steps := [] + [OfEnv(ProducerDrains(p))];
    AfterAppends(s, steps, OfEnv(ProducerDrains(q)));
    steps := steps + [OfEnv(ProducerDrains(q))];
    AfterAppends(s, steps, OfEnv(ProducerSends(p)));
    steps := steps + [OfEnv(ProducerSends(p))];
  }

  /** The main goroutine wants to send on a full channel whose only reader would be its own loop. */
  predicate Blocked(s: State) {
    s.flow.main == Signalling && s.proc.notified
  }

  /** A caller that sends between the drain and the send of a starting run blocks the start. */
  lemma {:induction false} StartCanBlock(s: State, p: nat) returns (steps: seq<Step>)
    requires s.flow.main == Draining && p in s.producers && s.producers[p].ToDrain?
    ensures After(s, steps).Some?
    ensures var t := After(s, steps).value;
            Blocked(t) && t.flow == s.flow.(main := Signalling) && t.producers == s.producers - {p}
  {
    assert After(s, []) == Some(s);
    AfterAppends(s, [], OfEnv(ProducerDrains(p)));
    steps := [] + [OfEnv(ProducerDrains(p))];
    AfterAppends(s, steps, OfMain(Drain));
    steps := steps + [OfMain(Drain)];
    AfterAppends(s, steps, OfEnv(ProducerSends(p)));
    steps := steps + [OfEnv(ProducerSends(p))];
  }

  /** Nothing that belongs to the processor can move while its start is blocked. */
  lemma BlockedStartHasNoStep(s: State, step: Step)
    requires Blocked(s) && Flight.FlowShape(s.flow) && ByItself(step)
    ensures !Enabled(s, step)
  {
  }

  predicate Rescues(step: Step) {
    step.OfEnv? && (step.envStep.ProducerDrains? || step.envStep.Crash?)
  }

  lemma BlockedMainHasNoStep(s: State, step: MainStep)
    requires Blocked(s)
    ensures !MainEnabled(s, step)
  {
  }

  lemma {:induction false} BlockedStartStays(s: State, step: Step)
    requires Blocked(s) && Enabled(s, step) && !Rescues(step)
    ensures Blocked(Do(s, step))
  {
    if step.OfMain? {
      BlockedMainHasNoStep(s, step.mainStep);
    }
  }

  /** A blocked start goes on only after a further caller has drained the channel, if no crash ends it;
  neither a cancel nor the time that passes helps. */
  lemma {:induction false} BlockedUntilRescued(s: State, steps: seq<Step>)
    requires Blocked(s) && After(s, steps).Some? && !Blocked(After(s, steps).value)
    ensures exists k :: 0 <= k < |steps| && Rescues(steps[k])
    decreases |steps|
  {
    if !Rescues(steps[0]) {
      BlockedStartStays(s, steps[0]);
      BlockedUntilRescued(Do(s, steps[0]), steps[1..]);
      var k :| 0 <= k < |steps[1..]| && Rescues(steps[1..][k]);
      assert Rescues(steps[k + 1]);
    }
  }

  /** No new order is created, and the process is not restarted. */
  predicate CallersStayAway(steps: seq<Step>) {
    forall k :: 0 <= k < |steps| ==> !(steps[k].OfEnv? && (steps[k].envStep.Submit? || steps[k].envStep.Crash?))
  }

  lemma {:induction false} BlockedForGood(s: State, steps: seq<Step>)
    requires Blocked(s) && s.producers == map[] && After(s, steps).Some? && CallersStayAway(steps)
    ensures Blocked(After(s, steps).value)
    decreases |steps|
  {
    if steps != [] {
      BlockedStartStays(s, steps[0]);
      BlockedForGood(Do(s, steps[0]), steps[1..]);
    }
  }

  lemma {:induction false} FirstOrderMeetsStart(u: UserId, o: OrderId) returns (steps: seq<Step>)
    ensures After(INITIAL, steps).Some?
    ensures var t := After(INITIAL, steps).value;
            t.flow.main == Draining && t.producers == map[0 := ToDrain(o)]
  {
    assert After(INITIAL, []) == Some(INITIAL);
    AfterAppends(INITIAL, [], OfEnv(Register(u, Healthy)));
    steps := [] + [OfEnv(Register(u, Healthy))];
    var s := After(INITIAL, steps).value;
    AfterAppends(INITIAL, steps, OfEnv(Submit(0, u, o, Healthy)));
    steps := steps + [OfEnv(Submit(0, u, o, Healthy))];
    FirstSubmit(s, u, o);
    AfterAppends(INITIAL, steps, OfMain(StartRun(true)));
    steps := steps + [OfMain(StartRun(true))];
  }

  lemma FirstSubmit(s: State, u: UserId, o: OrderId)
    requires s.producers == map[] && u in s.books.db.users && o !in s.books.db.orders && o !in s.books.db.queue
    ensures DoEnv(s, Submit(0, u, o, Healthy)).producers == map[0 := ToDrain(o)]
    ensures DoEnv(s, Submit(0, u, o, Healthy)).flow == s.flow
  {
  }

  lemma {:induction false} CancelLeavesBlocked(s: State)
    requires Blocked(s)
    ensures Enabled(s, OfEnv(Cancel))
    ensures var t := Do(s, OfEnv(Cancel));
            Blocked(t) && t.flow == s.flow.(cancelled := true) && t.producers == s.producers
  {
  }

  /** From the empty database: the first order's caller sends between the drain and the send of a preloading
  start. The run is cancelled, nobody else is calling, and without a further order it never goes on. */
  lemma {:induction false} StartCanBlockForGood(u: UserId, o: OrderId) returns (steps: seq<Step>)
    ensures After(INITIAL, steps).Some?
    ensures var t := After(INITIAL, steps).value;
            && Blocked(t) && t.flow.cancelled && t.producers == map[]
            && (forall step :: ByItself(step) ==> !Enabled(t, step))
            && (forall later :: After(t, later).Some? && CallersStayAway(later) ==> Blocked(After(t, later).value))
  {
    var first := FirstOrderMeetsStart(u, o);
    var blocking := StartCanBlock(After(INITIAL, first).value, 0);
    AfterComposes(INITIAL, first, blocking);
    var blocked := After(INITIAL, first + blocking).value;
    CancelLeavesBlocked(blocked);
    AfterAppends(INITIAL, first + blocking, OfEnv(Cancel));
    steps := first + blocking + [OfEnv(Cancel)];
    var t := After(INITIAL, steps).value;
    assert t.producers == map[];
    Flight.InitialInv();
    Flight.RunKeepsInv(INITIAL, steps);
    forall step | ByItself(step)
      ensures !Enabled(t, step)
    {
      BlockedStartHasNoStep(t, step);
    }
    forall later | After(t, later).Some? && CallersStayAway(later)
      ensures Blocked(After(t, later).value)
    {
      BlockedForGood(t, later);
    }
  }

  // ---- When a start succeeds ----

  /** A step of the processor, launching no other than a pool of the given size. */
  predicate OfRun(step: Step, poolSize: nat) {
    ByItself(step) && (step.OfMain? && step.mainStep.Launch? ==> step.mainStep.poolSize == poolSize)
  }

  /** The processor can get its main goroutine to a point without the help of its environment. */
  ghost predicate GetsTo(s: State, pc: MainPc, poolSize: nat) {
    exists steps :: AllOfRun(steps, poolSize) && After(s, steps).Some? && After(s, steps).value.flow.main == pc
  }

  predicate AllOfRun(steps: seq<Step>, poolSize: nat) {
    forall k :: 0 <= k < |steps| ==> OfRun(steps[k], poolSize)
  }

  lemma {:induction false} BlockedGetsNowhere(s: State, pc: MainPc, poolSize: nat)
    requires Blocked(s) && Flight.FlowShape(s.flow) && GetsTo(s, pc, poolSize)
    ensures pc == Signalling
  {
    var steps :| AllOfRun(steps, poolSize) && After(s, steps).Some? && After(s, steps).value.flow.main == pc;
    if steps != [] {
      BlockedStartHasNoStep(s, steps[0]);
      assert false;
    }
  }

  /** A run at its start. */
  predicate IsStarting(pc: MainPc) {
    pc == Draining || pc == Signalling || pc == Launching || pc == Starting
  }

  lemma {:induction false} StartProceeds(s: State, poolSize: nat) returns (steps: seq<Step>)
    requires poolSize >= 1 && !Blocked(s)
    requires s.flow.main == Draining || s.flow.main == Signalling || s.flow.main == Launching
    ensures After(s, steps).Some? && AllOfRun(steps, poolSize)
    ensures |steps| == if s.flow.main == Draining then 3 else if s.flow.main == Signalling then 2 else 1
    ensures After(s, steps).value.flow
         == Flow(Starting, s.flow.cancelled, [], false, seq(poolSize, _ => Idle), None, false, Listening)
  {
    steps := [];
    assert After(s, []) == Some(s);
    if s.flow.main == Draining {
      AfterAppends(s, steps, OfMain(Drain));
      steps := steps + [OfMain(Drain)];
    }
    if s.flow.main != Launching {
      AfterAppends(s, steps, OfMain(Signal));
      steps := steps + [OfMain(Signal)];
    }
    AfterAppends(s, steps, OfMain(Launch(poolSize)));
    steps := steps + [OfMain(Launch(poolSize))];
  }

  /** A run gets from its start to its main loop by itself if and only if it is not blocked on its own
  notification, whatever the size of its pool. */
  lemma {:induction false} StartSucceedsUnlessBlocked(s: State, poolSize: nat)
    requires Flight.FlowShape(s.flow) && IsStarting(s.flow.main) && poolSize >= 1
    ensures GetsTo(s, Selecting, poolSize) <==> !Blocked(s)
  {
    if Blocked(s) {
      if GetsTo(s, Selecting, poolSize) {
        BlockedGetsNowhere(s, Selecting, poolSize);
      }
    } else {
      var steps: seq<Step> := [];
      if s.flow.main != Starting {
        steps := StartProceeds(s, poolSize);
      }
      AfterAppends(s, steps, OfMain(BeginLoop));
      assert AllOfRun(steps + [OfMain(BeginLoop)], poolSize);
    }
  }
}
