/** The shared pause of the accrual workers (order_event_worker.go), with time made explicit.

Every worker reads the shared pause time once, sleeps until it has passed, sends one request and,
when the accrual system answers "too many requests", stores the instant the answer arrived plus the
answer's retry delay. A sleeping worker never looks at the pause time again. */
module RateLimit {
  import opened Common

  datatype WorkerPc =
    | Idle
    | Sleeping(until: Time)  // the pause time was read and the timer armed
    | Awake                  // the timer has fired, the request is not sent yet
    | Requesting
    | Answered(pause: Time)  // the new pause time is computed but not stored yet

  /** `early` counts the requests sent before the first answer's time plus the server's delay, `senders`
  holds the workers that sent them, and `cutOff` counts the requests of senders that were cut off and
  taught their worker no pause; the three only observe the run. */
  datatype State = State(
    clock: Time,
    pausedUntil: Time,
    workers: seq<WorkerPc>,
    firstAnswer: Option<Time>,
    early: nat,
    senders: set<nat>,
    cutOff: nat)

  datatype Step =
    | AdvanceClock(elapsed: nat)
    | ReadPause(worker: nat)
    | GiveUp(worker: nat)        // the event's context expires during the sleep or right after it
    | TimerFires(worker: nat)
    | Send(worker: nat)
    | Answer(worker: nat, retryAfter: nat)
    | CutOff(worker: nat)        // the event's time-out ends the request, no pause is stored
    | StorePause(worker: nat)

  predicate Init(s: State) {
    && (forall i :: 0 <= i < |s.workers| ==> s.workers[i] == Idle)
    && s.firstAnswer == None && s.early == 0 && s.senders == {} && s.cutOff == 0
  }

  /** Steps of a pool facing a server that answers every request with a delay of at least `delay`. */
  predicate Enabled(delay: nat, s: State, step: Step) {
    match step
    case AdvanceClock(_) => true
    case ReadPause(i) => i < |s.workers| && s.workers[i] == Idle
    case GiveUp(i) => i < |s.workers| && (s.workers[i].Sleeping? || s.workers[i] == Awake)
    case TimerFires(i) => i < |s.workers| && s.workers[i].Sleeping? && s.workers[i].until <= s.clock
    case Send(i) => i < |s.workers| && s.workers[i] == Awake
    case Answer(i, retryAfter) => i < |s.workers| && s.workers[i] == Requesting && retryAfter >= delay
    case CutOff(i) => i < |s.workers| && s.workers[i] == Requesting
    case StorePause(i) => i < |s.workers| && s.workers[i].Answered?
  }

  /** Whether a request sent now is sent before the first answer's time plus the delay. */
  predicate IsEarly(delay: nat, s: State) {
    s.firstAnswer.Some? ==> s.clock < s.firstAnswer.value + delay
  }

  function Do(delay: nat, s: State, step: Step): State
    requires Enabled(delay, s, step)
  {
    match step
    case AdvanceClock(elapsed) => s.(clock := s.clock + elapsed)
    case ReadPause(i) => s.(workers := s.workers[i := Sleeping(s.pausedUntil)])
    case GiveUp(i) => s.(workers := s.workers[i := Idle])
    case TimerFires(i) => s.(workers := s.workers[i := Awake])
    case Send(i) =>
      var sent := s.(workers := s.workers[i := Requesting]);
      if IsEarly(delay, s) then sent.(early := s.early + 1, senders := s.senders + {i}) else sent
    case Answer(i, retryAfter) =>
      s.(workers := s.workers[i := Answered(s.clock + retryAfter)],
         firstAnswer := if s.firstAnswer.Some? then s.firstAnswer else Some(s.clock))
    case CutOff(i) =>
      var free := s.(workers := s.workers[i := Idle]);
      if i in s.senders then free.(senders := s.senders - {i}, cutOff := s.cutOff + 1) else free
    case StorePause(i) =>
      s.(pausedUntil := s.workers[i].pause, workers := s.workers[i := Idle])
  }

  function After(delay: nat, s: State, steps: seq<Step>): Option<State>
    decreases |steps|
  {
    if steps == [] then Some(s)
    else if Enabled(delay, s, steps[0]) then After(delay, Do(delay, s, steps[0]), steps[1..])
    else None
  }

  /** A worker that has sent an early request cannot send another one. */
  predicate Spent(delay: nat, s: State, i: nat)
    requires i < |s.workers|
  {
    match s.workers[i]
    case Requesting => true
    case Answered(_) => true
    case Idle => s.firstAnswer.Some? && s.pausedUntil >= s.firstAnswer.value + delay
    case Sleeping(until) => s.firstAnswer.Some? && until >= s.firstAnswer.value + delay
                                                && s.pausedUntil >= s.firstAnswer.value + delay
    case Awake => !IsEarly(delay, s) && s.pausedUntil >= s.firstAnswer.value + delay
  }

  predicate Inv(delay: nat, s: State) {
    && (s.firstAnswer.Some? ==> s.firstAnswer.value <= s.clock)
    && (forall i :: 0 <= i < |s.workers| && s.workers[i].Answered?
         ==> s.firstAnswer.Some? && s.workers[i].pause >= s.firstAnswer.value + delay)
    && (forall i :: i in s.senders ==> i < |s.workers| && Spent(delay, s, i))
    && s.early == |s.senders| + s.cutOff
  }

  lemma {:induction false} SendKeepsInv(delay: nat, s: State, i: nat)
    requires Inv(delay, s) && Enabled(delay, s, Send(i))
    ensures Inv(delay, Do(delay, s, Send(i)))
  {
    if IsEarly(delay, s) {
      assert i !in s.senders;
    }
  }

  lemma {:induction false} StepKeepsInv(delay: nat, s: State, step: Step)
    requires Inv(delay, s) && Enabled(delay, s, step)
    ensures Inv(delay, Do(delay, s, step))
    ensures |Do(delay, s, step).workers| == |s.workers|
  {
    if step.Send? {
      SendKeepsInv(delay, s, step.worker);
    }
  }

  lemma {:induction false} RunKeepsInv(delay: nat, s: State, steps: seq<Step>)
    requires Inv(delay, s) && After(delay, s, steps).Some?
    ensures Inv(delay, After(delay, s, steps).value)
    ensures |After(delay, s, steps).value.workers| == |s.workers|
    decreases |steps|
  {
    if steps != [] {
      StepKeepsInv(delay, s, steps[0]);
      RunKeepsInv(delay, Do(delay, s, steps[0]), steps[1..]);
    }
  }

  /** The pause that an answer asks for is stored as it was computed: it ends exactly the asked time after the
  answer arrived, however long the worker takes to store it. */
  lemma {:induction false} PauseLastsAsLongAsAsked(delay: nat, s: State, i: nat, retryAfter: nat, steps: seq<Step>)
    requires Enabled(delay, s, Answer(i, retryAfter)) && After(delay, Do(delay, s, Answer(i, retryAfter)), steps).Some?
    requires StorePause(i) !in steps
    ensures var t := After(delay, Do(delay, s, Answer(i, retryAfter)), steps).value;
            Enabled(delay, t, StorePause(i)) && Do(delay, t, StorePause(i)).pausedUntil == s.clock + retryAfter
  {
    AnsweredStays(delay, Do(delay, s, Answer(i, retryAfter)), i, s.clock + retryAfter, steps);
  }

  lemma {:induction false} AnsweredStays(delay: nat, s: State, i: nat, pause: Time, steps: seq<Step>)
    requires i < |s.workers| && s.workers[i] == Answered(pause)
    requires After(delay, s, steps).Some? && StorePause(i) !in steps
    ensures var t := After(delay, s, steps).value; i < |t.workers| && t.workers[i] == Answered(pause)
    decreases |steps|
  {
    if steps != [] {
      assert steps[0] in steps;
      AnsweredStays(delay, Do(delay, s, steps[0]), i, pause, steps[1..]);
    }
  }

  /** A worker that has read the pause may send its request exactly when the pause has passed. */
  lemma {:induction false} WorkerMaySendOncePaused(delay: nat, s: State, i: nat, elapsed: nat)
    requires i < |s.workers| && s.workers[i] == Idle
    ensures Enabled(delay, s, ReadPause(i))
    ensures var t := Do(delay, Do(delay, s, ReadPause(i)), AdvanceClock(elapsed));
            && (Enabled(delay, t, TimerFires(i)) <==> s.pausedUntil <= s.clock + elapsed)
            && (s.pausedUntil <= s.clock + elapsed ==>
                  && Enabled(delay, Do(delay, t, TimerFires(i)), Send(i))
                  && Do(delay, Do(delay, t, TimerFires(i)), Send(i)).workers[i] == Requesting)
  {
  }

  /** A time-out may cut off any request; its worker is free again and the pause stays what it was. */
  lemma CutOffFreesWorker(delay: nat, s: State, i: nat)
    requires i < |s.workers| && s.workers[i] == Requesting
    ensures Enabled(delay, s, CutOff(i))
    ensures var t := Do(delay, s, CutOff(i)); t.workers == s.workers[i := Idle] && t.pausedUntil == s.pausedUntil
  {
  }

  lemma {:induction false} IndexSetSize(indices: set<nat>, n: nat)
    requires forall i :: i in indices ==> i < n
    ensures |indices| <= n
  {
    if n > 0 {
      var rest := indices - {n - 1};
      IndexSetSize(rest, n - 1);
      assert |indices| <= |rest| + 1 by {
        if n - 1 in indices {
          assert indices == rest + {n - 1};
        } else {
          assert indices == rest;
        }
      }
    } else {
      assert indices == {};
    }
  }

  /** However the workers interleave, a pool of N workers sends at most N requests before the first
  answer's time plus the server's retry delay, and one more for each of these that is cut off. */
  lemma {:induction false} AtMostOneEarlyRequestPerWorker(delay: nat, s: State, steps: seq<Step>)
    requires Init(s) && After(delay, s, steps).Some?
    ensures After(delay, s, steps).value.early <= |s.workers| + After(delay, s, steps).value.cutOff
  {
    RunKeepsInv(delay, s, steps);
    IndexSetSize(After(delay, s, steps).value.senders, |s.workers|);
  }

  /** The bound is attained: the workers of an idle, unpaused pool may all send at once. */
  lemma {:induction false} EarlyRequestsCanReachPoolSize(delay: nat, s: State, k: nat) returns (steps: seq<Step>)
    requires Init(s) && s.pausedUntil <= s.clock && k <= |s.workers|
    ensures After(delay, s, steps).Some?
    ensures After(delay, s, steps).value.early == k
    ensures var t := After(delay, s, steps).value;
            && t.clock == s.clock && t.pausedUntil == s.pausedUntil && t.firstAnswer == None
            && |t.workers| == |s.workers|
            && (forall i :: k <= i < |s.workers| ==> t.workers[i] == Idle)
  {
    if k == 0 {
      steps := [];
    } else {
      var before := EarlyRequestsCanReachPoolSize(delay, s, k - 1);
      var t := After(delay, s, before).value;
      var i := k - 1;
      var next := [ReadPause(i), TimerFires(i), Send(i)];
      var t1 := Do(delay, t, ReadPause(i));
      var t2 := Do(delay, t1, TimerFires(i));
      var t3 := Do(delay, t2, Send(i));
      assert next[1..] == [TimerFires(i), Send(i)] && next[1..][1..] == [Send(i)] && next[1..][1..][1..] == [];
      assert After(delay, t2, [Send(i)]) == Some(t3);
      assert After(delay, t1, next[1..]) == Some(t3);
      assert After(delay, t, next) == Some(t3);
      RunsCompose(delay, s, before, next);
      steps := before + next;
    }
  }

  lemma {:induction false} RunsCompose(delay: nat, s: State, first: seq<Step>, second: seq<Step>)
    requires After(delay, s, first).Some?
    ensures After(delay, s, first + second) == After(delay, After(delay, s, first).value, second)
    decreases |first|
  {
    if first == [] {
      assert first + second == second;
    } else {
      assert (first + second)[1..] == first[1..] + second;
      RunsCompose(delay, Do(delay, s, first[0]), first[1..], second);
    }
  }
}
