/**
 How the consolidator sleeps and is woken (ConsolidatorLoop, HasPending,
 RingDoorbell and Stop of md_core/md_core.cpp), as sequentially consistent
 atomic steps. The 50 ms timeout is not relied on: a wake-up without a notify is
 allowed but never needed.
 */
module Doorbell {
  import opened Types

  /** A provider thread after its message went into the ring of its slot. */
  datatype Producer = Quiet | Rung | WantsLock | HasLock

  datatype Stopper = NotStopping | Flagged | Notifying | Stopped

  /** ConsolidatorLoop, one point per atomic access. */
  datatype Consumer =
    | Looping
    | Draining(index: nat, count: nat, drained: nat)
    | Idle
    | Locking
    | Locked
    | EvalRunning
    | EvalCount
    | Scanning(index: nat, count: nat)
    | Asleep
    | Woken
    | Satisfied
    | Unlocking
    | FinalDrain(index: nat, count: nat)
    | Exited

  datatype Owner = Free | ByConsumer | ByProducer(slot: Slot) | ByStopper

  /** pending[i] is how many messages slot i's ring holds; registered is the registry's size. */
  datatype Bell = Bell(
    running: bool,
    waiting: bool,
    lock: Owner,
    registered: nat,
    pending: seq<nat>,
    producers: seq<Producer>,
    stopper: Stopper,
    consumer: Consumer)

  datatype Action =
    | Register
    | Push(slot: Slot)
    | LoadWaiting(slot: Slot)
    | ProducerLock(slot: Slot)
    | NotifyOne(slot: Slot)
    | StopFlag
    | StopLock
    | NotifyAll
    | ConsumerStep
    | PopOne
    | SpinAgain
    | WakeUp

  predicate Shape(s: Bell) {
    |s.pending| == |s.producers| == 8 && s.registered <= 8
  }

  predicate Enabled(s: Bell, a: Action)
    requires Shape(s)
  {
    match a
    case Register => s.registered < 8
    case Push(i) => i < s.registered && s.producers[i] == Quiet
    case LoadWaiting(i) => s.producers[i] == Rung
    case ProducerLock(i) => s.producers[i] == WantsLock && s.lock == Free
    case NotifyOne(i) => s.producers[i] == HasLock
    case StopFlag => s.stopper == NotStopping
    case StopLock => s.stopper == Flagged && s.lock == Free
    case NotifyAll => s.stopper == Notifying
    case ConsumerStep => s.consumer != Asleep && s.consumer != Exited
        && ((s.consumer == Locking || s.consumer == Woken) ==> s.lock == Free)
    case PopOne => AtRing(s) && s.pending[s.consumer.index] > 0
    case SpinAgain => s.consumer == Idle
    case WakeUp => s.consumer == Asleep
  }

  /** The consumer looks at a ring it may pop from. */
  predicate AtRing(s: Bell)
    requires Shape(s)
  {
    (s.consumer.Draining? || s.consumer.FinalDrain?) && s.consumer.index < s.consumer.count && s.consumer.index < 8
  }

  /** A notified sleeper wakes; a notify that finds nobody asleep is lost. */
  function Notified(c: Consumer): Consumer {
    if c == Asleep then Woken else c
  }

  function Step(s: Bell, a: Action): Bell
    requires Shape(s) && Enabled(s, a)
  {
    match a
    case Register => s.(registered := s.registered + 1)
    case Push(i) => s.(pending := s.pending[i := s.pending[i] + 1], producers := s.producers[i := Rung])
    case LoadWaiting(i) => s.(producers := s.producers[i := if s.waiting then WantsLock else Quiet])
    case ProducerLock(i) => s.(producers := s.producers[i := HasLock], lock := ByProducer(i))
    case NotifyOne(i) => s.(producers := s.producers[i := Quiet], lock := Free, consumer := Notified(s.consumer))
    case StopFlag => s.(stopper := Flagged, running := false)
    case StopLock => s.(stopper := Notifying, lock := ByStopper)
    case NotifyAll => s.(stopper := Stopped, lock := Free, consumer := Notified(s.consumer))
    case ConsumerStep => ConsumerStepped(s)
    case PopOne =>
      s.(pending := s.pending[s.consumer.index := s.pending[s.consumer.index] - 1],
         consumer := if s.consumer.Draining? then s.consumer.(drained := s.consumer.drained + 1) else s.consumer)
    case SpinAgain => s.(consumer := Looping)
    case WakeUp => s.(consumer := Woken)
  }

  /** The consolidator's own next atomic access. */
  function ConsumerStepped(s: Bell): Bell
    requires Shape(s)
  {
    match s.consumer
    case Looping => s.(consumer := if s.running then Draining(0, s.registered, 0) else FinalDrain(0, s.registered))
    case Draining(i, count, drained) =>
      if i < count && i < 8 then (if s.pending[i] > 0 then s else s.(consumer := Draining(i + 1, count, drained)))
      else s.(consumer := if drained > 0 then Looping else Idle)
    case Idle => s.(consumer := Locking)
    case Locking => s.(consumer := Locked, lock := ByConsumer)
    case Locked => s.(consumer := EvalRunning, waiting := true)
    case EvalRunning => s.(consumer := if s.running then EvalCount else Satisfied)
    case EvalCount => s.(consumer := Scanning(0, s.registered))
    case Scanning(i, count) =>
      if i < count && i < 8 then s.(consumer := if s.pending[i] > 0 then Satisfied else Scanning(i + 1, count))
      else s.(consumer := Asleep, lock := Free)
    case Asleep => s
    case Woken => s.(consumer := EvalRunning, lock := ByConsumer)
    case Satisfied => s.(consumer := Unlocking, waiting := false)
    case Unlocking => s.(consumer := Looping, lock := Free)
    case FinalDrain(i, count) =>
      if i < count && i < 8 then (if s.pending[i] > 0 then s else s.(consumer := FinalDrain(i + 1, count)))
      else s.(consumer := Exited)
    case Exited => s
  }

  predicate Initial(s: Bell) {
    && Shape(s) && s.running && !s.waiting && s.lock == Free && s.registered == 0
    && s.stopper == NotStopping && s.consumer == Looping
    && forall i :: 0 <= i < 8 ==> s.pending[i] == 0 && s.producers[i] == Quiet
  }

  // --------------------------------------------------------------- the invariant --

  predicate HoldsLock(c: Consumer) {
    c == Locked || c == EvalRunning || c == EvalCount || c.Scanning? || c == Satisfied || c == Unlocking
  }

  predicate InWait(c: Consumer) {
    c == EvalRunning || c == EvalCount || c.Scanning? || c == Asleep || c == Woken || c == Satisfied
  }

  predicate OnItsWay(p: Producer) {
    p == Rung || p == WantsLock || p == HasLock
  }

  /** The mutex has the owner the threads think it has. */
  predicate LockOk(s: Bell)
    requires Shape(s)
  {
    && (s.lock == ByConsumer <==> HoldsLock(s.consumer))
    && (s.lock == ByStopper <==> s.stopper == Notifying)
    && forall i: Slot :: s.producers[i] == HasLock <==> s.lock == ByProducer(i)
  }

  predicate FlagsOk(s: Bell)
    requires Shape(s)
  {
    && (s.waiting <==> InWait(s.consumer))
    && (s.running <==> s.stopper == NotStopping)
    && forall i :: 0 <= i < 8 && s.pending[i] > 0 ==> i < s.registered
  }

  /** A ring the predicate has already passed over can only have filled since, and its producer has yet to notify. */
  predicate PassedOk(s: Bell)
    requires Shape(s)
  {
    forall i :: 0 <= i < 8 && s.pending[i] > 0 && Passed(s.consumer, i) ==> OnItsWay(s.producers[i])
  }

  predicate Passed(c: Consumer, i: nat) {
    c == Asleep || (c.Scanning? && (i < c.index || i >= c.count))
  }

  /** A stop the predicate did not see has yet to notify. */
  predicate StopOk(s: Bell) {
    (s.consumer == EvalCount || s.consumer.Scanning? || s.consumer == Asleep) && !s.running
    ==> s.stopper == Flagged || s.stopper == Notifying
  }

  predicate Inv(s: Bell) {
    Shape(s) && LockOk(s) && FlagsOk(s) && PassedOk(s) && StopOk(s)
  }

  lemma {:induction false} ProducerKeeps(s: Bell, a: Action)
    requires Inv(s) && Enabled(s, a) && (a.Register? || a.Push? || a.LoadWaiting? || a.ProducerLock? || a.NotifyOne?)
    ensures Inv(Step(s, a))
  {
  }

  lemma {:induction false} StopperKeeps(s: Bell, a: Action)
    requires Inv(s) && Enabled(s, a) && (a.StopFlag? || a.StopLock? || a.NotifyAll?)
    ensures Inv(Step(s, a))
  {
  }

  lemma {:induction false} ScanKeeps(s: Bell)
    requires Inv(s) && Enabled(s, ConsumerStep)
             && (s.consumer == EvalRunning || s.consumer == EvalCount || s.consumer.Scanning?)
    ensures Inv(Step(s, ConsumerStep))
  {
  }

  lemma {:induction false} LoopKeeps(s: Bell)
    requires Inv(s) && Enabled(s, ConsumerStep)
             && !(s.consumer == EvalRunning || s.consumer == EvalCount || s.consumer.Scanning?)
    ensures Inv(Step(s, ConsumerStep))
  {
    if s.consumer == Looping || s.consumer.Draining? || s.consumer == Idle || s.consumer.FinalDrain? {
      PassKeeps(s);
    }
  }

  /** Outside the lock only the consumer's place changes. */
  lemma {:induction false} PassKeeps(s: Bell)
    requires Inv(s)
    requires s.consumer == Looping || s.consumer.Draining? || s.consumer == Idle || s.consumer.FinalDrain?
    ensures Inv(Step(s, ConsumerStep))
  {
    var c := Step(s, ConsumerStep).consumer;
    assert !HoldsLock(c) && !InWait(c);
  }

  lemma {:induction false} ConsumerKeeps(s: Bell, a: Action)
    requires Inv(s) && Enabled(s, a) && (a.ConsumerStep? || a.PopOne? || a.SpinAgain? || a.WakeUp?)
    ensures Inv(Step(s, a))
  {
    if a.ConsumerStep? {
      if s.consumer == EvalRunning || s.consumer == EvalCount || s.consumer.Scanning? {
        ScanKeeps(s);
      } else {
        LoopKeeps(s);
      }
    }
  }

  lemma {:induction false} StepKeeps(s: Bell, a: Action)
    requires Inv(s) && Enabled(s, a)
    ensures Inv(Step(s, a))
  {
    match a
    case Register | Push(_) | LoadWaiting(_) | ProducerLock(_) | NotifyOne(_) => ProducerKeeps(s, a);
    case StopFlag | StopLock | NotifyAll => StopperKeeps(s, a);
    case _ => ConsumerKeeps(s, a);
  }

  // ------------------------------------------------------------------------ runs --

  /** The states a sequence of actions passes through. */
  predicate IsPath(states: seq<Bell>, actions: seq<Action>) {
    && |states| == |actions| + 1
    && forall i :: 0 <= i < |actions| ==>
         Shape(states[i]) && Enabled(states[i], actions[i]) && states[i + 1] == Step(states[i], actions[i])
  }

  predicate IsRun(states: seq<Bell>, actions: seq<Action>) {
    IsPath(states, actions) && Initial(states[0])
  }

  lemma {:induction false} RunKeeps(states: seq<Bell>, actions: seq<Action>, n: nat)
    requires IsRun(states, actions) && n < |states|
    ensures Inv(states[n])
  {
    if n > 0 {
      RunKeeps(states, actions, n - 1);
      StepKeeps(states[n - 1], actions[n - 1]);
    }
  }

  /**
   No wake-up is lost: in every reachable state where the consolidator sleeps on a
   queued message, that message's producer has not finished ringing; where it
   sleeps although the core was stopped, Stop has not notified yet.
   */
  lemma {:induction false} NoLostWakeup(states: seq<Bell>, actions: seq<Action>, n: nat)
    requires IsRun(states, actions) && n < |states| && states[n].consumer == Asleep
    ensures var s := states[n];
            && |s.pending| == |s.producers| == 8
            && (forall i :: 0 <= i < 8 && s.pending[i] > 0 ==> OnItsWay(s.producers[i]))
            && (!s.running ==> s.stopper == Flagged || s.stopper == Notifying)
  {
    RunKeeps(states, actions, n);
  }

  predicate AsleepOn(s: Bell, i: Slot) {
    Inv(s) && s.consumer == Asleep && s.pending[i] > 0
  }

  /** One step of anybody leaves the sleeper asleep on the same message, or wakes it. */
  lemma {:induction false} SleepStep(s: Bell, a: Action)
    requires Inv(s) && s.consumer == Asleep && Enabled(s, a)
    ensures Step(s, a).consumer == Asleep || Step(s, a).consumer == Woken
    ensures forall i: Slot :: s.pending[i] > 0 ==> Step(s, a).pending[i] > 0
    ensures !s.running ==> !Step(s, a).running
  {
  }

  lemma {:induction false} SleepsOn(states: seq<Bell>, actions: seq<Action>, n: nat, i: Slot)
    requires IsPath(states, actions) && n < |states| && AsleepOn(states[0], i)
    requires forall m :: 0 <= m <= n ==> states[m].consumer != Woken
    ensures AsleepOn(states[n], i)
  {
    if n > 0 {
      SleepsOn(states, actions, n - 1, i);
      StepKeeps(states[n - 1], actions[n - 1]);
      SleepStep(states[n - 1], actions[n - 1]);
    }
  }

  /**
   Whatever the threads do, in whatever order: by the time the producer of a
   queued message is through with its ring, the sleeper has been woken.
   */
  lemma {:induction false} RingingWakes(states: seq<Bell>, actions: seq<Action>, n: nat, i: Slot)
    requires IsPath(states, actions) && n < |states| && AsleepOn(states[0], i)
    requires |states[n].producers| == 8 && states[n].producers[i] == Quiet
    ensures exists m :: 0 <= m <= n && states[m].consumer == Woken
  {
    if forall m :: 0 <= m <= n ==> states[m].consumer != Woken {
      SleepsOn(states, actions, n, i);
    }
  }

  lemma {:induction false} SleepsStopped(states: seq<Bell>, actions: seq<Action>, n: nat)
    requires IsPath(states, actions) && n < |states| && Inv(states[0]) && states[0].consumer == Asleep
             && !states[0].running
    requires forall m :: 0 <= m <= n ==> states[m].consumer != Woken
    ensures Inv(states[n]) && states[n].consumer == Asleep && !states[n].running
  {
    if n > 0 {
      SleepsStopped(states, actions, n - 1);
      StepKeeps(states[n - 1], actions[n - 1]);
      SleepStep(states[n - 1], actions[n - 1]);
    }
  }

  /** Likewise for Stop: by the time it has notified, the sleeper of a stopped core has been woken. */
  lemma {:induction false} StopWakes(states: seq<Bell>, actions: seq<Action>, n: nat)
    requires IsPath(states, actions) && n < |states| && Inv(states[0]) && states[0].consumer == Asleep
             && !states[0].running
    requires states[n].stopper == Stopped
    ensures exists m :: 0 <= m <= n && states[m].consumer == Woken
  {
    if forall m :: 0 <= m <= n ==> states[m].consumer != Woken {
      SleepsStopped(states, actions, n);
    }
  }

  predicate Leads(s: Bell, actions: seq<Action>, t: Bell)
    decreases |actions|
  {
    if actions == [] then s == t
    else Shape(s) && Enabled(s, actions[0]) && Leads(Step(s, actions[0]), actions[1..], t)
  }

  lemma {:induction false} LeadsBy(s: Bell, a: Action, rest: seq<Action>, t: Bell)
    requires Shape(s) && Enabled(s, a) && Leads(Step(s, a), rest, t)
    ensures Leads(s, [a] + rest, t)
  {
    assert ([a] + rest)[1..] == rest;
  }

  /** What the owner of a held lock does next while the consolidator sleeps. */
  function Release(s: Bell): Action {
    if s.lock.ByProducer? then NotifyOne(s.lock.slot) else NotifyAll
  }

  /**
   And the ring can always be completed: three steps of the other threads, none
   of them spurious, are enough, since whoever holds the lock is about to notify
   itself.
   */
  lemma {:induction false} RingCanComplete(s: Bell, i: Slot) returns (actions: seq<Action>, t: Bell)
    requires Inv(s) && s.consumer == Asleep && s.pending[i] > 0
    ensures Leads(s, actions, t) && t.consumer == Woken && t.pending == s.pending && |actions| <= 3
    ensures WakeUp !in actions && ConsumerStep !in actions
  {
    if s.lock != Free {
      t := Step(s, Release(s));
      LeadsBy(s, Release(s), [], t);
      return [Release(s)], t;
    }
    var s1 := if s.producers[i] == Rung then Step(s, LoadWaiting(i)) else s;
    var s2 := Step(s1, ProducerLock(i));
    t := Step(s2, NotifyOne(i));
    LeadsBy(s2, NotifyOne(i), [], t);
    LeadsBy(s1, ProducerLock(i), [NotifyOne(i)], t);
    actions := [ProducerLock(i)] + [NotifyOne(i)];
    if s.producers[i] == Rung {
      LeadsBy(s, LoadWaiting(i), actions, t);
      actions := [LoadWaiting(i)] + actions;
    }
  }

  lemma {:induction false} StopCanComplete(s: Bell) returns (actions: seq<Action>, t: Bell)
    requires Inv(s) && s.consumer == Asleep && !s.running
    ensures Leads(s, actions, t) && t.consumer == Woken && !t.running && |actions| <= 2
    ensures WakeUp !in actions && ConsumerStep !in actions
  {
    if s.lock != Free {
      t := Step(s, Release(s));
      LeadsBy(s, Release(s), [], t);
      return [Release(s)], t;
    }
    var s1 := Step(s, StopLock);
    t := Step(s1, NotifyAll);
    LeadsBy(s1, NotifyAll, [], t);
    LeadsBy(s, StopLock, [NotifyAll], t);
    actions := [StopLock] + [NotifyAll];
  }

  // ---------------------------------------------------------- nothing is left behind --

  /** Somewhere after state `from` and up to state n, slot i's ring was empty. */
  predicate EmptiedSince(states: seq<Bell>, from: nat, n: nat, i: Slot)
    requires n < |states|
  {
    exists j :: from < j <= n && |states[j].pending| == 8 && states[j].pending[i] == 0
  }

  /**
   The consumer still has slot i before it. In the pass it is about to start or has
   started, it has not come to the slot; or, when only the last pass matters, it has
   not begun that one or not come to the slot in it.
   */
  predicate StillToVisit(last: bool, c: Consumer, i: nat) {
    if c.FinalDrain? then c.index <= i < c.count
    else if last then c != Exited
    else c == Looping || (c.Draining? && c.index <= i < c.count)
  }

  /** While the core runs nobody is on the way out. */
  predicate NotLeaving(s: Bell) {
    s.running ==> !s.consumer.FinalDrain? && s.consumer != Exited
  }

  lemma {:induction false} RunStaysIn(states: seq<Bell>, actions: seq<Action>, n: nat)
    requires IsRun(states, actions) && n < |states|
    ensures NotLeaving(states[n])
  {
    if n > 0 {
      RunStaysIn(states, actions, n - 1);
      StaysIn(states[n - 1], actions[n - 1]);
    }
  }

  lemma {:induction false} StaysIn(s: Bell, a: Action)
    requires Shape(s) && Enabled(s, a) && NotLeaving(s)
    ensures NotLeaving(Step(s, a))
  {
  }

  /** One step leaves the slot still to be visited, or finds its ring empty. */
  lemma {:induction false} VisitStep(last: bool, s: Bell, a: Action, i: Slot)
    requires Inv(s) && Enabled(s, a) && StillToVisit(last, s.consumer, i) && i < s.registered
    ensures StillToVisit(last, Step(s, a).consumer, i) || Step(s, a).pending[i] == 0
  {
    if a.ConsumerStep? {
      PassStep(last, s, i);
    }
  }

  lemma {:induction false} PassStep(last: bool, s: Bell, i: Slot)
    requires Shape(s) && Enabled(s, ConsumerStep) && StillToVisit(last, s.consumer, i) && i < s.registered
    ensures StillToVisit(last, Step(s, ConsumerStep).consumer, i) || Step(s, ConsumerStep).pending[i] == 0
  {
  }

  lemma {:induction false} RegisteredGrows(s: Bell, a: Action)
    requires Shape(s) && Enabled(s, a)
    ensures Step(s, a).registered >= s.registered
  {
  }

  lemma {:induction false} VisitedSince(last: bool, states: seq<Bell>, actions: seq<Action>, from: nat, n: nat,
      i: Slot)
    requires IsRun(states, actions) && from <= n < |states|
    requires StillToVisit(last, states[from].consumer, i) && i < states[from].registered
    ensures i < states[n].registered && (StillToVisit(last, states[n].consumer, i) || EmptiedSince(states, from, n, i))
  {
    hide *;
    if from < n {
      RunLength(states, actions);
      VisitedSince(last, states, actions, from, n - 1, i);
      RunStep(states, actions, n - 1);
      if StillToVisit(last, states[n - 1].consumer, i) {
        VisitStep(last, states[n - 1], actions[n - 1], i);
        if states[n].pending[i] == 0 {
          EmptyNow(states, from, n, i);
        }
      } else {
        EmptiedStays(states, from, n, i);
      }
    }
  }

  lemma {:induction false} RunLength(states: seq<Bell>, actions: seq<Action>)
    requires IsRun(states, actions)
    ensures |states| == |actions| + 1
  {
  }

  /** What one step of a run has to offer. */
  lemma {:induction false} RunStep(states: seq<Bell>, actions: seq<Action>, n: nat)
    requires IsRun(states, actions) && n < |actions|
    ensures |states| == |actions| + 1 && Inv(states[n]) && Inv(states[n + 1]) && Enabled(states[n], actions[n])
    ensures states[n + 1] == Step(states[n], actions[n]) && |states[n + 1].pending| == 8
    ensures states[n + 1].registered >= states[n].registered
  {
    RunKeeps(states, actions, n);
    RunKeeps(states, actions, n + 1);
    RegisteredGrows(states[n], actions[n]);
  }

  lemma {:induction false} EmptyNow(states: seq<Bell>, from: nat, n: nat, i: Slot)
    requires from < n < |states| && |states[n].pending| == 8 && states[n].pending[i] == 0
    ensures EmptiedSince(states, from, n, i)
  {
  }

  lemma {:induction false} EmptiedStays(states: seq<Bell>, from: nat, n: nat, i: Slot)
    requires 0 < n < |states| && EmptiedSince(states, from, n - 1, i)
    ensures EmptiedSince(states, from, n, i)
  {
  }

  /**
   Shutdown discards nothing: on every run that ends with the consumer gone, each
   slot that was registered when Stop cleared the flag has had an empty ring at some
   moment after that.
   */
  lemma {:induction false} DrainedBeforeExit(states: seq<Bell>, actions: seq<Action>, stop: nat, n: nat, i: Slot)
    requires IsRun(states, actions) && stop < n < |states| && actions[stop] == StopFlag
    requires states[n].consumer == Exited && i < states[stop].registered
    ensures exists j :: stop < j <= n && |states[j].pending| == 8 && states[j].pending[i] == 0
  {
    RunKeeps(states, actions, stop);
    RunStaysIn(states, actions, stop);
    VisitedSince(true, states, actions, stop, n, i);
  }

  /** And the loop comes to rest only after a pass that found every registered ring empty. */
  lemma {:induction false} IdleAfterEmptyRings(states: seq<Bell>, actions: seq<Action>, from: nat, n: nat, i: Slot)
    requires IsRun(states, actions) && from < n < |states| && states[from].consumer == Looping
    requires states[n].consumer == Idle && i < states[from].registered
    ensures exists j :: from < j <= n && |states[j].pending| == 8 && states[j].pending[i] == 0
  {
    VisitedSince(false, states, actions, from, n, i);
  }

  // ---- and therefore every message is taken --

  /** How many messages the producer of slot i has put into its ring. */
  function Pushes(actions: seq<Action>, i: Slot, n: nat): nat
    requires n <= |actions|
  {
    if n == 0 then 0 else Pushes(actions, i, n - 1) + if actions[n - 1] == Push(i) then 1 else 0
  }

  /** How many the consumer has taken from it: it pops from the ring it stands at. */
  function Pops(states: seq<Bell>, actions: seq<Action>, i: Slot, n: nat): nat
    requires n <= |actions| <= |states|
  {
    if n == 0 then 0
    else
      var c := states[n - 1].consumer;
      var here := actions[n - 1] == PopOne && (c.Draining? || c.FinalDrain?) && c.index == i;
      Pops(states, actions, i, n - 1) + if here then 1 else 0
  }

  /** A ring holds what was pushed and not yet popped. */
  lemma {:induction false} RingHolds(states: seq<Bell>, actions: seq<Action>, i: Slot, n: nat)
    requires IsRun(states, actions) && n < |states|
    ensures |states[n].pending| == 8
            && Pushes(actions, i, n) == Pops(states, actions, i, n) + states[n].pending[i]
  {
    if n > 0 {
      RingHolds(states, actions, i, n - 1);
      RunKeeps(states, actions, n - 1);
      PendingStep(states[n - 1], actions[n - 1], i);
    }
  }

  lemma {:induction false} PendingStep(s: Bell, a: Action, i: Slot)
    requires Shape(s) && Enabled(s, a)
    ensures |Step(s, a).pending| == 8
    ensures Step(s, a).pending[i] == s.pending[i] +
            (if a == Push(i) then 1
             else if a == PopOne && (s.consumer.Draining? || s.consumer.FinalDrain?) && s.consumer.index == i then -1
             else 0)
  {
  }

  lemma {:induction false} CountsGrow(states: seq<Bell>, actions: seq<Action>, i: Slot, m: nat, n: nat)
    requires m <= n <= |actions| <= |states|
    ensures Pushes(actions, i, m) <= Pushes(actions, i, n) && Pops(states, actions, i, m) <= Pops(states, actions, i, n)
  {
    if m < n {
      CountsGrow(states, actions, i, m, n - 1);
    }
  }

  /** By the time the consumer is gone, whatever was pushed before the stop has been popped. */
  lemma {:induction false} AllTakenBeforeExit(states: seq<Bell>, actions: seq<Action>, stop: nat, n: nat, i: Slot)
    requires IsRun(states, actions) && stop < n < |states| && actions[stop] == StopFlag
    requires states[n].consumer == Exited
    ensures Pushes(actions, i, stop) <= Pops(states, actions, i, n)
  {
    RingHolds(states, actions, i, stop);
    RunKeeps(states, actions, stop);
    if i < states[stop].registered {
      DrainedBeforeExit(states, actions, stop, n, i);
      var j :| stop < j <= n && |states[j].pending| == 8 && states[j].pending[i] == 0;
      RingHolds(states, actions, i, j);
      CountsGrow(states, actions, i, stop, j);
      CountsGrow(states, actions, i, j, n);
    } else {
      CountsGrow(states, actions, i, stop, n);
    }
  }

  // ---- and the way out is open --

  /** Only the consumer acts: its own accesses and its pops. */
  predicate OwnSteps(actions: seq<Action>) {
    forall a :: a in actions ==> a == ConsumerStep || a == PopOne
  }

  /** In its last pass the consumer needs nobody else to get to the end. */
  lemma {:induction false} LastPassEnds(s: Bell) returns (actions: seq<Action>, t: Bell)
    requires Inv(s) && s.consumer.FinalDrain? && s.consumer.count <= 8
    ensures Leads(s, actions, t) && t.consumer == Exited && OwnSteps(actions)
    decreases if s.consumer.index < 8 then 8 - s.consumer.index else 0,
              if s.consumer.index < 8 then s.pending[s.consumer.index] else 0
  {
    if s.consumer.index >= s.consumer.count {
      t := Step(s, ConsumerStep);
      LeadsBy(s, ConsumerStep, [], t);
      return [ConsumerStep], t;
    }
    var a := if s.pending[s.consumer.index] > 0 then PopOne else ConsumerStep;
    StepKeeps(s, a);
    var rest;
    rest, t := LastPassEnds(Step(s, a));
    LeadsBy(s, a, rest, t);
    actions := [a] + rest;
  }

  /** One own step in front of a way out. */
  lemma {:induction false} StepFirst(s: Bell, rest: seq<Action>, t: Bell) returns (actions: seq<Action>)
    requires Inv(s) && Enabled(s, ConsumerStep) && Leads(Step(s, ConsumerStep), rest, t) && OwnSteps(rest)
    ensures Leads(s, actions, t) && OwnSteps(actions)
  {
    LeadsBy(s, ConsumerStep, rest, t);
    actions := [ConsumerStep] + rest;
  }

  /** Awake in a stopped core: the own steps that lead back to the top of the loop. */
  function StepsToLoop(c: Consumer): nat {
    match c
    case Woken => 4
    case EvalRunning => 3
    case Satisfied => 2
    case Unlocking => 1
    case _ => 0
  }

  lemma {:induction false} StepTowardsLoop(s: Bell)
    requires Inv(s) && !s.running && StepsToLoop(s.consumer) > 0 && (s.consumer == Woken ==> s.lock == Free)
    ensures Enabled(s, ConsumerStep)
    ensures var t := Step(s, ConsumerStep);
            && Inv(t) && !t.running && StepsToLoop(t.consumer) == StepsToLoop(s.consumer) - 1 && t.consumer != Woken
            && (StepsToLoop(t.consumer) == 0 ==> t.consumer == Looping)
  {
    StepKeeps(s, ConsumerStep);
  }

  lemma {:induction false} LoopStarts(s: Bell)
    requires Inv(s) && !s.running && s.consumer == Looping
    ensures Enabled(s, ConsumerStep)
    ensures var t := Step(s, ConsumerStep); Inv(t) && t.consumer.FinalDrain? && t.consumer.count <= 8
  {
    StepKeeps(s, ConsumerStep);
  }

  /** In a stopped core the consumer gets out by itself, from the loop's top or from a wake-up with the lock free. */
  lemma {:induction false} StoppedExits(s: Bell) returns (actions: seq<Action>, t: Bell)
    requires Inv(s) && !s.running && (s.consumer == Looping || StepsToLoop(s.consumer) > 0)
    requires s.consumer == Woken ==> s.lock == Free
    ensures Leads(s, actions, t) && t.consumer == Exited && OwnSteps(actions)
    decreases StepsToLoop(s.consumer)
  {
    var rest;
    if s.consumer == Looping {
      LoopStarts(s);
      hide *;
      rest, t := LastPassEnds(Step(s, ConsumerStep));
    } else {
      StepTowardsLoop(s);
      hide *;
      rest, t := StoppedExits(Step(s, ConsumerStep));
    }
    actions := StepFirst(s, rest, t);
  }
}
