/**
 The rings and the consolidator together: what a pass takes from a ring is what
 that ring's own run pops between two moments, whatever the producers do
 meanwhile, and pass after pass every message goes through once and in order.
 */
module Pipeline {
  import opened Types
  import opened Market
  import opened Cores
  import Rings = SpscQueues

  /** The run of one slot's ring. */
  datatype Log = Log(states: seq<Rings.Ring<Message>>, actions: seq<Rings.Action<Message>>)

  ghost predicate LogsOk(logs: seq<Log>) {
    |logs| == 8 && forall i :: 0 <= i < 8 ==> Rings.IsRun(logs[i].states, logs[i].actions)
  }

  ghost predicate MessagesOk(logs: seq<Log>) {
    forall i, n, j :: 0 <= i < |logs| && 0 <= n < |logs[i].states| && 0 <= j < |logs[i].states[n].pushed| ==>
      MessageOk(logs[i].states[n].pushed[j])
  }

  /** A moment: where each ring's run stands. */
  type Moment = seq<nat>

  ghost predicate MomentOk(logs: seq<Log>, at: Moment) {
    |at| == |logs| == 8 && forall i :: 0 <= i < 8 ==> at[i] < |logs[i].states|
  }

  function Popped(logs: seq<Log>, at: Moment, i: Slot): seq<Message>
    requires MomentOk(logs, at)
  {
    logs[i].states[at[i]].popped
  }

  ghost predicate Later(logs: seq<Log>, a: Moment, b: Moment) {
    MomentOk(logs, a) && MomentOk(logs, b) && forall i :: 0 <= i < 8 ==> a[i] <= b[i]
  }

  // --------------------------------------------------------------- what rings keep --

  lemma {:induction false} PoppedGrows(log: Log, a: nat, b: nat)
    requires Rings.IsRun(log.states, log.actions) && a <= b < |log.states|
    ensures log.states[a].popped <= log.states[b].popped
  {
    if a < b {
      PoppedGrows(log, a, b - 1);
    }
  }

  /** What each ring yields between two moments. */
  function Yield(logs: seq<Log>, a: Moment, b: Moment, n: nat): (r: seq<seq<Message>>)
    requires MomentOk(logs, a) && MomentOk(logs, b) && n <= 8
    requires forall i: Slot :: |Popped(logs, a, i)| <= |Popped(logs, b, i)|
    ensures |r| == n && forall i: Slot :: i < n ==> r[i] == Popped(logs, b, i)[|Popped(logs, a, i)|..]
  {
    if n == 0 then [] else Yield(logs, a, b, n - 1) + [Popped(logs, b, n - 1)[|Popped(logs, a, n - 1)|..]]
  }

  lemma {:induction false} YieldContinues(logs: seq<Log>, a: Moment, b: Moment)
    requires LogsOk(logs) && Later(logs, a, b)
    ensures forall i: Slot :: Popped(logs, a, i) <= Popped(logs, b, i)
  {
    forall i: Slot ensures Popped(logs, a, i) <= Popped(logs, b, i) {
      PoppedGrows(logs[i], a[i], b[i]);
    }
  }

  /** Everything popped was pushed before, in the same order. */
  lemma {:induction false} PoppedWasPushed(logs: seq<Log>, at: Moment, i: Slot)
    requires LogsOk(logs) && MomentOk(logs, at)
    ensures Popped(logs, at, i) <= logs[i].states[at[i]].pushed
  {
    Rings.FifoAlways(logs[i].states, logs[i].actions, at[i]);
  }

  lemma {:induction false} YieldOk(logs: seq<Log>, a: Moment, b: Moment)
    requires LogsOk(logs) && MessagesOk(logs) && Later(logs, a, b)
    requires forall i: Slot :: Popped(logs, a, i) <= Popped(logs, b, i)
    ensures RingsOk(Yield(logs, a, b, 8))
  {
    var r := Yield(logs, a, b, 8);
    forall i, j | 0 <= i < 8 && 0 <= j < |r[i]| ensures MessageOk(r[i][j]) {
      var t := |Popped(logs, a, i)| + j;
      PoppedWasPushed(logs, b, i);
      assert r[i][j] == Popped(logs, b, i)[t] == logs[i].states[b[i]].pushed[t];
    }
  }

  // ------------------------------------------------------------------ pass after pass --

  /** Moments between passes: nothing popped at the first, and never anything from a slot beyond the registered ones. */
  ghost predicate PassesOk(logs: seq<Log>, cuts: seq<Moment>, count: nat) {
    && cuts != [] && (forall p :: 0 <= p < |cuts| ==> MomentOk(logs, cuts[p]))
    && (forall p :: 0 <= p < |cuts| - 1 ==> Later(logs, cuts[p], cuts[p + 1]))
    && (forall i: Slot :: Popped(logs, cuts[0], i) == [])
    && (forall p, i: Slot :: 0 <= p < |cuts| && i >= count ==> Popped(logs, cuts[p], i) == [])
  }

  /** What pass p takes from each ring. */
  function Pass(logs: seq<Log>, cuts: seq<Moment>, p: nat): (r: seq<seq<Message>>)
    requires p + 1 < |cuts| && MomentOk(logs, cuts[p]) && MomentOk(logs, cuts[p + 1])
    requires forall i: Slot :: |Popped(logs, cuts[p], i)| <= |Popped(logs, cuts[p + 1], i)|
    ensures |r| == 8
  {
    Yield(logs, cuts[p], cuts[p + 1], 8)
  }

  /** Every message taken by the first p passes, in the order it was taken. */
  ghost function Taken(logs: seq<Log>, cuts: seq<Moment>, count: nat, p: nat): seq<Event>
    requires LogsOk(logs) && PassesOk(logs, cuts, count) && p < |cuts| && count <= 8
  {
    if p == 0 then []
    else
      assert Later(logs, cuts[p - 1], cuts[p - 1 + 1]);
      YieldContinues(logs, cuts[p - 1], cuts[p]);
      Taken(logs, cuts, count, p - 1) + Drained(Pass(logs, cuts, p - 1), count)
  }

  /** One pass more, seen from one slot. */
  lemma {:induction false} TakenNext(before: seq<Event>, pass: seq<seq<Message>>, count: nat, i: Slot)
    requires count <= |pass| && count <= 8
    ensures var trace := before + Drained(pass, count);
            Project(trace, i, |trace|) == Project(before, i, |before|) + (if i < count then pass[i] else [])
  {
    hide Project, Drained;
    ProjectConcat(before, Drained(pass, count), i, |Drained(pass, count)|);
    DrainedIsPerSlot(pass, count, i);
  }

  lemma {:induction false} Continues<T>(a: seq<T>, b: seq<T>)
    requires a <= b
    ensures a + b[|a|..] == b
  {
  }

  /** The passes together take from each ring exactly what it popped, in its order. */
  lemma {:induction false} TakenIsPopped(logs: seq<Log>, cuts: seq<Moment>, count: nat, p: nat, i: Slot)
    requires LogsOk(logs) && PassesOk(logs, cuts, count) && p < |cuts| && count <= 8
    ensures Project(Taken(logs, cuts, count, p), i, |Taken(logs, cuts, count, p)|) == Popped(logs, cuts[p], i)
  {
    hide Project, Drained, LogsOk, Popped;
    if p == 0 {
      ProjectNone(i);
    } else {
      assert Later(logs, cuts[p - 1], cuts[p - 1 + 1]);
      hide Later, MomentOk;
      YieldContinues(logs, cuts[p - 1], cuts[p]);
      TakenIsPopped(logs, cuts, count, p - 1, i);
      TakenNext(Taken(logs, cuts, count, p - 1), Pass(logs, cuts, p - 1), count, i);
      Continues(Popped(logs, cuts[p - 1], i), Popped(logs, cuts[p], i));
    }
  }

  // ---------------------------------------------------------------- joining two traces --

  lemma {:induction false} RunWithin(m: Markets, a: seq<Event>, b: seq<Event>, n: nat)
    requires |m.columns| == 8 && n <= |a|
    ensures Run(m, a + b, n) == Run(m, a, n)
  {
    if n > 0 {
      RunWithin(m, a, b, n - 1);
    }
  }

  lemma {:induction false} RunOn(m: Markets, a: seq<Event>, b: seq<Event>, n: nat)
    requires |m.columns| == 8 && n <= |b|
    ensures Run(m, a + b, |a| + n) == Run(Run(m, a, |a|), b, n)
  {
    if n > 0 {
      RunOn(m, a, b, n - 1);
      assert (a + b)[|a| + n - 1] == b[n - 1];
    } else {
      RunWithin(m, a, b, |a|);
    }
  }

  lemma {:induction false} FaithfulOn(m: Markets, a: seq<Event>, b: seq<Event>, aOuts: seq<Option<Output>>,
      bOuts: seq<Option<Output>>)
    requires m.Ok() && Run(m, a, |a|).Ok() && Faithful(m, a, aOuts) && Faithful(Run(m, a, |a|), b, bOuts)
    ensures Faithful(m, a + b, aOuts + bOuts)
  {
    hide Publishes, Run;
    var t, o := a + b, aOuts + bOuts;
    forall j | 0 <= j < |o| ensures PublishedAt(m, t, j, o[j]) {
      if j < |aOuts| {
        assert PublishedAt(m, a, j, aOuts[j]);
        RunWithin(m, a, b, j + 1);
      } else {
        assert PublishedAt(Run(m, a, |a|), b, j - |a|, bOuts[j - |a|]);
        RunOn(m, a, b, j - |a| + 1);
      }
    }
  }

  /**
   Pass after pass over rings their producers keep filling: the core ends at the
   market of everything it took, each publication on the way is the from-scratch
   one for its moment, and what it took of a slot is what that slot's producer
   pushed, from the first message on, without loss, repetition or reordering.
   */
  method RunPasses(core: Core, logs: seq<Log>, cuts: seq<Moment>) returns (outs: seq<Option<Output>>)
    requires core.Valid() && LogsOk(logs) && MessagesOk(logs) && PassesOk(logs, cuts, |core.registry.names|)
    modifies core
    ensures core.Valid() && core.registry.names == old(core.registry.names)
    ensures var trace := Taken(logs, cuts, |core.registry.names|, |cuts| - 1);
            && Faithful(old(core.market), trace, outs) && core.market == Run(old(core.market), trace, |trace|)
            && forall i: Slot :: Project(trace, i, |trace|) <= logs[i].states[cuts[|cuts| - 1][i]].pushed
  {
    hide Fits, PublishedAt, Publishes, Step, Project, Drained;
    ghost var m, count := core.market, |core.registry.names|;
    outs := [];
    var p := 0;
    while p + 1 < |cuts|
      invariant 0 <= p < |cuts| && core.Valid() && core.registry.names == old(core.registry.names)
      invariant Faithful(m, Taken(logs, cuts, count, p), outs)
      invariant core.market == Run(m, Taken(logs, cuts, count, p), |Taken(logs, cuts, count, p)|)
    {
      assert Later(logs, cuts[p], cuts[p + 1]);
      YieldContinues(logs, cuts[p], cuts[p + 1]);
      YieldOk(logs, cuts[p], cuts[p + 1]);
      ghost var before, now := Taken(logs, cuts, count, p), Drained(Pass(logs, cuts, p), count);
      var more := core.DrainOnce(Pass(logs, cuts, p));
      FaithfulOn(m, before, now, outs, more);
      RunOn(m, before, now, |now|);
      outs := outs + more;
      p := p + 1;
    }
    forall i: Slot
        ensures Project(Taken(logs, cuts, count, p), i,
                |Taken(logs, cuts, count, p)|) <= logs[i].states[cuts[p][i]].pushed {
      TakenIsPopped(logs, cuts, count, p, i);
      PoppedWasPushed(logs, cuts[p], i);
    }
  }
}
