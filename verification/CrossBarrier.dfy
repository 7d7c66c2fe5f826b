/**
 The training thread and the poller that overlaps gradient exchange with the next forward pass. Every
 parameter has a lock that is taken when its gradient is handed out and given back by the poller.
 Steps are single lock or queue operations, in any interleaving, before the final step.
 */
module CrossBarrier {
  import opened Sequences

  type Param = nat

  /** Where the training thread is. */
  datatype Trainer =
    | Free
    | Acquiring(p: Param)                             // about to take the lock of `p` for an exchange
    | Handing(p: Param)                               // has the lock, about to queue the event
    | Entering(mod: seq<Param>, done: nat)            // before the lock of the next parameter of a module
    | Inside(mod: seq<Param>, done: nat)              // holding that lock for a moment
    | Forward(mod: seq<Param>)                        // running the module

  /** Where the poller is with the event it took from the queue. */
  datatype Poller = Waiting | Polling(p: Param) | Updating(p: Param) | Zeroing(p: Param) | Releasing(p: Param)

  /** Exchanges begun, updates applied and gradients zeroed, per parameter. */
  datatype Count = Count(begun: nat, applied: nat, zeroed: nat)

  datatype State = State(
    trainer: Trainer, poller: Poller, held: set<Param>, events: seq<Param>, counts: map<Param, Count>)

  datatype Event =
    | Exchange(p: Param) | Acquire | Put | EnterForward(mod: seq<Param>) | HookLock | HookUnlock | EndForward
    | Get | NotFinished | Finished | Update | ZeroGrad | Release

  function Start(params: set<Param>): State
  {
    State(Free, Waiting, {}, [], map p | p in params :: Count(0, 0, 0))
  }

  /** A parameter that has a lock, that is, one of the optimizer's. */
  predicate Known(s: State, p: Param)
  {
    p in s.counts
  }

  predicate Enabled(s: State, e: Event)
  {
    match e
    case Exchange(p) => s.trainer.Free? && Known(s, p)
    case Acquire => s.trainer.Acquiring? && Known(s, s.trainer.p) && s.trainer.p !in s.held
    case Put => s.trainer.Handing?
    case EnterForward(mod) => s.trainer.Free?
    case HookLock =>
      s.trainer.Entering? && s.trainer.done < |s.trainer.mod| && s.trainer.mod[s.trainer.done] !in s.held
    case HookUnlock => s.trainer.Inside? && s.trainer.done < |s.trainer.mod|
    case EndForward => s.trainer.Forward?
    case Get => s.poller.Waiting? && s.events != []
    case NotFinished => s.poller.Polling?
    case Finished => s.poller.Polling?
    case Update => s.poller.Updating? && Known(s, s.poller.p)
    case ZeroGrad => s.poller.Zeroing? && Known(s, s.poller.p)
    case Release => s.poller.Releasing?
  }

  /** The hook goes on to the next parameter, passing over those without a lock, and then the module runs. */
  function Hook(s: State, mod: seq<Param>, done: nat): Trainer
    requires done <= |mod|
    decreases |mod| - done
  {
    if done == |mod| then Forward(mod)
    else if Known(s, mod[done]) then Entering(mod, done)
    else Hook(s, mod, done + 1)
  }

  function Bump(s: State, p: Param, begun: nat, applied: nat, zeroed: nat): State
    requires Known(s, p)
  {
    var c := s.counts[p];
    s.(counts := s.counts[p := Count(c.begun + begun, c.applied + applied, c.zeroed + zeroed)])
  }

  function Step(s: State, e: Event): State
    requires Enabled(s, e)
  {
    match e
    case Exchange(p) => s.(trainer := Acquiring(p))
    case Acquire =>
      var p := s.trainer.p;
      Bump(s.(trainer := Handing(p), held := s.held + {p}), p, 1, 0, 0)
    case Put => s.(trainer := Free, events := s.events + [s.trainer.p])
    case EnterForward(mod) => s.(trainer := Hook(s, mod, 0))
    case HookLock =>
      s.(trainer := Inside(s.trainer.mod, s.trainer.done), held := s.held + {s.trainer.mod[s.trainer.done]})
    case HookUnlock =>
      s.(trainer := Hook(s, s.trainer.mod, s.trainer.done + 1), held := s.held - {s.trainer.mod[s.trainer.done]})
    case EndForward => s.(trainer := Free)
    case Get => s.(poller := Polling(s.events[0]), events := s.events[1..])
    case NotFinished => s.(poller := Waiting, events := s.events + [s.poller.p])
    case Finished => s.(poller := Updating(s.poller.p))
    case Update => Bump(s.(poller := Zeroing(s.poller.p)), s.poller.p, 0, 1, 0)
    case ZeroGrad => Bump(s.(poller := Releasing(s.poller.p)), s.poller.p, 0, 0, 1)
    case Release => s.(poller := Waiting, held := s.held - {s.poller.p})
  }

  // ---------------------------------------------------------------------------
  // Invariant

  /** The exchange of `p` is with the training thread, in the queue, or with the poller. */
  predicate InFlight(s: State, p: Param)
  {
    s.trainer == Handing(p) || p in s.events || (!s.poller.Waiting? && s.poller.p == p)
  }

  /** The hook holds the lock of `p` for a moment. */
  predicate Peeking(t: Trainer, p: Param)
  {
    t.Inside? && t.done < |t.mod| && t.mod[t.done] == p
  }

  /** At most one place holds an exchange of `p`. */
  ghost predicate Single(s: State)
  {
    && Distinct(s.events)
    && (s.trainer.Handing? ==> s.trainer.p !in s.events)
    && (!s.poller.Waiting? ==> s.poller.p !in s.events && s.trainer != Handing(s.poller.p))
  }

  /** How far the poller is with the exchange of `p`. */
  predicate CountOk(s: State, p: Param)
    requires Known(s, p)
  {
    var c := s.counts[p];
    if !InFlight(s, p) then c.begun == c.applied == c.zeroed
    else if s.poller == Zeroing(p) then c.begun == c.applied == c.zeroed + 1
    else if s.poller == Releasing(p) then c.begun == c.applied == c.zeroed
    else c.begun == c.applied + 1 == c.zeroed + 1
  }

  /** Every parameter of the module up to `done` has its last update applied and its gradient zeroed. */
  predicate ReadyTo(s: State, mod: seq<Param>, done: nat)
  {
    done <= |mod| && forall i :: 0 <= i < done && Known(s, mod[i]) ==> Settled(s, mod[i])
  }

  predicate Settled(s: State, p: Param)
    requires Known(s, p)
  {
    s.counts[p].begun == s.counts[p].applied == s.counts[p].zeroed
  }

  predicate TrainerOk(s: State)
  {
    match s.trainer
    case Free => true
    case Acquiring(p) => Known(s, p)
    case Handing(p) => Known(s, p)
    case Entering(mod, done) => done < |mod| && Known(s, mod[done]) && ReadyTo(s, mod, done)
    case Inside(mod, done) =>
      done < |mod| && Known(s, mod[done]) && ReadyTo(s, mod, done) && Settled(s, mod[done])
    case Forward(mod) => ReadyTo(s, mod, |mod|)
  }

  predicate ParamOk(s: State, p: Param)
  {
    && (p in s.held <==> InFlight(s, p) || Peeking(s.trainer, p))
    && (InFlight(s, p) ==> Known(s, p) && !Peeking(s.trainer, p))
    && (Known(s, p) ==> CountOk(s, p))
  }

  ghost predicate Inv(s: State)
  {
    Single(s) && TrainerOk(s) && forall p :: ParamOk(s, p)
  }

  lemma HookOk(s: State, mod: seq<Param>, done: nat)
    requires ReadyTo(s, mod, done)
    ensures var t := Hook(s, mod, done);
            && TrainerOk(s.(trainer := t))
            && (t.Entering? || t.Forward?)
    decreases |mod| - done
  {
    if done < |mod| && !Known(s, mod[done]) {
      HookOk(s, mod, done + 1);
    }
  }

  lemma StartInv(params: set<Param>)
    ensures Inv(Start(params))
  {
  }

  /** A lock that is free is one whose exchange, if any, is finished. */
  lemma FreeIsSettled(s: State, p: Param)
    requires Inv(s) && Known(s, p) && p !in s.held
    ensures !InFlight(s, p) && Settled(s, p)
  {
    assert ParamOk(s, p);
  }

  lemma TrainerStep(s: State, e: Event)
    requires Inv(s) && Enabled(s, e)
    requires e.Exchange? || e.Acquire? || e.Put? || e.EndForward?
    ensures Inv(Step(s, e))
  {
    var s' := Step(s, e);
    if e.Put? {
      DistinctSnoc(s.events, s.trainer.p);
    }
    if e.Acquire? {
      FreeIsSettled(s, s.trainer.p);
    }
    forall p ensures ParamOk(s', p) {
      assert ParamOk(s, p);
    }
  }

  lemma HookStep(s: State, e: Event)
    requires Inv(s) && Enabled(s, e)
    requires e.EnterForward? || e.HookLock? || e.HookUnlock?
    ensures Inv(Step(s, e))
  {
    var s' := Step(s, e);
    match e {
      case EnterForward(mod) => HookOk(s, mod, 0);
      case HookLock => FreeIsSettled(s, s.trainer.mod[s.trainer.done]);
      case HookUnlock => HookOk(s, s.trainer.mod, s.trainer.done + 1);
    }
    forall p ensures ParamOk(s', p) {
      assert ParamOk(s, p);
    }
  }

  lemma PollerStep(s: State, e: Event)
    requires Inv(s) && Enabled(s, e)
    requires e.Get? || e.NotFinished? || e.Finished? || e.Update? || e.ZeroGrad? || e.Release?
    ensures Inv(Step(s, e))
  {
    var s' := Step(s, e);
    if e.Get? {
      assert s.events == [s.events[0]] + s.events[1..];
      DistinctTail(s.events);
    }
    if e.NotFinished? {
      DistinctSnoc(s.events, s.poller.p);
    }
    forall p ensures ParamOk(s', p) {
      assert ParamOk(s, p);
    }
    forall p | Known(s, p) && Settled(s, p) ensures Settled(s', p) {
      assert ParamOk(s, p);
    }
  }

  lemma StepInv(s: State, e: Event)
    requires Inv(s) && Enabled(s, e)
    ensures Inv(Step(s, e))
  {
    if e.Exchange? || e.Acquire? || e.Put? || e.EndForward? {
      TrainerStep(s, e);
    } else if e.EnterForward? || e.HookLock? || e.HookUnlock? {
      HookStep(s, e);
    } else {
      PollerStep(s, e);
    }
  }

  // ---------------------------------------------------------------------------
  // Theorems

  predicate IsRun(params: set<Param>, events: seq<Event>, trace: seq<State>)
  {
    && |trace| == |events| + 1 && trace[0] == Start(params)
    && forall i :: 0 <= i < |events| ==> Enabled(trace[i], events[i]) && trace[i + 1] == Step(trace[i], events[i])
  }

  lemma {:induction false} RunInv(params: set<Param>, events: seq<Event>, trace: seq<State>, i: nat)
    requires IsRun(params, events, trace) && i < |trace|
    ensures Inv(trace[i])
  {
    if i == 0 {
      StartInv(params);
    } else {
      RunInv(params, events, trace, i - 1);
      StepInv(trace[i - 1], events[i - 1]);
    }
  }

  /** How many exchanges of `p` are with the training thread, in the queue and with the poller. */
  function Pending(s: State, p: Param): nat
  {
    (if s.trainer == Handing(p) then 1 else 0) + multiset(s.events)[p]
    + (if !s.poller.Waiting? && s.poller.p == p then 1 else 0)
  }

  /** A parameter never has two exchanges in flight, and its lock is held as long as it has one. */
  lemma OneInFlight(params: set<Param>, events: seq<Event>, trace: seq<State>, i: nat, p: Param)
    requires IsRun(params, events, trace) && i < |trace|
    ensures Pending(trace[i], p) <= 1
    ensures Pending(trace[i], p) == 1 ==> p in trace[i].held
    ensures p in trace[i].held ==> Pending(trace[i], p) == 1 || Peeking(trace[i].trainer, p)
  {
    var s := trace[i];
    RunInv(params, events, trace, i);
    assert ParamOk(s, p);
    DistinctCount(s.events, p);
  }

  /** A module only runs when every exchange begun for its parameters has been applied and its gradient zeroed. */
  lemma ForwardAfterUpdate(params: set<Param>, events: seq<Event>, trace: seq<State>, i: nat, k: nat)
    requires IsRun(params, events, trace) && i < |trace|
    requires trace[i].trainer.Forward? && k < |trace[i].trainer.mod|
    ensures var s, p := trace[i], trace[i].trainer.mod[k];
            Known(s, p) ==> s.counts[p].begun == s.counts[p].applied == s.counts[p].zeroed
  {
    RunInv(params, events, trace, i);
  }

  /** A gradient is zeroed only after it was applied, and applied only after its exchange was begun. */
  lemma AppliedBeforeZeroed(params: set<Param>, events: seq<Event>, trace: seq<State>, i: nat, p: Param)
    requires IsRun(params, events, trace) && i < |trace| && Known(trace[i], p)
    ensures var c := trace[i].counts[p]; c.zeroed <= c.applied <= c.begun <= c.zeroed + 1
  {
    RunInv(params, events, trace, i);
    assert ParamOk(trace[i], p);
  }

  /** The poller polls in turn: an exchange in the queue moves up by one with every poll, and is never overtaken. */
  lemma PolledInTurn(params: set<Param>, events: seq<Event>, trace: seq<State>, i: nat, j: nat)
    requires IsRun(params, events, trace) && i < |events| && j < |trace[i].events|
    ensures events[i].Get? && j == 0 ==> trace[i + 1].poller == Polling(trace[i].events[0])
    ensures events[i].Get? && 0 < j ==>
              j - 1 < |trace[i + 1].events| && trace[i + 1].events[j - 1] == trace[i].events[j]
    ensures !events[i].Get? ==> j < |trace[i + 1].events| && trace[i + 1].events[j] == trace[i].events[j]
  {
    assert trace[i + 1] == Step(trace[i], events[i]);
  }

  /** The poller never gives back a lock that is not held, which would be an error. */
  lemma ReleaseIsHeld(params: set<Param>, events: seq<Event>, trace: seq<State>, i: nat)
    requires IsRun(params, events, trace) && i < |trace| && trace[i].poller.Releasing?
    ensures trace[i].poller.p in trace[i].held && !Peeking(trace[i].trainer, trace[i].poller.p)
  {
    RunInv(params, events, trace, i);
    assert ParamOk(trace[i], trace[i].poller.p);
  }

  /** What the training thread waits for, if it waits for a lock. */
  function Wants(t: Trainer): set<Param>
  {
    match t
    case Acquiring(p) => {p}
    case Entering(mod, done) => if done < |mod| then {mod[done]} else {}
    case _ => {}
  }

  /** The training thread never waits for itself: the exchange that keeps the lock is with the poller or in its queue. */
  lemma NoDeadlock(params: set<Param>, events: seq<Event>, trace: seq<State>, i: nat, p: Param) returns (e: Event)
    requires IsRun(params, events, trace) && i < |trace| && p in Wants(trace[i].trainer) && p in trace[i].held
    ensures p in trace[i].events || (!trace[i].poller.Waiting? && trace[i].poller.p == p)
    ensures Enabled(trace[i], e) && (e.Get? || e.Finished? || e.Update? || e.ZeroGrad? || e.Release?)
  {
    var s := trace[i];
    RunInv(params, events, trace, i);
    assert ParamOk(s, p);
    match s.poller {
      case Waiting => e := Get;
      case Polling(_) => e := Finished;
      case Updating(q) => assert ParamOk(s, q); e := Update;
      case Zeroing(q) => assert ParamOk(s, q); e := ZeroGrad;
      case Releasing(_) => e := Release;
    }
  }
}
