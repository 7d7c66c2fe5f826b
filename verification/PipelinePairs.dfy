/** What one step does to the root and one other rank. Everything here is about two tasks and the signals between them. */
module PipelinePairs {
  import opened Options
  import opened Stages
  import opened Pipeline

  /** The root sees the same counted signals before and after a step of its own or of the rank. */
  predicate SameSignals(compressed: bool, m: Task, t: Task, u: Up, m': Task, t': Task, u': Up)
  {
    forall s :: Counted(compressed, m', t', u', s) <==> Counted(compressed, m, t, u, s)
  }

  /** Nothing is ever more than one round apart, so no table overflows; a rank that may copy has sent its signal. */
  lemma PairBounds(compressed: bool, m: Task, t: Task, u: Up, d: Down)
    requires TaskOk(true, compressed, m) && TaskOk(false, compressed, t) && PairOk(compressed, m, t, u, d)
    ensures forall s :: Arrived(t, u, s) + Pending(u, s) <= Taken(m, Gate(compressed, s)) + 1
    ensures d.copyD2HSent + d.contextCopy <= 1 && d.copyH2DSent + d.copy <= 1
    ensures d.contextCopy == 1 && t.stage == Some(COPYD2H) ==> t.owes.None?
    ensures d.copy == 1 && t.stage == Some(COPYH2D) ==> t.owes.None?
  {
    forall s: Signal ensures Arrived(t, u, s) + Pending(u, s) <= Taken(m, Gate(compressed, s)) + 1 {
      match s {
        case ReduceReady =>
        case ContextPushReady =>
        case PushReady =>
        case BcastReady =>
      }
    }
  }

  /** If the root has posted a collective that the rank has not, the rank's task waits in that queue with its signal sent. */
  lemma CommandFindsTask(compressed: bool, m: Task, t: Task, u: Up, d: Down, q: QueueType)
    requires TaskOk(true, compressed, m) && TaskOk(false, compressed, t) && PairOk(compressed, m, t, u, d)
    requires Collective(q) && Taken(t, q) < Taken(m, q)
    ensures t.stage == Some(q) && !t.running && t.owes.None?
    ensures Taken(m, q) == Taken(t, q) + 1
  {
  }

  /** While the push table is held full, no rank has a push signal under way or uncounted. */
  lemma HeldQuiet(compressed: bool, m: Task, t: Task, u: Up, d: Down)
    requires TaskOk(true, compressed, m) && TaskOk(false, compressed, t) && PairOk(compressed, m, t, u, d)
    requires compressed && m.stage == Some(PUSH)
    ensures Pending(u, PushReady) == 0 && !Counted(compressed, m, t, u, PushReady)
  {
  }

  predicate GateOpen(compressed: bool, m: Task, t: Task, u: Up, q: QueueType)
  {
    forall s :: Gate(compressed, s) == q ==> Counted(compressed, m, t, u, s)
  }

  /** Starting stage `q` counts as entering it, and as entering nothing else. */
  lemma StartTaken(t: Task, q: QueueType, x: QueueType)
    requires t.stage == Some(q) && !t.running
    ensures Taken(Started(t), x) == Taken(t, x) + if x == q then 1 else 0
  {
  }

  /** Passing a gate uses one signal of every rank. */
  lemma GateUsed(compressed: bool, m: Task, t: Task, u: Up, q: QueueType, s: Signal)
    requires m.stage == Some(q) && !m.running && GateOpen(compressed, m, t, u, q)
    requires Arrived(t, u, s) <= Taken(m, Gate(compressed, s)) + 1
    ensures Counted(compressed, Started(m), t, u, s) <==> Gate(compressed, s) != q && Counted(compressed, m, t, u, s)
  {
    StartTaken(m, q, Gate(compressed, s));
  }

  lemma RootTakesHeard(compressed: bool, m: Task, t: Task, u: Up, q: QueueType)
    requires Heard(compressed, m, t, u) && m.stage == Some(q) && !m.running && GateOpen(compressed, m, t, u, q)
    ensures Heard(compressed, Started(m), t, u)
  {
    StartTaken(m, q, Gate(compressed, ReduceReady));
    StartTaken(m, q, Gate(compressed, ContextPushReady));
    StartTaken(m, q, Gate(compressed, PushReady));
    StartTaken(m, q, Gate(compressed, BcastReady));
  }

  lemma RootTakesFollows(m: Task, t: Task, d: Down, q: QueueType)
    requires Follows(m, t, d) && m.stage == Some(q) && !m.running
    ensures Follows(Started(m), t, Told(d, q))
  {
    forall x: QueueType {
      StartTaken(m, q, x);
    }
  }

  lemma RootTakes(compressed: bool, m: Task, t: Task, u: Up, d: Down, q: QueueType)
    requires TaskOk(true, compressed, m) && TaskOk(false, compressed, t) && PairOk(compressed, m, t, u, d)
    requires m.stage == Some(q) && !m.running && GateOpen(compressed, m, t, u, q)
    ensures TaskOk(true, compressed, Started(m)) && PairOk(compressed, Started(m), t, u, Told(d, q))
    ensures forall s :: Counted(compressed, Started(m), t, u, s)
                        <==> Gate(compressed, s) != q && Counted(compressed, m, t, u, s)
  {
    RootTakesHeard(compressed, m, t, u, q);
    RootTakesFollows(m, t, d, q);
    forall s: Signal
      ensures Counted(compressed, Started(m), t, u, s)
              <==> Gate(compressed, s) != q && Counted(compressed, m, t, u, s)
    {
      PairBounds(compressed, m, t, u, d);
      GateUsed(compressed, m, t, u, q, s);
    }
  }

  /** Finishing a stage changes how often it was left, not how often any stage of the list was entered. */
  lemma FinishKeepsTaken(root: bool, compressed: bool, t: Task, q: QueueType, x: QueueType)
    requires t.stage == Some(q) && t.running && InList(root, compressed, q) && InList(root, compressed, x)
    ensures Taken(Proceeded(root, compressed, t, q), x) == Taken(t, x)
  {
  }

  lemma FinishCounts(root: bool, compressed: bool, t: Task, q: QueueType, x: QueueType)
    requires t.stage == Some(q) && t.running && InList(root, compressed, q) && InList(root, compressed, x)
    ensures Finished(Proceeded(root, compressed, t, q), x) == Finished(t, x) + if x == q then 1 else 0
  {
  }

  /** A finished coordination stage owes its signal, so the count of signals sent is still the same. */
  lemma FinishKeepsSent(compressed: bool, t: Task, q: QueueType, s: Signal)
    requires TaskOk(false, compressed, t) && t.stage == Some(q) && t.running
    ensures Sent(Proceeded(false, compressed, t, q), s) == Sent(t, s)
  {
  }

  lemma RootFinishes(compressed: bool, m: Task, t: Task, u: Up, d: Down, q: QueueType)
    requires TaskOk(true, compressed, m) && PairOk(compressed, m, t, u, d)
    requires m.stage == Some(q) && m.running
    ensures var m' := Proceeded(true, compressed, m, q);
            && TaskOk(true, compressed, m') && PairOk(compressed, m', t, u, d)
            && SameSignals(compressed, m, t, u, m', t, u)
  {
    var m' := Proceeded(true, compressed, m, q);
    forall x: QueueType | InList(true, compressed, x) ensures Taken(m', x) == Taken(m, x) {
      FinishKeepsTaken(true, compressed, m, q, x);
    }
    assert forall s :: InList(true, compressed, Gate(compressed, s));
  }

  lemma RootEnters(compressed: bool, m: Task, t: Task, u: Up, d: Down)
    requires TaskOk(true, compressed, m) && TaskOk(false, compressed, t) && PairOk(compressed, m, t, u, d)
    requires m.stage.None?
    ensures var m' := Entered(true, m);
            && TaskOk(true, compressed, m') && PairOk(compressed, m', t, u, d)
            && SameSignals(compressed, m, t, u, m', t, u)
  {
  }

  lemma StartArrives(t: Task, u: Up, s: Signal)
    ensures Arrived(Started(t), u, s) == Arrived(t, u, s)
  {
  }

  /** A rank takes its task: copies wait for a table, collectives for a command. */
  lemma RankTakes(compressed: bool, m: Task, t: Task, u: Up, d: Down, q: QueueType)
    requires TaskOk(true, compressed, m) && TaskOk(false, compressed, t) && PairOk(compressed, m, t, u, d)
    requires t.stage == Some(q) && !t.running
    requires q == COPYD2H ==> d.contextCopy == 1
    requires q == COPYH2D ==> d.copy == 1
    requires Collective(q) ==> Taken(t, q) < Taken(m, q)
    ensures TaskOk(false, compressed, Started(t)) && PairOk(compressed, m, Started(t), u, ClearDown(d, q))
    ensures SameSignals(compressed, m, t, u, m, Started(t), u)
  {
    OwesNothing(compressed, m, t, u, d, q);
    forall s: Signal {
      StartArrives(t, u, s);
    }
    RankTakeFollows(m, t, d, q);
  }

  /** A rank that may take its task has sent its signal. */
  lemma OwesNothing(compressed: bool, m: Task, t: Task, u: Up, d: Down, q: QueueType)
    requires TaskOk(true, compressed, m) && TaskOk(false, compressed, t) && PairOk(compressed, m, t, u, d)
    requires t.stage == Some(q) && !t.running
    requires q == COPYD2H ==> d.contextCopy == 1
    requires q == COPYH2D ==> d.copy == 1
    requires Collective(q) ==> Taken(t, q) < Taken(m, q)
    ensures t.owes.None?
  {
    PairBounds(compressed, m, t, u, d);
    if Collective(q) {
      CommandFindsTask(compressed, m, t, u, d, q);
    }
  }

  lemma RankTakeFollows(m: Task, t: Task, d: Down, q: QueueType)
    requires Follows(m, t, d) && t.stage == Some(q) && !t.running
    requires q == COPYD2H ==> d.contextCopy == 1
    requires q == COPYH2D ==> d.copy == 1
    requires Collective(q) ==> Taken(t, q) < Taken(m, q)
    ensures Follows(m, Started(t), ClearDown(d, q))
  {
    forall x: QueueType {
      StartTaken(t, q, x);
    }
  }

  lemma RankFinishes(compressed: bool, m: Task, t: Task, u: Up, d: Down, q: QueueType)
    requires TaskOk(false, compressed, t) && PairOk(compressed, m, t, u, d)
    requires t.stage == Some(q) && t.running
    ensures var t' := Proceeded(false, compressed, t, q);
            && TaskOk(false, compressed, t') && PairOk(compressed, m, t', u, d)
            && SameSignals(compressed, m, t, u, m, t', u)
  {
    var t' := Proceeded(false, compressed, t, q);
    forall x: QueueType | InList(false, compressed, x) ensures Taken(t', x) == Taken(t, x) {
      FinishKeepsTaken(false, compressed, t, q, x);
    }
    forall s: Signal ensures Sent(t', s) == Sent(t, s) {
      FinishKeepsSent(compressed, t, q, s);
    }
  }

  lemma RankEnters(compressed: bool, m: Task, t: Task, u: Up, d: Down)
    requires TaskOk(false, compressed, t) && PairOk(compressed, m, t, u, d)
    requires t.stage.None?
    ensures var t' := Entered(false, t);
            && TaskOk(false, compressed, t') && PairOk(compressed, m, t', u, d)
            && SameSignals(compressed, m, t, u, m, t', u)
  {
  }

  /** Sending moves a signal from owed to under way. */
  lemma SendingArrives(t: Task, u: Up, s: Signal)
    requires t.owes.Some?
    ensures Arrived(Paid(t), WithSignal(u, t.owes.value), s) == Arrived(t, u, s)
  {
  }

  lemma RankSends(compressed: bool, m: Task, t: Task, u: Up, d: Down)
    requires TaskOk(false, compressed, t) && PairOk(compressed, m, t, u, d) && t.owes.Some?
    ensures TaskOk(false, compressed, Paid(t)) && PairOk(compressed, m, Paid(t), WithSignal(u, t.owes.value), d)
    ensures SameSignals(compressed, m, t, u, m, Paid(t), WithSignal(u, t.owes.value))
  {
    forall s: Signal {
      SendingArrives(t, u, s);
    }
    assert forall q :: Taken(Paid(t), q) == Taken(t, q);
  }

  lemma HearingArrives(t: Task, u: Up, s0: Signal, s: Signal)
    requires 0 < Pending(u, s0)
    ensures Arrived(t, WithoutSignal(u, s0), s) == Arrived(t, u, s) + if s == s0 then 1 else 0
  {
  }

  lemma HearingKeeps(compressed: bool, m: Task, t: Task, u: Up, s0: Signal)
    requires Heard(compressed, m, t, u) && 0 < Pending(u, s0)
    ensures Heard(compressed, m, t, WithoutSignal(u, s0))
  {
    HearingArrives(t, u, s0, ReduceReady);
    HearingArrives(t, u, s0, ContextPushReady);
    HearingArrives(t, u, s0, PushReady);
    HearingArrives(t, u, s0, BcastReady);
  }

  /** A signal that is under way has not been counted, and counting it is what the table records. */
  lemma SignalCounts(compressed: bool, m: Task, t: Task, u: Up, d: Down, s0: Signal)
    requires TaskOk(true, compressed, m) && TaskOk(false, compressed, t) && PairOk(compressed, m, t, u, d)
    requires 0 < Pending(u, s0)
    ensures !Counted(compressed, m, t, u, s0)
    ensures Counted(compressed, m, t, WithoutSignal(u, s0), s0)
  {
    PairBounds(compressed, m, t, u, d);
    assert Arrived(t, u, s0) + Pending(u, s0) <= Taken(m, Gate(compressed, s0)) + 1;
    assert Taken(m, Gate(compressed, s0)) <= Arrived(t, u, s0);
    HearingArrives(t, u, s0, s0);
  }

  // ---------------------------------------------------------------------------
  // The shared buffer

  /** While the root reads the buffer for its push, the rank has copied its slice out and has not begun the next round's. */
  lemma ReadsAfterCopies(compressed: bool, m: Task, t: Task, u: Up, d: Down)
    requires TaskOk(true, compressed, m) && TaskOk(false, compressed, t) && PairOk(compressed, m, t, u, d)
    requires m.stage == Some(ReadStage(compressed)) && m.running
    ensures Taken(t, COPYD2H) == Finished(t, COPYD2H) == m.round + 1
  {
  }

  /** While a pull writes the buffer, the rank neither copies out nor in. */
  lemma PullsAlone(compressed: bool, m: Task, t: Task, u: Up, d: Down)
    requires TaskOk(true, compressed, m) && TaskOk(false, compressed, t) && PairOk(compressed, m, t, u, d)
    requires Taken(m, PULL) == Finished(m, LastPull(compressed)) + 1
    ensures Taken(t, COPYD2H) == Finished(t, COPYD2H) == Taken(m, PULL)
    ensures Taken(t, COPYH2D) == Finished(t, COPYH2D) == Finished(m, LastPull(compressed))
  {
  }

  /** A rank that copies in does so between the end of its round's pull and the next copy out. */
  lemma CopiesInAfterPull(compressed: bool, m: Task, t: Task, u: Up, d: Down)
    requires TaskOk(true, compressed, m) && TaskOk(false, compressed, t) && PairOk(compressed, m, t, u, d)
    requires t.stage == Some(COPYH2D) && t.running
    ensures Finished(m, LastPull(compressed)) == Taken(m, PULL) == Taken(t, COPYD2H) == t.round + 1
  {
  }

  /** A rank that copies out does so after the previous pull has ended and before the root reads. */
  lemma CopiesOutBeforeRead(compressed: bool, m: Task, t: Task, u: Up, d: Down)
    requires TaskOk(true, compressed, m) && TaskOk(false, compressed, t) && PairOk(compressed, m, t, u, d)
    requires t.stage == Some(COPYD2H) && t.running
    ensures Finished(m, LastPull(compressed)) == Taken(m, PULL) == Taken(m, ReadStage(compressed)) == t.round
  {
  }
}
