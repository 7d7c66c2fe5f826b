/** A run of two workers in which a reply that was made in time is overtaken by the next push while it leaves. */
module TornRun {
  import opened Options
  import opened Sums
  import opened EngineThreads
  import opened Sequences
  import opened Aggregation
  import opened KeyProtocol
  import opened KeySteps
  import opened RoundProtocol
  import opened RoundTheorems
  import opened RoundValues

  function TwoWorkers(): Config<seq<Tag>>
  {
    Tagged(2, 1, {0}, (x: Key) => 1, 2)
  }

  lemma TwoWorkersWellFormed()
    ensures WellFormed(TwoWorkers())
  {
    TotalAdd(TwoWorkers().lens, {}, 0);
    assert {} + {0} == {0};
  }

  /**
   A reply leaves in two reads. Worker 1's pull is answered before worker 0 pushes again, but the
   engine copies that push between the two reads of worker 1's reply.
   */
  const OVERTAKEN: seq<Event> :=
    [Push(0, 0)] + [Push(1, 0)] + [Push(0, 0)] + [Push(1, 0)] + [Engine(0)] + [Engine(0)] + [Engine(0)]
    + [Pull(0, 0)] + [Send(0, 0)] + [Send(0, 0)] + [Pull(1, 0)] + [Send(1, 0)]
    + [Push(0, 0)] + [Engine(0)] + [Send(1, 0)]

  type S = Sys<seq<Tag>>

  /** `events` is a possible run that ends with the single key in this state. */
  ghost predicate Reaches(events: seq<Event>, v: View<seq<Tag>>, tr: Track<seq<Tag>>)
  {
    exists trace: seq<S> :: IsRun(TwoWorkers(), events, trace) && Shows(trace[|events|], v, tr)
  }

  ghost predicate Shows(s: S, v: View<seq<Tag>>, tr: Track<seq<Tag>>)
  {
    0 in s.tracks && ViewOf(s.server, 0) == v && s.tracks[0] == tr
  }

  lemma LongerRun(events: seq<Event>, trace: seq<S>, e: Event, s: S)
    requires IsRun(TwoWorkers(), events, trace) && Enabled(TwoWorkers(), trace[|events|], e)
    requires Step(TwoWorkers(), trace[|events|], e) == Some(s)
    ensures IsRun(TwoWorkers(), events + [e], trace + [s])
  {
  }

  lemma Extended(events: seq<Event>, trace: seq<S>, e: Event, v: View<seq<Tag>>, tr: Track<seq<Tag>>)
    requires IsRun(TwoWorkers(), events, trace) && Enabled(TwoWorkers(), trace[|events|], e)
    requires Step(TwoWorkers(), trace[|events|], e).Some? && Shows(Step(TwoWorkers(), trace[|events|], e).value, v, tr)
    ensures Reaches(events + [e], v, tr)
  {
    var s := Step(TwoWorkers(), trace[|events|], e).value;
    LongerRun(events, trace, e, s);
    assert (trace + [s])[|events + [e]|] == s;
  }

  /** A step on the only key: the run goes on with what the step makes of the key. */
  lemma Handled0(events: seq<Event>, trace: seq<S>, e: Event, v: View<seq<Tag>>)
    requires IsRun(TwoWorkers(), events, trace) && Enabled(TwoWorkers(), trace[|events|], e)
    requires KeyOf(trace[|events|], e) == 0 && Handle(TwoWorkers(), trace[|events|], e).Handled?
    requires 0 in trace[|events|].tracks && ViewOf(Handle(TwoWorkers(), trace[|events|], e).server, 0) == v
    ensures Reaches(events + [e], v, DeliverAll(Moved(TwoWorkers(), trace[|events|], e),
                                                Handle(TwoWorkers(), trace[|events|], e).out))
  {
    var s := trace[|events|];
    StepShape(TwoWorkers(), s, e);
    Extended(events, trace, e, v, DeliverAll(Moved(TwoWorkers(), s, e), Handle(TwoWorkers(), s, e).out));
  }

  lemma Pushed(events: seq<Event>, v: View<seq<Tag>>, tr: Track<seq<Tag>>, w: Worker)
    requires Reaches(events, v, tr) && CanPush(tr, w)
    ensures var r := KeyPush(2, v, w, 0, Payload(TwoWorkers(), 0, tr, w));
            Reaches(events + [Push(w, 0)], r.view, DeliverAll(Pushing(tr, w), r.out))
  {
    var c := TwoWorkers();
    var trace: seq<S> :| IsRun(c, events, trace) && Shows(trace[|events|], v, tr);
    RunInv(c, events, trace, |events|);
    PushView(c, trace[|events|].server, w, 0, Payload(c, 0, tr, w));
    Handled0(events, trace, Push(w, 0), KeyPush(2, v, w, 0, Payload(c, 0, tr, w)).view);
  }

  lemma Pulled(events: seq<Event>, v: View<seq<Tag>>, tr: Track<seq<Tag>>, w: Worker)
    requires Reaches(events, v, tr) && CanPull(tr, w) && v.stored.Some?
    ensures var r := KeyPull(2, v, w, 0);
            Reaches(events + [Pull(w, 0)], r.view, DeliverAll(Pulling(tr, w), r.out))
  {
    var c := TwoWorkers();
    var trace: seq<S> :| IsRun(c, events, trace) && Shows(trace[|events|], v, tr);
    RunInv(c, events, trace, |events|);
    PullReady(c, trace[|events|].server, 0, tr, w);
    PullView(c, trace[|events|].server, w, 0);
    Handled0(events, trace, Pull(w, 0), KeyPull(2, v, w, 0).view);
  }

  lemma Sent(events: seq<Event>, v: View<seq<Tag>>, tr: Track<seq<Tag>>, w: Worker)
    requires Reaches(events, v, tr) && CanSend(tr, w) && v.stored.Some?
    ensures Reaches(events + [Send(w, 0)], v, Sending(2, tr, w, v.stored.value))
  {
    var trace: seq<S> :| IsRun(TwoWorkers(), events, trace) && Shows(trace[|events|], v, tr);
    Handled0(events, trace, Send(w, 0), v);
  }

  /** The only engine thread has the message of the only key at its head. */
  lemma OneThread(s: Server<seq<Tag>>, v: View<seq<Tag>>)
    requires Placed(TwoWorkers(), s) && ViewOf(s, 0) == v && v.queue != [] && v.stored.Some?
    ensures |s.queues| == 1 && s.queues[0] != [] && s.queues[0][0].key == 0 && 0 in s.stored
  {
    assert 0 in s.threads.cache && s.threads.cache[0] == 0;
    assert s.queues[0] != [];
    PopView(TwoWorkers(), s, 0);
    assert s.queues[0][0].key in TwoWorkers().keys;
  }

  lemma Turned(events: seq<Event>, v: View<seq<Tag>>, tr: Track<seq<Tag>>)
    requires Reaches(events, v, tr) && v.queue != [] && v.stored.Some?
    ensures var r := KeyEngine(2, TwoWorkers().add, v);
            Reaches(events + [Engine(0)], r.view, DeliverAll(Applying(tr, v.queue[0]), r.out))
  {
    var c := TwoWorkers();
    var trace: seq<S> :| IsRun(c, events, trace) && Shows(trace[|events|], v, tr);
    RunInv(c, events, trace, |events|);
    OneThread(trace[|events|].server, v);
    EngineView(c, trace[|events|].server, 0);
    Handled0(events, trace, Engine(0), KeyEngine(2, c.add, v).view);
  }

  lemma DeliverTwo<V>(tr: Track<V>, a: Output, b: Output)
    ensures DeliverAll(tr, [a, b]) == Deliver(Deliver(tr, a), b)
  {
    assert [a, b][..1] == [a];
    DeliverOne(tr, a);
  }

  // ---------------------------------------------------------------------------
  // The key at each step of the run

  type V = View<seq<Tag>>
  type T = Track<seq<Tag>>

  const COPY0: Message<seq<Tag>> := CopyFirst(0, 0, [(0, 0)])
  const SUM0: Message<seq<Tag>> := SumRecv(0, 1, [(1, 0)])
  const COPY1: Message<seq<Tag>> := CopyFirst(0, 0, [(0, 1)])
  const WHOLE: seq<Tag> := [(0, 0), (1, 0)]

  const V0: V := View(None, [], false, NO_FLAGS, [])
  const V2: V := View(Some([]), [], false, NO_FLAGS, [])
  const V3: V := View(Some([]), [0], false, NO_FLAGS, [COPY0])
  const V4: V := View(Some([]), [], false, NO_FLAGS, [COPY0, SUM0, AllRecv(0)])
  const V5: V := View(Some([(0, 0)]), [], false, NO_FLAGS, [SUM0, AllRecv(0)])
  const V6: V := View(Some(WHOLE), [], false, NO_FLAGS, [AllRecv(0)])
  const V7: V := View(Some(WHOLE), [], true, Flags(true, 0, {}, []), [])
  const V8: V := View(Some(WHOLE), [], true, Flags(true, 1, {0}, []), [])
  const V9: V := View(Some(WHOLE), [], true, NO_FLAGS, [])
  const V10: V := View(Some(WHOLE), [0], true, NO_FLAGS, [COPY1])
  const V11: V := View(Some([(0, 1)]), [0], true, NO_FLAGS, [])

  const READ: Piece<seq<Tag>> := Piece(WHOLE, [])
  const LATE: Piece<seq<Tag>> := Piece([(0, 1)], [0])

  const T0: T := Track([Peer(0, Fresh), Peer(0, Fresh)], [0, 0], [[], []], [[], []], [], [], 0)
  const T1: T := T0.(peers := [Peer(0, InitWait), Peer(0, Fresh)])
  const T2: T := T0.(peers := [Peer(0, ToPush), Peer(0, ToPush)])
  const T3: T := T2.(peers := [Peer(0, ToPull), Peer(0, ToPush)], order := [0])
  const T4: T := T2.(peers := [Peer(0, ToPull), Peer(0, ToPull)], order := [0, 1])
  const T5: T := T4.(applied := [1, 0], done := 1)
  const T6: T := T4.(applied := [1, 1], done := 2)
  const T7: T := T6.(rounds := [[0, 1]], order := [], done := 0)
  const T8: T := T7.(peers := [Peer(0, Leaving), Peer(0, ToPull)])
  const T9: T := T8.(leaving := [[READ], []])
  const T10: T := T7.(peers := [Peer(1, ToPush), Peer(0, ToPull)], replies := [[[READ, READ]], []])
  const T11: T := T10.(peers := [Peer(1, ToPush), Peer(0, Leaving)])
  const T12: T := T11.(leaving := [[], [READ]])
  const T13: T := T12.(peers := [Peer(1, ToPull), Peer(0, Leaving)], order := [0])
  const T14: T := T13.(applied := [2, 1], done := 1)
  const T15: T := T14.(peers := [Peer(1, ToPull), Peer(1, ToPush)], leaving := [[], []],
                       replies := [[[READ, READ]], [[READ, LATE]]])

  lemma Step2()
    ensures var r := KeyPush(2, V0.(reqs := [0]), 1, 0, Payload(TwoWorkers(), 0, T1, 1));
            r.view == V2 && DeliverAll(Pushing(T1, 1), r.out) == T2
  {
    assert Acks([0, 1], 0) == [PushAck(0, 0), PushAck(1, 0)];
    DeliverTwo(Pushing(T1, 1), PushAck(0, 0), PushAck(1, 0));
    assert Deliver(Deliver(Pushing(T1, 1), PushAck(0, 0)), PushAck(1, 0)).peers == T2.peers;
  }

  lemma Step3()
    ensures var r := KeyPush(2, V2, 0, 0, Payload(TwoWorkers(), 0, T2, 0));
            r.view == V3 && DeliverAll(Pushing(T2, 0), r.out) == T3
  {
    DeliverOne(Pushing(T2, 0), PushAck(0, 0));
    assert Deliver(Pushing(T2, 0), PushAck(0, 0)).peers == T3.peers;
  }

  lemma Step4()
    ensures var r := KeyPush(2, V3, 1, 0, Payload(TwoWorkers(), 0, T3, 1));
            r.view == V4 && DeliverAll(Pushing(T3, 1), r.out) == T4
  {
    DeliverOne(Pushing(T3, 1), PushAck(1, 0));
    assert Deliver(Pushing(T3, 1), PushAck(1, 0)).peers == T4.peers;
    assert V3.queue + [SUM0] + [AllRecv(0)] == V4.queue;
  }

  lemma Steps5To7()
    ensures KeyEngine(2, TwoWorkers().add, V4) == Turn(V5, []) && Applying(T4, V4.queue[0]) == T5
    ensures KeyEngine(2, TwoWorkers().add, V5) == Turn(V6, []) && Applying(T5, V5.queue[0]) == T6
    ensures KeyEngine(2, TwoWorkers().add, V6) == Turn(V7, []) && Applying(T6, V6.queue[0]) == T7
  {
    assert V4.queue[1..] == V5.queue && V5.queue[1..] == V6.queue;
    assert [(0, 0)] + [(1, 0)] == WHOLE;
    assert Drain(2, Flags(true, 0, {}, []), 0) == Drained(Flags(true, 0, {}, []), []);
    assert Replies([], 0) == [];
    assert T4.applied[0 := 1] == T5.applied && T5.applied[1 := 1] == T6.applied;
  }

  lemma Step8()
    ensures var r := KeyPull(2, V7, 0, 0);
            r.view == V8 && DeliverAll(Pulling(T7, 0), r.out) == T8
  {
    DeliverOne(Pulling(T7, 0), PullReply(0, 0));
    assert Deliver(Pulling(T7, 0), PullReply(0, 0)).peers == T8.peers;
  }

  lemma Steps9And10()
    ensures Sending(2, T8, 0, WHOLE) == T9
    ensures Sending(2, T9, 0, WHOLE) == T10
  {
    assert T8.order[..0] == [] && [] + [READ] == [READ];
    assert T8.leaving[0 := [READ]] == T9.leaving;
    assert [READ] + [READ] == [READ, READ] && [] + [[READ, READ]] == [[READ, READ]];
    assert T9.replies[0 := [[READ, READ]]] == T10.replies && T9.leaving[0 := []] == T10.leaving;
    assert T9.peers[0 := Peer(1, ToPush)] == T10.peers;
  }

  lemma Step11()
    ensures var r := KeyPull(2, V8, 1, 0);
            r.view == V9 && DeliverAll(Pulling(T10, 1), r.out) == T11
  {
    DeliverOne(Pulling(T10, 1), PullReply(1, 0));
    assert Deliver(Pulling(T10, 1), PullReply(1, 0)).peers == T11.peers;
  }

  lemma Step12()
    ensures Sending(2, T11, 1, WHOLE) == T12
  {
    assert T11.order[..0] == [] && [] + [READ] == [READ];
    assert T11.leaving[1 := [READ]] == T12.leaving;
  }

  lemma Step13()
    ensures var r := KeyPush(2, V9, 0, 0, Payload(TwoWorkers(), 0, T12, 0));
            r.view == V10 && DeliverAll(Pushing(T12, 0), r.out) == T13
  {
    DeliverOne(Pushing(T12, 0), PushAck(0, 0));
    assert Deliver(Pushing(T12, 0), PushAck(0, 0)).peers == T13.peers;
  }

  lemma Step14()
    ensures KeyEngine(2, TwoWorkers().add, V10) == Turn(V11, []) && Applying(T13, V10.queue[0]) == T14
  {
    assert T13.applied[0 := 2] == T14.applied;
  }

  lemma Step15()
    ensures Sending(2, T14, 1, [(0, 1)]) == T15
  {
    assert T14.order[..1] == [0];
    assert [READ] + [LATE] == [READ, LATE] && [] + [[READ, LATE]] == [[READ, LATE]];
    assert T14.replies[1 := [[READ, LATE]]] == T15.replies && T14.leaving[1 := []] == T15.leaving;
    assert T14.peers[1 := Peer(1, ToPush)] == T15.peers;
  }

  lemma Booted()
    ensures Reaches([], V0, T0)
  {
    var s0: S := Start(TwoWorkers());
    assert s0.tracks[0].peers == T0.peers;
    assert s0.tracks[0].applied == T0.applied;
    assert s0.tracks[0].replies == T0.replies && s0.tracks[0].leaving == T0.leaving;
    TwoWorkersWellFormed();
    assert IsRun(TwoWorkers(), [], [s0]) && Shows([s0][0], V0, T0);
  }

  lemma Initialised()
    ensures Reaches([Push(0, 0)] + [Push(1, 0)], V2, T2)
  {
    Booted();
    Pushed([], V0, T0, 0);
    assert Pushing(T0, 0).peers == T1.peers;
    assert [] + [Push(0, 0)] == [Push(0, 0)];
    Pushed([Push(0, 0)], V0.(reqs := [0]), T1, 1);
    Step2();
  }

  lemma FirstRound(before: seq<Event>)
    requires Reaches(before, V2, T2)
    ensures Reaches(before + [Push(0, 0)] + [Push(1, 0)], V4, T4)
  {
    Pushed(before, V2, T2, 0);
    Step3();
    Pushed(before + [Push(0, 0)], V3, T3, 1);
    Step4();
  }

  lemma Summed(before: seq<Event>)
    requires Reaches(before, V4, T4)
    ensures Reaches(before + [Engine(0)] + [Engine(0)] + [Engine(0)], V7, T7)
  {
    Steps5To7();
    Turned(before, V4, T4);
    Turned(before + [Engine(0)], V5, T5);
    Turned(before + [Engine(0)] + [Engine(0)], V6, T6);
  }

  lemma FirstAnswered(before: seq<Event>)
    requires Reaches(before, V7, T7)
    ensures Reaches(before + [Pull(0, 0)] + [Send(0, 0)] + [Send(0, 0)], V8, T10)
  {
    Pulled(before, V7, T7, 0);
    Step8();
    Steps9And10();
    Sent(before + [Pull(0, 0)], V8, T8, 0);
    Sent(before + [Pull(0, 0)] + [Send(0, 0)], V8, T9, 0);
  }

  lemma SecondAnswered(before: seq<Event>)
    requires Reaches(before, V8, T10)
    ensures Reaches(before + [Pull(1, 0)] + [Send(1, 0)], V9, T12)
  {
    Pulled(before, V8, T10, 1);
    Step11();
    Sent(before + [Pull(1, 0)], V9, T11, 1);
    Step12();
  }

  lemma Overtaken(before: seq<Event>)
    requires Reaches(before, V9, T12)
    ensures Reaches(before + [Push(0, 0)] + [Engine(0)] + [Send(1, 0)], V11, T15)
  {
    Pushed(before, V9, T12, 0);
    Step13();
    Turned(before + [Push(0, 0)], V10, T13);
    Step14();
    Sent(before + [Push(0, 0)] + [Engine(0)], V11, T14, 1);
    Step15();
  }

  /**
   The promise that a reply for a round is the sum of that round's pushes fails, even for a reply
   made before the next round began: worker 1 receives one part of the sum of round 0, and in the
   other part worker 0's push of round 1 and nothing else.
   */
  lemma OvertakingTearsReply()
    ensures exists trace: seq<S> ::
              && IsRun(TwoWorkers(), OVERTAKEN, trace)
              && 0 in trace[|OVERTAKEN|].tracks
              && trace[|OVERTAKEN|].tracks[0].replies ==
                   [[[Piece([(0, 0), (1, 0)], []), Piece([(0, 0), (1, 0)], [])]],
                    [[Piece([(0, 0), (1, 0)], []), Piece([(0, 1)], [0])]]]
  {
    Initialised();
    FirstRound([Push(0, 0)] + [Push(1, 0)]);
    var a := [Push(0, 0)] + [Push(1, 0)] + [Push(0, 0)] + [Push(1, 0)];
    Summed(a);
    var b := a + [Engine(0)] + [Engine(0)] + [Engine(0)];
    FirstAnswered(b);
    var d := b + [Pull(0, 0)] + [Send(0, 0)] + [Send(0, 0)];
    SecondAnswered(d);
    Overtaken(d + [Pull(1, 0)] + [Send(1, 0)]);
    assert T15.replies == [[[READ, READ]], [[READ, LATE]]];
  }
}
