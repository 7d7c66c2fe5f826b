/** Which values the pull replies carry. */
module RoundValues {
  import opened Options
  import opened EngineThreads
  import opened Sequences
  import opened Aggregation
  import opened KeyProtocol
  import opened KeySteps
  import opened RoundProtocol
  import opened RoundTheorems

  /**
   The exact value of every read that makes up a reply, in every run. A read for worker `w`'s reply
   for round `k` finds the sum of all workers' round-`k` pushes in arrival order, unless the engine
   had already applied pushes of round `k + 1` (those of `ahead`): then it finds the sum of just
   those. From one read to the next these only become more.
   */
  lemma ReplyValue<V>(c: Config<V>, events: seq<Event>, trace: seq<Sys<V>>, i: nat, x: Key, w: Worker, k: nat)
    requires IsRun(c, events, trace) && i < |trace| && x in c.keys && w < c.n
    requires x in trace[i].tracks && w < |trace[i].tracks[x].replies| && k < |trace[i].tracks[x].replies[w]|
    ensures var tr := trace[i].tracks[x];
            var r := tr.replies[w][k];
            && 0 < |r| == c.pieces && k < |tr.rounds| && |tr.rounds[k]| == c.n && Round(c.n, tr.rounds[k])
            && (forall p :: 0 <= p < |r| ==>
                  && Round(c.n, r[p].ahead)
                  && r[p].value == if r[p].ahead == [] then Fold(c, x, k, tr.rounds[k]) else Fold(c, x, k + 1, r[p].ahead))
            && (forall p, q :: 0 <= p < q < |r| ==> r[p].ahead <= r[q].ahead)
  {
    RunInv(c, events, trace, i);
    var tr := trace[i].tracks[x];
    assert KeyInv(c, x, ViewOf(trace[i].server, x), tr);
    assert ReplyOk(c, x, tr.rounds, k, tr.replies[w][k]);
    RoundsAreFull(c, x, ViewOf(trace[i].server, x), tr, k, tr.replies[w][k]);
  }

  lemma RoundsAreFull<V>(c: Config<V>, x: Key, v: View<V>, tr: Track<V>, k: nat, r: Reply<V>)
    requires KeyInv(c, x, v, tr) && v.stored.Some? && ReplyOk(c, x, tr.rounds, k, r)
    ensures 0 < |r| && k < |tr.rounds| && |tr.rounds[k]| == c.n && Round(c.n, tr.rounds[k])
  {
    assert PieceOk(c, x, tr.rounds, k, r[0]);
  }

  // ---------------------------------------------------------------------------
  // Exactly when a reply is whole

  /** The last read of a reply found nothing of the next round. */
  predicate LeftInTime<V>(r: Reply<V>)
  {
    r != [] && |r[|r| - 1].ahead| == 0
  }

  /** A reply that left in time is, in every part, the sum of its round. */
  lemma InTimeIsWhole<V>(c: Config<V>, events: seq<Event>, trace: seq<Sys<V>>, i: nat, x: Key, w: Worker, k: nat)
    requires IsRun(c, events, trace) && i < |trace| && x in c.keys && w < c.n
    requires x in trace[i].tracks && w < |trace[i].tracks[x].replies| && k < |trace[i].tracks[x].replies[w]|
    requires LeftInTime(trace[i].tracks[x].replies[w][k])
    ensures var tr := trace[i].tracks[x];
            var r := tr.replies[w][k];
            && |r| == c.pieces && k < |tr.rounds| && |tr.rounds[k]| == c.n && Round(c.n, tr.rounds[k]) && 0 < c.n
            && forall p :: 0 <= p < |r| ==> r[p].value == Fold(c, x, k, tr.rounds[k])
  {
    ReplyValue(c, events, trace, i, x, w, k);
    var r := trace[i].tracks[x].replies[w][k];
    forall p | 0 <= p < |r| ensures |r[p].ahead| == 0 {
      if p < |r| - 1 { assert r[p].ahead <= r[|r| - 1].ahead; }
    }
  }

  /** The step in which the last part of a reply leaves. */
  ghost predicate Completes<V>(c: Config<V>, s: Sys<V>, e: Event)
    requires Enabled(c, s, e)
  {
    e.Send? && |s.tracks[e.x].leaving[e.w]| + 1 == c.pieces
  }

  lemma LastRead<V>(c: Config<V>, x: Key, v: View<V>, tr: Track<V>, w: Worker, value: V)
    requires KeyInv(c, x, v, tr) && v.stored.Some? && CanSend(tr, w) && |tr.leaving[w]| + 1 == c.pieces
    ensures var replies, k := Sending(c.pieces, tr, w, value).replies, tr.peers[w].round;
            && w < |replies| && |replies[w]| == k + 1
            && (LeftInTime(replies[w][k]) <==> tr.done == 0)
  {
    LeavingRound(c.n, v.flags, tr, w);
    var got := tr.leaving[w] + [Piece(value, tr.order[..tr.done])];
    assert got[|got| - 1].ahead == tr.order[..tr.done];
  }

  /** A reply leaves in time exactly when, at its last read, the engine has applied no push of the next round. */
  lemma InTimeExactly<V>(c: Config<V>, events: seq<Event>, trace: seq<Sys<V>>, i: nat)
    requires IsRun(c, events, trace) && i < |events| && Completes(c, trace[i], events[i])
    ensures var x, w := events[i].x, events[i].w;
            var before, after := trace[i].tracks[x], trace[i + 1].tracks[x];
            && w < |before.peers| && w < |after.replies|
            && |after.replies[w]| == before.peers[w].round + 1
            && (LeftInTime(after.replies[w][before.peers[w].round]) <==> before.done == 0)
  {
    RunInv(c, events, trace, i);
    var x, w, server, tr := events[i].x, events[i].w, trace[i].server, trace[i].tracks[events[i].x];
    SendReady(c, server, x, tr, w);
    LastRead(c, x, ViewOf(server, x), tr, w, server.stored[x]);
  }

  // ---------------------------------------------------------------------------
  // Runs in which nobody laps

  ghost predicate NobodyBehind(peers: seq<Peer>, w: Worker)
    requires w < |peers|
  {
    forall u :: 0 <= u < |peers| ==> peers[w].round <= peers[u].round
  }

  /** A push for the next round comes only after every worker has its reply for the last one. */
  ghost predicate NoLap<V>(c: Config<V>, s: Sys<V>, e: Event)
    requires Enabled(c, s, e)
  {
    e.Push? ==> NobodyBehind(s.tracks[e.x].peers, e.w)
  }

  ghost predicate NobodyLaps<V>(c: Config<V>, events: seq<Event>, trace: seq<Sys<V>>)
    requires IsRun(c, events, trace)
  {
    forall i :: 0 <= i < |events| ==> NoLap(c, trace[i], events[i])
  }

  ghost predicate CleanReply<V>(r: Reply<V>)
  {
    forall p :: 0 <= p < |r| ==> |r[p].ahead| == 0
  }

  ghost predicate CleanReplies<V>(replies: seq<seq<Reply<V>>>, leaving: seq<Reply<V>>)
  {
    && (forall w, k :: 0 <= w < |replies| && 0 <= k < |replies[w]| ==> CleanReply(replies[w][k]))
    && (forall w :: 0 <= w < |leaving| ==> CleanReply(leaving[w]))
  }

  ghost predicate SomeLeaving(peers: seq<Peer>)
  {
    exists w :: 0 <= w < |peers| && peers[w].phase == Leaving
  }

  /** While replies for the last round are still to be made or to leave, the next round has not begun. */
  ghost predicate Clean<V>(f: Flags, tr: Track<V>)
  {
    (f.finished || SomeLeaving(tr.peers) ==> tr.order == []) && CleanReplies(tr.replies, tr.leaving)
  }

  /** With a push that does not lap, the previous round's replies have all left. */
  lemma PushFindsRoundClosed<V>(c: Config<V>, x: Key, v: View<V>, tr: Track<V>, w: Worker)
    requires KeyInv(c, x, v, tr) && v.stored.Some? && CanPush(tr, w)
    requires NobodyBehind(tr.peers, w)
    ensures !v.flags.finished && !SomeLeaving(tr.peers)
  {
    forall u | 0 <= u < c.n ensures tr.peers[u].phase != Leaving && (v.flags.finished ==> u in v.flags.seen) {
      assert tr.peers[w].round <= tr.peers[u].round;
    }
    SeenSize(c.n, v.flags.seen);
  }

  lemma CleanPush<V>(c: Config<V>, x: Key, v: View<V>, tr: Track<V>, w: Worker)
    requires KeyInv(c, x, v, tr) && CanPush(tr, w) && Clean(v.flags, tr)
    requires NobodyBehind(tr.peers, w)
    ensures var r := KeyPush(c.n, v, w, x, Payload(c, x, tr, w));
            Clean(r.view.flags, DeliverAll(Pushing(tr, w), r.out))
  {
    var r := KeyPush(c.n, v, w, x, Payload(c, x, tr, w));
    var tr2 := DeliverAll(Pushing(tr, w), r.out);
    if v.stored.Some? {
      PushFindsRoundClosed(c, x, v, tr, w);
      DeliverOne(Pushing(tr, w), PushAck(w, x));
      assert tr2.peers == tr.peers[w := Acked(tr.peers[w].(phase := AckWait))];
    } else {
      DeliverKeepsOrder(Pushing(tr, w), r.out);
      DeliverKeepsReplies(Pushing(tr, w), r.out);
    }
  }

  lemma {:induction false} DeliverKeepsReplies<V>(tr: Track<V>, out: seq<Output>)
    ensures var r := DeliverAll(tr, out); r.replies == tr.replies && r.leaving == tr.leaving
    decreases |out|
  {
    if out != [] { DeliverKeepsReplies(tr, out[..|out| - 1]); }
  }

  lemma CleanPull<V>(c: Config<V>, x: Key, v: View<V>, tr: Track<V>, w: Worker)
    requires CanPull(tr, w) && v.stored.Some? && Clean(v.flags, tr)
    ensures var r := KeyPull(c.n, v, w, x);
            Clean(r.view.flags, DeliverAll(Pulling(tr, w), r.out))
  {
    var r := KeyPull(c.n, v, w, x);
    DeliverKeepsOrder(Pulling(tr, w), r.out);
    DeliverKeepsReplies(Pulling(tr, w), r.out);
    if v.flags.finished && w !in v.flags.seen {
      DeliverOne(Pulling(tr, w), PullReply(w, x));
    } else {
      var peers := DeliverAll(Pulling(tr, w), r.out).peers;
      assert peers == tr.peers[w := tr.peers[w].(phase := Waiting)];
      assert SomeLeaving(peers) ==> SomeLeaving(tr.peers);
    }
  }

  lemma CleanEngine<V>(c: Config<V>, x: Key, v: View<V>, tr: Track<V>)
    requires KeyInv(c, x, v, tr) && v.stored.Some? && v.queue != [] && Clean(v.flags, tr)
    ensures var r := KeyEngine(c.n, c.add, v);
            Clean(r.view.flags, DeliverAll(Applying(tr, v.queue[0]), r.out))
  {
    var r := KeyEngine(c.n, c.add, v);
    DeliverKeepsOrder(Applying(tr, v.queue[0]), r.out);
    DeliverKeepsReplies(Applying(tr, v.queue[0]), r.out);
  }

  lemma CleanSend<V>(c: Config<V>, f: Flags, tr: Track<V>, w: Worker, value: V)
    requires CanSend(tr, w) && Clean(f, tr)
    ensures Clean(f, Sending(c.pieces, tr, w, value))
  {
    assert SomeLeaving(tr.peers);
    var tr2 := Sending(c.pieces, tr, w, value);
    var got := tr.leaving[w] + [Piece(value, tr.order[..tr.done])];
    assert CleanReply(got);
    assert SomeLeaving(tr2.peers) ==> SomeLeaving(tr.peers);
  }

  ghost predicate SysClean<V>(s: Sys<V>)
  {
    forall x :: x in s.tracks ==> Clean(ViewOf(s.server, x).flags, s.tracks[x])
  }

  lemma CleanSettled<V>(s: Sys<V>, x: Key, tr: Track<V>, r: Outcome<V>)
    requires SysClean(s) && r.Handled? && AllFor(r.out, x) && OthersSame(s.server, r.server, x)
    requires Clean(ViewOf(r.server, x).flags, DeliverAll(tr, r.out))
    ensures SysClean(Settle(s, x, tr, r).value)
  {
    SettleOwn(s, x, tr, r);
  }

  lemma CleanPushStep<V>(c: Config<V>, s: Sys<V>, w: Worker, x: Key)
    requires WellFormed(c) && SysInv(c, s) && Enabled(c, s, Push(w, x)) && NoLap(c, s, Push(w, x)) && SysClean(s)
    ensures Step(c, s, Push(w, x)).Some? && SysClean(Step(c, s, Push(w, x)).value)
  {
    var tr := s.tracks[x];
    var payload := Payload(c, x, tr, w);
    PushView(c, s.server, w, x, payload);
    CleanPush(c, x, ViewOf(s.server, x), tr, w);
    PushOwn(c, s.server, w, x, payload, c.lens(x));
    CleanSettled(s, x, Pushing(tr, w), HandlePush(c.n, s.server, w, x, payload, c.lens(x)));
  }

  lemma CleanPullStep<V>(c: Config<V>, s: Sys<V>, w: Worker, x: Key)
    requires WellFormed(c) && SysInv(c, s) && Enabled(c, s, Pull(w, x)) && SysClean(s)
    ensures Step(c, s, Pull(w, x)).Some? && SysClean(Step(c, s, Pull(w, x)).value)
  {
    var tr := s.tracks[x];
    PullReady(c, s.server, x, tr, w);
    PullView(c, s.server, w, x);
    CleanPull(c, x, ViewOf(s.server, x), tr, w);
    PullOwn(c, s.server, w, x);
    CleanSettled(s, x, Pulling(tr, w), HandlePull(c.n, s.server, w, x));
  }

  lemma CleanEngineStep<V>(c: Config<V>, s: Sys<V>, i: nat)
    requires WellFormed(c) && SysInv(c, s) && Enabled(c, s, Engine(i)) && SysClean(s)
    ensures Step(c, s, Engine(i)).Some? && SysClean(Step(c, s, Engine(i)).value)
  {
    PopView(c, s.server, i);
    EngineView(c, s.server, i);
    var m := s.server.queues[i][0];
    CleanEngine(c, m.key, ViewOf(s.server, m.key), s.tracks[m.key]);
    EngineOwn(c, s.server, i);
    CleanSettled(s, m.key, Applying(s.tracks[m.key], m), EngineTurn(c.n, c.add, s.server, i));
  }

  lemma CleanSet<V>(s: Sys<V>, x: Key, tr: Track<V>)
    requires SysClean(s) && Clean(ViewOf(s.server, x).flags, tr)
    ensures SysClean(s.(tracks := s.tracks[x := tr]))
  {
  }

  lemma CleanSendStep<V>(c: Config<V>, s: Sys<V>, w: Worker, x: Key)
    requires WellFormed(c) && SysInv(c, s) && Enabled(c, s, Send(w, x)) && SysClean(s)
    ensures Step(c, s, Send(w, x)).Some? && SysClean(Step(c, s, Send(w, x)).value)
  {
    SendReady(c, s.server, x, s.tracks[x], w);
    CleanSend(c, ViewOf(s.server, x).flags, s.tracks[x], w, s.server.stored[x]);
    CleanSet(s, x, Sending(c.pieces, s.tracks[x], w, s.server.stored[x]));
  }

  lemma CleanStep<V>(c: Config<V>, s: Sys<V>, e: Event)
    requires WellFormed(c) && SysInv(c, s) && Enabled(c, s, e) && NoLap(c, s, e) && SysClean(s)
    ensures Step(c, s, e).Some? && SysClean(Step(c, s, e).value)
  {
    match e
    case Push(w, x) => CleanPushStep(c, s, w, x);
    case Pull(w, x) => CleanPullStep(c, s, w, x);
    case Engine(i) => CleanEngineStep(c, s, i);
    case Send(w, x) => CleanSendStep(c, s, w, x);
  }

  lemma {:induction false} CleanRun<V>(c: Config<V>, events: seq<Event>, trace: seq<Sys<V>>, i: nat)
    requires IsRun(c, events, trace) && NobodyLaps(c, events, trace) && i < |trace|
    ensures SysClean(trace[i])
  {
    if i != 0 {
      CleanRun(c, events, trace, i - 1);
      RunInv(c, events, trace, i - 1);
      assert NoLap(c, trace[i - 1], events[i - 1]);
      CleanStep(c, trace[i - 1], events[i - 1]);
    }
  }

  /** When nobody laps, every reply is, in every part, the sum of all pushes of its round in their order of arrival. */
  lemma SumRefinement<V>(c: Config<V>, events: seq<Event>, trace: seq<Sys<V>>, i: nat, x: Key, w: Worker, k: nat)
    requires IsRun(c, events, trace) && NobodyLaps(c, events, trace)
    requires i < |trace| && x in c.keys && w < c.n
    requires x in trace[i].tracks && w < |trace[i].tracks[x].replies| && k < |trace[i].tracks[x].replies[w]|
    ensures var tr := trace[i].tracks[x];
            var r := tr.replies[w][k];
            && k < |tr.rounds| && |tr.rounds[k]| == c.n && Round(c.n, tr.rounds[k]) && 0 < c.n
            && |r| == c.pieces && LeftInTime(r)
            && forall p :: 0 <= p < |r| ==> r[p].value == Fold(c, x, k, tr.rounds[k])
  {
    ReplyValue(c, events, trace, i, x, w, k);
    CleanRun(c, events, trace, i);
    assert Clean(ViewOf(trace[i].server, x).flags, trace[i].tracks[x]);
    assert CleanReply(trace[i].tracks[x].replies[w][k]);
    InTimeIsWhole(c, events, trace, i, x, w, k);
  }

  // ---------------------------------------------------------------------------
  // The sum does not depend on the order when addition is associative and commutative

  ghost predicate Commutes<V(!new)>(c: Config<V>)
  {
    && (forall a, b :: c.add(a, b) == c.add(b, a))
    && (forall a, b, d :: c.add(c.add(a, b), d) == c.add(a, c.add(b, d)))
  }

  /** Moving the worker at position `i` to the end leaves the sum alone. */
  lemma {:induction false} FoldMoveLast<V(!new)>(c: Config<V>, x: Key, k: nat, order: seq<Worker>, i: nat)
    requires Commutes(c) && i < |order|
    ensures Fold(c, x, k, order) == Fold(c, x, k, order[..i] + order[i + 1..] + [order[i]])
    decreases |order| - i
  {
    var n := |order|;
    if i == n - 1 {
      assert order[..i] + order[i + 1..] + [order[i]] == order;
    } else {
      var a, b := order[i], order[i + 1];
      var swapped := order[..i] + [b, a] + order[i + 2..];
      FoldSwap(c, x, k, order, i);
      FoldMoveLast(c, x, k, swapped, i + 1);
      assert swapped[..i + 1] + swapped[i + 2..] + [swapped[i + 1]] == order[..i] + order[i + 1..] + [a];
    }
  }

  lemma {:induction false} FoldSwap<V(!new)>(c: Config<V>, x: Key, k: nat, order: seq<Worker>, i: nat)
    requires Commutes(c) && i + 1 < |order|
    ensures Fold(c, x, k, order) == Fold(c, x, k, order[..i] + [order[i + 1], order[i]] + order[i + 2..])
    decreases |order|
  {
    var n := |order|;
    var swapped := order[..i] + [order[i + 1], order[i]] + order[i + 2..];
    if i + 2 < n {
      FoldSwap(c, x, k, order[..n - 1], i);
      assert order[..n - 1][..i] + [order[i + 1], order[i]] + order[..n - 1][i + 2..] == swapped[..n - 1];
    } else {
      assert swapped[..n - 1][..n - 2] == order[..n - 1][..n - 2];
    }
  }

  /** Two arrival orders of the same workers give the same sum. */
  lemma {:induction false} FoldAnyOrder<V(!new)>(c: Config<V>, x: Key, k: nat, a: seq<Worker>, b: seq<Worker>)
    requires Commutes(c) && a != [] && multiset(a) == multiset(b)
    ensures b != [] && Fold(c, x, k, a) == Fold(c, x, k, b)
    decreases |a|
  {
    assert |multiset(a)| == |a| && |multiset(b)| == |b|;
    var n := |a| - 1;
    var last := a[n];
    assert a == a[..n] + [last];
    assert last in multiset(a);
    var i :| 0 <= i < |b| && b[i] == last;
    FoldMoveLast(c, x, k, b, i);
    var rest := b[..i] + b[i + 1..];
    assert (rest + [last])[..n] == rest;
    assert multiset(rest) == multiset(a[..n]) by {
      assert b == b[..i] + [b[i]] + b[i + 1..];
      assert multiset(rest) == multiset(b) - multiset{last};
    }
    if n > 0 { FoldAnyOrder(c, x, k, a[..n], rest); }
  }

  // ---------------------------------------------------------------------------
  // Exactly when a reply is right

  type Tag = (Worker, nat)

  /** Pushes that say who pushed in which round; addition records them all. */
  function Tagged(n: nat, t: nat, keys: set<Key>, lens: Key -> nat, pieces: nat): Config<seq<Tag>>
  {
    Config(n, t, keys, lens, (a: seq<Tag>, b: seq<Tag>) => a + b,
           (w: Worker, x: Key, k: nat) => [(w, k)], (w: Worker, x: Key) => [], pieces)
  }

  lemma {:induction false} TaggedFold(n: nat, t: nat, keys: set<Key>, lens: Key -> nat, pieces: nat, x: Key, k: nat,
                                      order: seq<Worker>)
    requires order != []
    ensures var f := Fold(Tagged(n, t, keys, lens, pieces), x, k, order);
            |f| == |order| && forall i :: 0 <= i < |f| ==> f[i] == (order[i], k)
    decreases |order|
  {
    if |order| > 1 { TaggedFold(n, t, keys, lens, pieces, x, k, order[..|order| - 1]); }
  }

  /** Every part of a reply for round `k` holds what every worker pushed in round `k`. */
  ghost predicate Complete(n: nat, k: nat, r: Reply<seq<Tag>>)
  {
    forall p, u :: 0 <= p < |r| && 0 <= u < n ==> (u, k) in r[p].value
  }

  lemma WholeIsComplete(n: nat, t: nat, keys: set<Key>, lens: Key -> nat, pieces: nat, x: Key, k: nat,
                        order: seq<Worker>, u: Worker)
    requires Round(n, order) && |order| == n && u < n
    ensures (u, k) in Fold(Tagged(n, t, keys, lens, pieces), x, k, order)
  {
    DistinctBelow(order, n);
    TaggedFold(n, t, keys, lens, pieces, x, k, order);
    assert u in order;
    var j :| 0 <= j < n && order[j] == u;
    assert Fold(Tagged(n, t, keys, lens, pieces), x, k, order)[j] == (u, k);
  }

  /** A reply is right exactly when it left in time. */
  lemma CompleteExactlyInTime(n: nat, t: nat, keys: set<Key>, lens: Key -> nat, pieces: nat,
                              events: seq<Event>, trace: seq<Sys<seq<Tag>>>, i: nat, x: Key, w: Worker, k: nat)
    requires IsRun(Tagged(n, t, keys, lens, pieces), events, trace) && i < |trace| && x in keys && w < n
    requires x in trace[i].tracks && w < |trace[i].tracks[x].replies| && k < |trace[i].tracks[x].replies[w]|
    ensures Complete(n, k, trace[i].tracks[x].replies[w][k]) <==> LeftInTime(trace[i].tracks[x].replies[w][k])
  {
    var c := Tagged(n, t, keys, lens, pieces);
    ReplyValue(c, events, trace, i, x, w, k);
    var tr := trace[i].tracks[x];
    var r := tr.replies[w][k];
    if LeftInTime(r) {
      InTimeIsWhole(c, events, trace, i, x, w, k);
      forall p, u | 0 <= p < |r| && 0 <= u < n ensures (u, k) in r[p].value {
        WholeIsComplete(n, t, keys, lens, pieces, x, k, tr.rounds[k], u);
      }
    } else {
      var last := r[|r| - 1];
      TaggedFold(n, t, keys, lens, pieces, x, k + 1, last.ahead);
      assert (0, k) !in last.value;
    }
  }

  /**
   The reply that leaves in step `i`, made at once or after parking, is the sum of its round if and
   only if no push of the next round has been applied in the state it leaves in.
   */
  lemma RightExactlyWhenNotBegun(n: nat, t: nat, keys: set<Key>, lens: Key -> nat, pieces: nat,
                                 events: seq<Event>, trace: seq<Sys<seq<Tag>>>, i: nat)
    requires IsRun(Tagged(n, t, keys, lens, pieces), events, trace)
    requires i < |events| && Completes(Tagged(n, t, keys, lens, pieces), trace[i], events[i])
    ensures var x, w := events[i].x, events[i].w;
            var before, after := trace[i].tracks[x], trace[i + 1].tracks[x];
            && x in trace[i + 1].tracks && w < |before.peers| && w < |after.replies|
            && before.peers[w].round < |after.replies[w]|
            && (Complete(n, before.peers[w].round, after.replies[w][before.peers[w].round]) <==> before.done == 0)
  {
    var c := Tagged(n, t, keys, lens, pieces);
    var x, w := events[i].x, events[i].w;
    InTimeExactly(c, events, trace, i);
    RunFacts(c, events, trace, i, x, 0);
    CompleteExactlyInTime(n, t, keys, lens, pieces, events, trace, i + 1, x, w, trace[i].tracks[x].peers[w].round);
  }
}
