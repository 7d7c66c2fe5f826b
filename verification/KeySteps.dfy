/** Every turn of the server on one key keeps the key's invariant. */
module KeySteps {
  import opened Options
  import opened EngineThreads
  import opened Sequences
  import opened Aggregation
  import opened KeyProtocol

  lemma DeliverOne<V>(tr: Track<V>, o: Output)
    ensures DeliverAll(tr, [o]) == Deliver(tr, o)
  {
    assert [o][..0] == [];
  }

  lemma {:induction false} DeliverAcks<V>(tr: Track<V>, to: seq<Worker>, x: Key)
    requires Distinct(to) && forall w :: w in to ==> w < |tr.peers|
    ensures var r := DeliverAll(tr, Acks(to, x));
            && r == tr.(peers := r.peers) && |r.peers| == |tr.peers|
            && forall w :: 0 <= w < |tr.peers| ==>
                 r.peers[w] == if w in to then Acked(tr.peers[w]) else tr.peers[w]
    decreases |to|
  {
    if to != [] {
      var init, last := to[..|to| - 1], to[|to| - 1];
      assert to == init + [last];
      assert forall w :: w in init ==> w in to;
      DeliverAcks(tr, init, x);
      assert Acks(to, x)[..|to| - 1] == Acks(init, x);
    }
  }

  lemma {:induction false} DeliverReplies<V>(tr: Track<V>, to: seq<Worker>, x: Key)
    requires Distinct(to) && forall w :: w in to ==> w < |tr.peers|
    ensures var r := DeliverAll(tr, Replies(to, x));
            && r == tr.(peers := r.peers) && |r.peers| == |tr.peers|
            && forall w :: 0 <= w < |tr.peers| ==>
                 r.peers[w] == if w in to then Answered(tr.peers[w]) else tr.peers[w]
    decreases |to|
  {
    if to != [] {
      var init, last := to[..|to| - 1], to[|to| - 1];
      assert to == init + [last];
      assert forall w :: w in init ==> w in to;
      DeliverReplies(tr, init, x);
      assert Replies(to, x)[..|to| - 1] == Replies(init, x);
    }
  }

  // ---------------------------------------------------------------------------
  // Push

  /** All workers acknowledged, nothing pushed in any round: the key runs. */
  lemma FirstRunning<V>(c: Config<V>, x: Key, v: View<V>, tr: Track<V>)
    requires 0 < c.n && 0 < c.pieces && v.stored.Some? && v.reqs == [] && v.queue == [] && v.flags == NO_FLAGS
    requires tr.rounds == [] && tr.order == [] && tr.done == 0
    requires |tr.peers| == c.n && |tr.applied| == c.n && |tr.replies| == c.n && |tr.leaving| == c.n
    requires forall w :: 0 <= w < c.n ==>
               tr.peers[w] == Peer(0, ToPush) && tr.applied[w] == 0 && tr.replies[w] == [] && tr.leaving[w] == []
    ensures Running(c, x, v, tr)
  {
    assert v.flags.seen == {};
    assert Pending(c, x, 0, [], 0) == [];
  }

  lemma InitPushKeeps<V>(c: Config<V>, x: Key, v: View<V>, tr: Track<V>, w: Worker)
    requires KeyInv(c, x, v, tr) && v.stored.None? && CanPush(tr, w)
    ensures var r := KeyPush(c.n, v, w, x, Payload(c, x, tr, w));
            KeyInv(c, x, r.view, DeliverAll(Pushing(tr, w), r.out))
  {
    var reqs := v.reqs + [w];
    DistinctSnoc(v.reqs, w);
    DistinctBelow(reqs, c.n);
    var tr1 := Pushing(tr, w);
    if |reqs| == c.n {
      DeliverAcks(tr1, reqs, x);
      var r := KeyPush(c.n, v, w, x, Payload(c, x, tr, w));
      var tr2 := DeliverAll(tr1, r.out);
      FirstRunning(c, x, r.view, tr2);
    }
  }

  lemma {:induction false} PendingSnoc<V>(c: Config<V>, x: Key, k: nat, order: seq<Worker>, done: nat, w: Worker)
    requires done <= |order| < c.n
    ensures Pending(c, x, k, order + [w], done) ==
            Pending(c, x, k, order, done) + [DataMessage(c, x, k, order + [w], |order|)]
            + (if |order| + 1 == c.n then [AllRecv(x)] else [])
    decreases |order| - done
  {
    if done < |order| {
      PendingSnoc(c, x, k, order, done + 1, w);
      assert DataMessage(c, x, k, order + [w], done) == DataMessage(c, x, k, order, done);
    } else {
      assert Pending(c, x, k, order + [w], done + 1) == if |order| + 1 == c.n then [AllRecv(x)] else [];
    }
  }

  lemma PushQueue<V>(c: Config<V>, x: Key, v: View<V>, order: seq<Worker>, done: nat, k: nat, w: Worker)
    requires done <= |order| < c.n && QueueOk(c, x, v.queue, v.reqs, order, done, k) && v.stored.Some?
    ensures var r := KeyPush(c.n, v, w, x, c.val(w, x, k));
            QueueOk(c, x, r.view.queue, r.view.reqs, order + [w], done, k)
  {
    PendingSnoc(c, x, k, order, done, w);
  }

  /** The worker that pushes joins the order; nothing changes for the others. */
  lemma PushWorkers<V>(n: nat, f: Flags, tr: Track<V>, tr2: Track<V>, w: Worker)
    requires tr.done <= |tr.order| && WorkersOk(n, f, tr) && w < n && w !in tr.order
    requires tr.peers[w] == Peer(|tr.rounds|, ToPush)
    requires tr2 == tr.(peers := tr.peers[w := Peer(|tr.rounds|, ToPull)], order := tr.order + [w])
    ensures tr2.done <= |tr2.order| && WorkersOk(n, f, tr2)
  {
    assert tr2.order[..tr.done] == tr.order[..tr.done];
  }

  lemma PushFits<V>(c: Config<V>, x: Key, v: View<V>, tr: Track<V>, w: Worker)
    requires Running(c, x, v, tr) && CanPush(tr, w)
    ensures w < c.n && w !in tr.order && tr.peers[w] == Peer(|tr.rounds|, ToPush) && |tr.order| < c.n
    ensures Round(c.n, tr.order + [w])
  {
    DistinctSnoc(tr.order, w);
    DistinctBelow(tr.order + [w], c.n);
  }

  /** A push that waits in the queue does not touch the buffer. */
  lemma StoreWaits<V>(c: Config<V>, x: Key, v: View<V>, order: seq<Worker>, done: nat, rounds: seq<seq<Worker>>, w: Worker)
    requires done <= |order| && StoreOk(c, x, v.stored, v.merged, order, done, rounds)
    ensures StoreOk(c, x, v.stored, v.merged, order + [w], done, rounds)
  {
    assert (order + [w])[..done] == order[..done];
  }

  lemma PushRunning<V>(c: Config<V>, x: Key, v: View<V>, tr: Track<V>, w: Worker, queue: seq<Message<V>>, reqs: seq<Worker>)
    requires Running(c, x, v, tr) && CanPush(tr, w)
    requires QueueOk(c, x, queue, reqs, tr.order + [w], tr.done, |tr.rounds|)
    ensures Running(c, x, v.(queue := queue, reqs := reqs),
                    tr.(peers := tr.peers[w := Peer(|tr.rounds|, ToPull)], order := tr.order + [w]))
  {
    var tr2 := tr.(peers := tr.peers[w := Peer(|tr.rounds|, ToPull)], order := tr.order + [w]);
    PushFits(c, x, v, tr, w);
    PushWorkers(c.n, v.flags, tr, tr2, w);
    StoreWaits(c, x, v, tr.order, tr.done, tr.rounds, w);
    assert AllLeavingOk(c, x, tr2) by {
      assert tr2.order[..tr.done] == tr.order[..tr.done];
      PeerMoves(c, x, tr, tr2, w);
    }
  }

  lemma RoundPushKeeps<V>(c: Config<V>, x: Key, v: View<V>, tr: Track<V>, w: Worker)
    requires KeyInv(c, x, v, tr) && v.stored.Some? && CanPush(tr, w)
    ensures var r := KeyPush(c.n, v, w, x, Payload(c, x, tr, w));
            KeyInv(c, x, r.view, DeliverAll(Pushing(tr, w), r.out))
  {
    var k := |tr.rounds|;
    PushFits(c, x, v, tr, w);
    var r := KeyPush(c.n, v, w, x, Payload(c, x, tr, w));
    var tr2 := tr.(peers := tr.peers[w := Peer(k, ToPull)], order := tr.order + [w]);
    assert DeliverAll(Pushing(tr, w), r.out) == tr2 by { DeliverOne(Pushing(tr, w), PushAck(w, x)); }
    assert r.view == v.(queue := r.view.queue, reqs := r.view.reqs);
    PushQueue(c, x, v, tr.order, tr.done, k, w);
    PushRunning(c, x, v, tr, w, r.view.queue, r.view.reqs);
  }

  /** A worker without a reply under way moves on; the replies under way are not touched. */
  lemma PeerMoves<V>(c: Config<V>, x: Key, tr: Track<V>, tr2: Track<V>, w: Worker)
    requires tr.done <= |tr.order| && tr2.done <= |tr2.order| && AllLeavingOk(c, x, tr)
    requires w < |tr.peers| == |tr2.peers| && tr.peers[w].phase != Leaving && tr2.leaving == tr.leaving
    requires forall u :: 0 <= u < |tr.peers| && u != w ==> tr2.peers[u] == tr.peers[u]
    requires tr2.rounds == tr.rounds && tr2.order[..tr2.done] == tr.order[..tr.done]
    ensures AllLeavingOk(c, x, tr2)
  {
    assert LeavingOk(c, x, tr.rounds, tr.order[..tr.done], tr.peers[w], tr.leaving[w]);
    assert tr.leaving[w] == [];
  }

  // ---------------------------------------------------------------------------
  // Pull

  lemma SeenSize(n: nat, seen: set<Worker>)
    requires forall w :: w in seen ==> w < n
    ensures |seen| <= n
    ensures |seen| == n <==> forall w :: 0 <= w < n ==> w in seen
  {
    BelowSize(n);
    assert seen <= Below(n);
    SubsetSize(seen, Below(n));
    if forall w :: 0 <= w < n ==> w in seen { assert seen == Below(n); }
  }

  /** A worker whose round is not answerable yet waits among the parked. */
  lemma ParkWorkers<V>(n: nat, f: Flags, tr: Track<V>, w: Worker)
    requires tr.done <= |tr.order| && WorkersOk(n, f, tr) && w < n && CanPull(tr, w)
    requires !(f.finished && w !in f.seen)
    ensures w !in f.parked && WorkersOk(n, f.(parked := f.parked + [w]), Pulling(tr, w))
  {
  }

  lemma ParkFlags(n: nat, f: Flags, k: nat, w: Worker)
    requires FlagsOk(n, f, k) && w < n && w !in f.parked
    ensures FlagsOk(n, f.(parked := f.parked + [w]), k)
  {
    DistinctSnoc(f.parked, w);
  }

  /** A pull changes flags and peers only. */
  lemma OnlyFlags<V>(c: Config<V>, x: Key, v: View<V>, tr: Track<V>, f: Flags, peers: seq<Peer>)
    requires KeyInv(c, x, v, tr) && v.stored.Some?
    requires FlagsOk(c.n, f, |tr.rounds|) && WorkersOk(c.n, f, tr.(peers := peers)) && AllLeavingOk(c, x, tr.(peers := peers))
    ensures KeyInv(c, x, v.(flags := f), tr.(peers := peers))
  {
  }

  lemma PullParkedKeeps<V>(c: Config<V>, x: Key, v: View<V>, tr: Track<V>, w: Worker)
    requires KeyInv(c, x, v, tr) && v.stored.Some? && CanPull(tr, w)
    requires !(v.flags.finished && w !in v.flags.seen)
    ensures var r := KeyPull(c.n, v, w, x);
            r.out == [] && KeyInv(c, x, r.view, Pulling(tr, w))
  {
    var f, peers := v.flags.(parked := v.flags.parked + [w]), tr.peers[w := tr.peers[w].(phase := Waiting)];
    assert KeyPull(c.n, v, w, x) == Turn(v.(flags := f), []) && Pulling(tr, w) == tr.(peers := peers);
    assert KeyInv(c, x, v.(flags := f), tr.(peers := peers)) by {
      ParkWorkers(c.n, v.flags, tr, w);
      ParkFlags(c.n, v.flags, |tr.rounds|, w);
      PeerMoves(c, x, tr, tr.(peers := peers), w);
      OnlyFlags(c, x, v, tr, f, peers);
    }
  }

  lemma AnsweredWorkers<V>(n: nat, f: Flags, tr: Track<V>, tr2: Track<V>, w: Worker)
    requires OrderOk(n, tr.order, tr.done, tr.rounds) && FlagsOk(n, f, |tr.rounds|) && WorkersOk(n, f, tr)
    requires w < n && f.finished && w !in f.seen && tr.peers[w].phase == ToPull
    requires tr2 == tr.(peers := tr.peers[w := tr.peers[w].(phase := Leaving)])
    ensures var f' := ResetIfComplete(n, Answer(f, w));
            FlagsOk(n, f', |tr.rounds|) && WorkersOk(n, f', tr2)
  {
    SeenSize(n, f.seen + {w});
  }

  lemma AnswerDelivered<V>(tr: Track<V>, w: Worker, x: Key)
    requires CanPull(tr, w)
    ensures DeliverAll(Pulling(tr, w), [PullReply(w, x)])
         == tr.(peers := tr.peers[w := tr.peers[w].(phase := Leaving)])
  {
    DeliverOne(Pulling(tr, w), PullReply(w, x));
  }

  lemma PullAnsweredKeeps<V>(c: Config<V>, x: Key, v: View<V>, tr: Track<V>, w: Worker)
    requires KeyInv(c, x, v, tr) && v.stored.Some? && CanPull(tr, w)
    requires v.flags.finished && w !in v.flags.seen
    ensures var r := KeyPull(c.n, v, w, x);
            KeyInv(c, x, r.view, DeliverAll(Pulling(tr, w), r.out))
  {
    var r := KeyPull(c.n, v, w, x);
    var tr2 := tr.(peers := tr.peers[w := tr.peers[w].(phase := Leaving)]);
    assert r == Turn(v.(flags := r.view.flags), [PullReply(w, x)]);
    AnswerDelivered(tr, w, x);
    assert KeyInv(c, x, r.view, tr2) by {
      AnsweredWorkers(c.n, v.flags, tr, tr2, w);
      PeerMoves(c, x, tr, tr2, w);
      OnlyFlags(c, x, v, tr, r.view.flags, tr2.peers);
    }
  }

  // ---------------------------------------------------------------------------
  // Replies that leave

  /** What a read of the buffer finds: the last round, unless the engine already works on the next one. */
  lemma ReadOk<V>(c: Config<V>, x: Key, v: View<V>, tr: Track<V>)
    requires OrderOk(c.n, tr.order, tr.done, tr.rounds) && 0 < c.n && 0 < |tr.rounds|
    requires StoreOk(c, x, v.stored, v.merged, tr.order, tr.done, tr.rounds)
    ensures PieceOk(c, x, tr.rounds, |tr.rounds| - 1, Piece(v.stored.value, tr.order[..tr.done]))
  {
    DistinctPrefix(tr.order, tr.done);
    assert forall w :: w in tr.order[..tr.done] ==> w in tr.order;
  }

  /** One more read joins the ones before it. */
  lemma ReadJoins<V>(c: Config<V>, x: Key, rounds: seq<seq<Worker>>, now: seq<Worker>, p: Peer, got: Reply<V>, r: Piece<V>)
    requires LeavingOk(c, x, rounds, now, p, got) && PieceOk(c, x, rounds, p.round, r) && r.ahead == now
    ensures PiecesOk(c, x, rounds, p.round, got + [r])
    ensures forall i :: 0 <= i < |got + [r]| ==> (got + [r])[i].ahead <= now
  {
  }

  /** One more reply for one worker. */
  lemma RepliesGrow<V>(c: Config<V>, x: Key, replies: seq<seq<Reply<V>>>, rounds: seq<seq<Worker>>, w: Worker, r: Reply<V>)
    requires RepliesOk(c, x, replies, rounds) && w < |replies| && ReplyOk(c, x, rounds, |replies[w]|, r)
    ensures RepliesOk(c, x, replies[w := replies[w] + [r]], rounds)
  {
    var replies' := replies[w := replies[w] + [r]];
    forall u, j | 0 <= u < |replies'| && 0 <= j < |replies'[u]| ensures ReplyOk(c, x, rounds, j, replies'[u][j]) {
      if j < |replies[u]| { assert ReplyOk(c, x, rounds, j, replies[u][j]); }
    }
  }

  /** A reply whose last read is done: the worker is free to push. */
  lemma SentWorkers<V>(n: nat, f: Flags, tr: Track<V>, tr2: Track<V>, w: Worker)
    requires tr.done <= |tr.order| && WorkersOk(n, f, tr) && w < n && tr.peers[w].phase == Leaving
    requires tr2 == tr.(peers := tr.peers[w := Peer(tr.peers[w].round + 1, ToPush)], replies := tr2.replies,
                        leaving := tr2.leaving)
    requires |tr2.replies| == n && |tr2.replies[w]| == |tr.replies[w]| + 1
    requires forall u :: 0 <= u < n && u != w ==> tr2.replies[u] == tr.replies[u]
    ensures WorkersOk(n, f, tr2)
  {
  }

  lemma LeavingRound<V>(n: nat, f: Flags, tr: Track<V>, w: Worker)
    requires tr.done <= |tr.order| && WorkersOk(n, f, tr) && w < n && tr.peers[w].phase == Leaving
    ensures tr.peers[w].round + 1 == |tr.rounds| && |tr.replies[w]| == tr.peers[w].round && w !in tr.order
  {
  }

  /** A read that is not the last one only joins what has left. */
  lemma OneReadMore<V>(c: Config<V>, x: Key, v: View<V>, tr: Track<V>, w: Worker, got: Reply<V>)
    requires KeyInv(c, x, v, tr) && v.stored.Some? && CanSend(tr, w) && |got| < c.pieces
    requires LeavingOk(c, x, tr.rounds, tr.order[..tr.done], tr.peers[w], got)
    ensures KeyInv(c, x, v, tr.(leaving := tr.leaving[w := got]))
  {
  }

  /** With the last read the reply is complete. */
  lemma LastReadKeeps<V>(c: Config<V>, x: Key, v: View<V>, tr: Track<V>, w: Worker, got: Reply<V>)
    requires KeyInv(c, x, v, tr) && v.stored.Some? && CanSend(tr, w)
    requires ReplyOk(c, x, tr.rounds, tr.peers[w].round, got)
    ensures KeyInv(c, x, v, tr.(peers := tr.peers[w := Peer(tr.peers[w].round + 1, ToPush)],
                                replies := tr.replies[w := tr.replies[w] + [got]], leaving := tr.leaving[w := []]))
  {
    LeavingRound(c.n, v.flags, tr, w);
    RepliesGrow(c, x, tr.replies, tr.rounds, w, got);
    SentWorkers(c.n, v.flags, tr, tr.(peers := tr.peers[w := Peer(tr.peers[w].round + 1, ToPush)],
                                      replies := tr.replies[w := tr.replies[w] + [got]], leaving := tr.leaving[w := []]), w);
  }

  lemma SendKeeps<V>(c: Config<V>, x: Key, v: View<V>, tr: Track<V>, w: Worker)
    requires KeyInv(c, x, v, tr) && v.stored.Some? && CanSend(tr, w)
    ensures KeyInv(c, x, v, Sending(c.pieces, tr, w, v.stored.value))
  {
    var now, got := tr.order[..tr.done], tr.leaving[w];
    var r := Piece(v.stored.value, now);
    LeavingRound(c.n, v.flags, tr, w);
    ReadOk(c, x, v, tr);
    assert LeavingOk(c, x, tr.rounds, now, tr.peers[w], got);
    ReadJoins(c, x, tr.rounds, now, tr.peers[w], got, r);
    if |got| + 1 == c.pieces {
      LastReadKeeps(c, x, v, tr, w, got + [r]);
    } else {
      OneReadMore(c, x, v, tr, w, got + [r]);
    }
  }

  // ---------------------------------------------------------------------------
  // Engine

  lemma FoldSnoc<V>(c: Config<V>, x: Key, k: nat, order: seq<Worker>, done: nat)
    requires done < |order|
    ensures Fold(c, x, k, order[..done + 1]) ==
            if done == 0 then c.val(order[0], x, k)
            else c.add(Fold(c, x, k, order[..done]), c.val(order[done], x, k))
  {
    assert order[..done + 1][..done] == order[..done];
  }

  lemma DataWorkers<V>(n: nat, f: Flags, tr: Track<V>)
    requires OrderOk(n, tr.order, tr.done, tr.rounds) && WorkersOk(n, f, tr) && tr.done < |tr.order|
    ensures var w := tr.order[tr.done];
            w < n && WorkersOk(n, f, tr.(done := tr.done + 1, applied := tr.applied[w := tr.applied[w] + 1]))
  {
    var w := tr.order[tr.done];
    assert w in tr.order;
    DistinctPrefix(tr.order, tr.done);
    assert tr.order[..tr.done + 1] == tr.order[..tr.done] + [w];
  }

  lemma DataStore<V>(c: Config<V>, x: Key, v: View<V>, tr: Track<V>)
    requires OrderOk(c.n, tr.order, tr.done, tr.rounds) && tr.done < |tr.order|
    requires StoreOk(c, x, v.stored, v.merged, tr.order, tr.done, tr.rounds)
    requires v.queue != [] && v.queue[0] == DataMessage(c, x, |tr.rounds|, tr.order, tr.done)
    ensures StoreOk(c, x, KeyEngine(c.n, c.add, v).view.stored, v.merged, tr.order, tr.done + 1, tr.rounds)
  {
    FoldSnoc(c, x, |tr.rounds|, tr.order, tr.done);
  }

  lemma DataKeeps<V>(c: Config<V>, x: Key, v: View<V>, tr: Track<V>)
    requires KeyInv(c, x, v, tr) && v.stored.Some? && v.queue != [] && !v.queue[0].AllRecv?
    ensures var r := KeyEngine(c.n, c.add, v);
            r.out == [] && KeyInv(c, x, r.view, Applying(tr, v.queue[0]))
  {
    DataWorkers(c.n, v.flags, tr);
    DataStore(c, x, v, tr);
    DataLeaving(c, x, tr, Applying(tr, v.queue[0]));
  }

  /** More of the next round has been applied; what has been read stays what it was. */
  lemma DataLeaving<V>(c: Config<V>, x: Key, tr: Track<V>, tr2: Track<V>)
    requires tr.done < |tr.order| && AllLeavingOk(c, x, tr)
    requires tr2 == tr.(done := tr.done + 1, applied := tr2.applied)
    ensures AllLeavingOk(c, x, tr2)
  {
    assert tr.order[..tr.done] <= tr.order[..tr.done + 1];
    forall w | 0 <= w < |tr2.peers|
      ensures LeavingOk(c, x, tr2.rounds, tr2.order[..tr2.done], tr2.peers[w], tr2.leaving[w])
    {
      assert LeavingOk(c, x, tr.rounds, tr.order[..tr.done], tr.peers[w], tr.leaving[w]);
    }
  }

  /** When every worker has pushed, nobody's reply for the last round is still under way. */
  lemma NoneLeaving<V>(n: nat, f: Flags, tr: Track<V>, w: Worker)
    requires OrderOk(n, tr.order, tr.done, tr.rounds) && WorkersOk(n, f, tr) && |tr.order| == n && w < n
    ensures tr.peers[w].phase != Leaving && tr.peers[w].round == |tr.rounds| && w in tr.order
  {
    DistinctBelow(tr.order, n);
  }

  lemma AllWorkers<V>(n: nat, f: Flags, tr: Track<V>, tr2: Track<V>)
    requires OrderOk(n, tr.order, tr.done, tr.rounds) && FlagsOk(n, f, |tr.rounds|) && WorkersOk(n, f, tr)
    requires |tr.order| == n == tr.done
    requires tr2.applied == tr.applied && tr2.order == [] && tr2.done == 0 && |tr2.rounds| == |tr.rounds| + 1
    requires |tr2.peers| == n && tr2.replies == tr.replies
    requires forall w :: 0 <= w < n ==>
               tr2.peers[w] == if w in f.parked then Answered(tr.peers[w]) else tr.peers[w]
    ensures f.seen == {} && |f.parked| <= n
    ensures var f' := if |f.parked| == n then NO_FLAGS else Flags(true, |f.parked|, Elems(f.parked), []);
            FlagsOk(n, f', |tr2.rounds|) && WorkersOk(n, f', tr2)
  {
    assert tr.order[..n] == tr.order;
    DistinctBelow(tr.order, n);
    assert f.seen == {} by { if f.finished { SeenSize(n, f.seen); } }
    DistinctSize(f.parked);
    DistinctBelow(f.parked, n);
  }

  /** The history with the round closed and the parked pulls answered. */
  ghost function Closed<V>(tr: Track<V>, to: seq<Worker>, x: Key): Track<V>
  {
    DeliverAll(tr.(rounds := tr.rounds + [tr.order], order := [], done := 0), Replies(to, x))
  }

  lemma ClosedShape<V>(n: nat, f: Flags, tr: Track<V>, x: Key)
    requires Round(n, f.parked) && WorkersOkAt(n, f, tr)
    ensures var tr2 := Closed(tr, f.parked, x);
            && tr2 == tr.(rounds := tr.rounds + [tr.order], order := [], done := 0, peers := tr2.peers)
            && |tr2.peers| == n
            && forall w :: 0 <= w < n ==>
                 tr2.peers[w] == if w in f.parked then Answered(tr.peers[w]) else tr.peers[w]
  {
    DeliverReplies(tr.(rounds := tr.rounds + [tr.order], order := [], done := 0), f.parked, x);
  }

  ghost predicate WorkersOkAt<V>(n: nat, f: Flags, tr: Track<V>)
  {
    tr.done <= |tr.order| && WorkersOk(n, f, tr)
  }

  lemma AllFlags<V>(n: nat, f: Flags, tr: Track<V>, x: Key)
    requires OrderOk(n, tr.order, tr.done, tr.rounds) && FlagsOk(n, f, |tr.rounds|) && WorkersOk(n, f, tr)
    requires |tr.order| == n == tr.done
    ensures var d := Drain(n, f.(finished := true), 0);
            var tr2 := Closed(tr, f.parked, x);
            && d.to == f.parked && d.flags.parked == []
            && FlagsOk(n, d.flags, |tr2.rounds|) && WorkersOkAt(n, d.flags, tr2)
  {
    ClosedShape(n, f, tr, x);
    AllWorkers(n, f, tr, Closed(tr, f.parked, x));
    DrainAnswersAll(n, f.(finished := true));
    assert {} + Elems(f.parked) == Elems(f.parked);
  }

  /** Closing a round takes nothing from the replies that have left, and none is under way. */
  lemma AllReplies<V>(c: Config<V>, x: Key, f: Flags, tr: Track<V>)
    requires OrderOk(c.n, tr.order, tr.done, tr.rounds) && FlagsOk(c.n, f, |tr.rounds|) && WorkersOk(c.n, f, tr)
    requires |tr.order| == c.n && 0 < c.pieces && AllLeavingOk(c, x, tr) && RepliesOk(c, x, tr.replies, tr.rounds)
    ensures var tr2 := Closed(tr, f.parked, x);
            tr2.done <= |tr2.order| && AllLeavingOk(c, x, tr2) && RepliesOk(c, x, tr2.replies, tr2.rounds)
  {
    ClosedShape(c.n, f, tr, x);
    var tr2 := Closed(tr, f.parked, x);
    forall w | 0 <= w < c.n ensures tr2.leaving[w] == [] {
      NoneLeaving(c.n, f, tr, w);
      assert LeavingOk(c, x, tr.rounds, tr.order[..tr.done], tr.peers[w], tr.leaving[w]);
    }
    RoundsGrow(c, x, tr.replies, tr.rounds, tr.order);
  }

  lemma RoundsGrow<V>(c: Config<V>, x: Key, replies: seq<seq<Reply<V>>>, rounds: seq<seq<Worker>>, order: seq<Worker>)
    requires RepliesOk(c, x, replies, rounds)
    ensures RepliesOk(c, x, replies, rounds + [order])
  {
    forall w, k | 0 <= w < |replies| && 0 <= k < |replies[w]| ensures ReplyOk(c, x, rounds + [order], k, replies[w][k]) {
      assert ReplyOk(c, x, rounds, k, replies[w][k]);
      forall i | 0 <= i < |replies[w][k]| ensures PieceOk(c, x, rounds + [order], k, replies[w][k][i]) {
        assert PieceOk(c, x, rounds, k, replies[w][k][i]);
      }
    }
  }

  /** The closing message is at the head exactly when every push of the round has been applied. */
  lemma HeadCloses<V>(c: Config<V>, x: Key, queue: seq<Message<V>>, reqs: seq<Worker>, order: seq<Worker>, done: nat, k: nat)
    requires done <= |order| && QueueOk(c, x, queue, reqs, order, done, k) && queue != [] && queue[0].AllRecv?
    ensures done == |order| == c.n && queue[0].key == x && queue[1..] == [] && reqs == []
  {
  }

  /** The buffer, the queue and the history when a round is closed. */
  lemma RoundCloses<V>(c: Config<V>, x: Key, stored: Option<V>, merged: bool, tr: Track<V>)
    requires OrderOk(c.n, tr.order, tr.done, tr.rounds) && tr.done == |tr.order| == c.n && 0 < c.n
    requires StoreOk(c, x, stored, merged, tr.order, tr.done, tr.rounds)
    ensures var rounds := tr.rounds + [tr.order];
            && OrderOk(c.n, [], 0, rounds) && StoreOk(c, x, stored, true, [], 0, rounds)
            && QueueOk(c, x, [], [], [], 0, |rounds|)
            && stored.value == Fold(c, x, |tr.rounds|, tr.order)
  {
    assert tr.order[..tr.done] == tr.order;
  }

  /** The engine's turn on a closing message, spelled out. */
  lemma AllTurn<V>(n: nat, add: (V, V) -> V, v: View<V>)
    requires v.stored.Some? && v.queue != [] && v.queue[0].AllRecv? && v.queue[1..] == []
    ensures var d := Drain(n, v.flags.(finished := true), 0);
            KeyEngine(n, add, v) == Turn(View(v.stored, v.reqs, true, d.flags, []), Replies(d.to, v.queue[0].key))
  {
  }

  lemma AllRunning<V>(c: Config<V>, x: Key, v: View<V>, tr: Track<V>)
    requires Running(c, x, v, tr) && v.stored.Some? && tr.done == |tr.order| == c.n && 0 < c.n && v.reqs == []
    requires 0 < c.pieces
    ensures var d := Drain(c.n, v.flags.(finished := true), 0);
            && d.to == v.flags.parked && d.flags.parked == []
            && Running(c, x, View(v.stored, [], true, d.flags, []), Closed(tr, v.flags.parked, x))
  {
    RoundCloses(c, x, v.stored, v.merged, tr);
    AllFlags(c.n, v.flags, tr, x);
    AllReplies(c, x, v.flags, tr);
    ClosedShape(c.n, v.flags, tr, x);
  }

  lemma AllKeeps<V>(c: Config<V>, x: Key, v: View<V>, tr: Track<V>)
    requires KeyInv(c, x, v, tr) && v.stored.Some? && v.queue != [] && v.queue[0].AllRecv?
    ensures var r := KeyEngine(c.n, c.add, v);
            KeyInv(c, x, r.view, DeliverAll(Applying(tr, v.queue[0]), r.out))
  {
    HeadCloses(c, x, v.queue, v.reqs, tr.order, tr.done, |tr.rounds|);
    AllTurn(c.n, c.add, v);
    AllRunning(c, x, v, tr);
  }
}
