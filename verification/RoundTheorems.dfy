/** What the aggregation protocol promises, for every run of any number of workers, keys and threads. */
module RoundTheorems {
  import opened Options
  import opened EngineThreads
  import opened Sequences
  import opened Aggregation
  import opened KeyProtocol
  import opened KeySteps
  import opened RoundProtocol

  /** `trace` is what happens when `events` occur in this order from the start. */
  ghost predicate IsRun<V>(c: Config<V>, events: seq<Event>, trace: seq<Sys<V>>)
  {
    && WellFormed(c) && |trace| == |events| + 1 && trace[0] == Start(c)
    && forall i :: 0 <= i < |events| ==>
         Enabled(c, trace[i], events[i]) && Step(c, trace[i], events[i]) == Some(trace[i + 1])
  }

  lemma {:induction false} RunInv<V>(c: Config<V>, events: seq<Event>, trace: seq<Sys<V>>, i: nat)
    requires IsRun(c, events, trace) && i < |trace|
    ensures SysInv(c, trace[i])
  {
    if i == 0 {
      StartInv(c);
    } else {
      RunInv(c, events, trace, i - 1);
      StepInv(c, trace[i - 1], events[i - 1]);
    }
  }

  /** What the invariant says about one worker and one key once the key is initialised. */
  lemma WorkerFacts<V>(c: Config<V>, s: Sys<V>, x: Key, w: Worker)
    requires SysInv(c, s) && x in c.keys && w < c.n
    ensures x in s.tracks
    ensures var f, tr := ViewOf(s.server, x).flags, s.tracks[x];
            && |tr.peers| == c.n && |tr.applied| == c.n && |tr.replies| == c.n && tr.done <= |tr.order|
            && tr.peers[w].phase != Broken
            && |tr.replies[w]| == tr.peers[w].round && AnsweredRounds(tr.peers[w]) <= |tr.rounds| <= tr.applied[w]
            && (w in f.parked <==> tr.peers[w].phase == Waiting)
            && (w in f.parked ==> tr.peers[w].round == |tr.rounds|)
            && Pushes(tr.peers[w]) <= |tr.rounds| + 1
            && (tr.rounds != [] && w !in tr.order ==> Pushes(tr.peers[w]) == |tr.rounds|)
  {
    assert KeyInv(c, x, ViewOf(s.server, x), s.tracks[x]);
  }

  lemma RunFacts<V>(c: Config<V>, events: seq<Event>, trace: seq<Sys<V>>, i: nat, x: Key, w: Worker)
    requires IsRun(c, events, trace) && i < |trace| && x in c.keys && w < c.n
    ensures x in trace[i].tracks
    ensures var f, tr := ViewOf(trace[i].server, x).flags, trace[i].tracks[x];
            && |tr.peers| == c.n && |tr.applied| == c.n && |tr.replies| == c.n && tr.done <= |tr.order|
            && tr.peers[w].phase != Broken
            && |tr.replies[w]| == tr.peers[w].round && AnsweredRounds(tr.peers[w]) <= |tr.rounds| <= tr.applied[w]
            && (w in f.parked <==> tr.peers[w].phase == Waiting)
            && (w in f.parked ==> tr.peers[w].round == |tr.rounds|)
  {
    RunInv(c, events, trace, i);
    WorkerFacts(c, trace[i], x, w);
  }

  /**
   Initial pushes wait until all workers have sent theirs, and exactly then the buffer exists. From
   then on every push is acknowledged in the step that handles it.
   */
  lemma AcknowledgedAtOnce<V>(c: Config<V>, events: seq<Event>, trace: seq<Sys<V>>, i: nat, x: Key, w: Worker)
    requires IsRun(c, events, trace) && i < |trace| && x in c.keys && w < c.n
    ensures x in trace[i].tracks && |trace[i].tracks[x].peers| == c.n
    ensures var phase := trace[i].tracks[x].peers[w].phase;
            if x in trace[i].server.stored then phase == ToPush || phase == ToPull || phase == Waiting || phase == Leaving
            else phase == Fresh || phase == InitWait
    ensures x !in trace[i].server.stored ==> exists u :: 0 <= u < c.n && trace[i].tracks[x].peers[u].phase == Fresh
  {
    RunInv(c, events, trace, i);
    assert KeyInv(c, x, ViewOf(trace[i].server, x), trace[i].tracks[x]);
    if x !in trace[i].server.stored {
      var u := MissingPush(c.n, ViewOf(trace[i].server, x).reqs);
      assert trace[i].tracks[x].peers[u].phase == Fresh;
    }
  }

  /** No request or engine turn that can occur makes the server fail a CHECK. */
  lemma ServerNeverCrashes<V>(c: Config<V>, events: seq<Event>, trace: seq<Sys<V>>, e: Event)
    requires IsRun(c, events, trace) && Enabled(c, trace[|events|], e)
    ensures Step(c, trace[|events|], e).Some?
  {
    RunInv(c, events, trace, |events|);
    StepInv(c, trace[|events|], e);
  }

  /** Before anything of a round-`k` reply leaves, every worker's round-`k` push has been applied. */
  lemma NeverAnsweredEarly<V>(c: Config<V>, events: seq<Event>, trace: seq<Sys<V>>, i: nat, x: Key, w: Worker, u: Worker)
    requires IsRun(c, events, trace) && i < |trace| && x in c.keys && w < c.n && u < c.n
    ensures x in trace[i].tracks
    ensures var tr := trace[i].tracks[x];
            && w < |tr.replies| && w < |tr.peers| && u < |tr.applied|
            && |tr.replies[w]| + Bit(tr.peers[w].phase == Leaving) <= tr.applied[u]
  {
    RunFacts(c, events, trace, i, x, w);
    RunFacts(c, events, trace, i, x, u);
  }

  /** The answered pulls of the open round are counted right and are never all of them; parked pulls are of later rounds. */
  lemma FlagsCount<V>(c: Config<V>, events: seq<Event>, trace: seq<Sys<V>>, i: nat, x: Key)
    requires IsRun(c, events, trace) && i < |trace| && x in c.keys
    ensures x in trace[i].tracks
    ensures var f := ViewOf(trace[i].server, x).flags;
            var tr := trace[i].tracks[x];
            && f.pullCnt == |f.seen| < c.n && |tr.peers| == c.n
            && forall w :: w in f.parked ==> w < c.n && tr.peers[w].round == |tr.rounds|
  {
    RunInv(c, events, trace, i);
    assert KeyInv(c, x, ViewOf(trace[i].server, x), trace[i].tracks[x]);
  }

  /** What is queued for a key and the flags of its pulls are on the thread the key was given, and nowhere else. */
  lemma OnOwnThread<V>(c: Config<V>, events: seq<Event>, trace: seq<Sys<V>>, i: nat, t: nat, x: Key)
    requires IsRun(c, events, trace) && i < |trace|
    ensures var s := trace[i].server;
            && |s.queues| == c.t
            && (t < c.t ==> forall m :: m in s.queues[t] && m.key == x ==> x in s.threads.cache && s.threads.cache[x] == t)
            && ((t, x) in s.flags ==> x in s.threads.cache && s.threads.cache[x] == t)
  {
    RunInv(c, events, trace, i);
  }

  lemma MissingPush(n: nat, order: seq<Worker>) returns (u: Worker)
    requires Round(n, order) && |order| != n
    ensures u < n && u !in order
  {
    DistinctBelow(order, n);
    DistinctSize(order);
    BelowSize(n);
    assert Below(n) != Elems(order);
    assert Elems(order) <= Below(n);
    u :| u in Below(n) && u !in Elems(order);
  }

  lemma MissingPushOfKey<V>(c: Config<V>, x: Key, v: View<V>, tr: Track<V>, w: Worker)
    requires KeyInv(c, x, v, tr) && w < c.n && w in v.flags.parked && v.queue == []
    ensures |tr.peers| == c.n
    ensures exists u :: 0 <= u < c.n && Pushes(tr.peers[u]) <= tr.peers[w].round
  {
    assert v.stored.Some?;
    var u := MissingPush(c.n, tr.order);
    assert WorkersOk(c.n, v.flags, tr);
    assert Pushes(tr.peers[u]) == |tr.rounds| == tr.peers[w].round;
  }

  /** No pull is forgotten: if one still waits while the engine has nothing to do for its key, somebody has yet to push. */
  lemma WaitingMeansMissingPush<V>(c: Config<V>, events: seq<Event>, trace: seq<Sys<V>>, i: nat, x: Key, w: Worker)
    requires IsRun(c, events, trace) && i < |trace| && x in c.keys && w < c.n
    requires w in ViewOf(trace[i].server, x).flags.parked
    requires ViewOf(trace[i].server, x).queue == []
    ensures x in trace[i].tracks && |trace[i].tracks[x].peers| == c.n
    ensures exists u :: 0 <= u < c.n && Pushes(trace[i].tracks[x].peers[u]) <= trace[i].tracks[x].peers[w].round
  {
    RunInv(c, events, trace, i);
    assert KeyInv(c, x, ViewOf(trace[i].server, x), trace[i].tracks[x]);
    MissingPushOfKey(c, x, ViewOf(trace[i].server, x), trace[i].tracks[x], w);
  }

  // ---------------------------------------------------------------------------
  // Whoever is answered has asked

  predicate Awaits(p: Peer, o: Output)
  {
    if o.PullReply? then p.phase == Waiting else p.phase == InitWait || p.phase == AckWait
  }

  predicate Served(p: Peer, o: Output)
  {
    if o.PullReply? then p.phase == Leaving else p.phase == ToPush || p.phase == ToPull
  }

  lemma BrokenStays<V>(tr: Track<V>, o: Output, w: Worker)
    requires w < |tr.peers| && Deliver(tr, o).peers[w].phase != Broken
    ensures tr.peers[w].phase != Broken
    ensures o.to == w ==> Awaits(tr.peers[w], o) && Served(Deliver(tr, o).peers[w], o)
    ensures o.to != w ==> Deliver(tr, o).peers[w] == tr.peers[w]
  {
  }

  /** A worker that is not broken in the end got at most one output, and had asked for it. */
  lemma {:induction false} DeliveredWanted<V>(tr: Track<V>, out: seq<Output>, w: Worker)
    requires w < |tr.peers| && w < |DeliverAll(tr, out).peers| && DeliverAll(tr, out).peers[w].phase != Broken
    ensures tr.peers[w].phase != Broken
    ensures forall j :: 0 <= j < |out| && out[j].to == w ==>
              Awaits(tr.peers[w], out[j]) && Served(DeliverAll(tr, out).peers[w], out[j])
    ensures (forall j :: 0 <= j < |out| ==> out[j].to != w) ==> DeliverAll(tr, out).peers[w] == tr.peers[w]
    decreases |out|
  {
    if out != [] {
      var n := |out| - 1;
      var mid := DeliverAll(tr, out[..n]);
      assert out == out[..n] + [out[n]];
      BrokenStays(mid, out[n], w);
      DeliveredWanted(tr, out[..n], w);
      if out[n].to == w {
        forall j | 0 <= j < n ensures out[j].to != w {
          assert out[..n][j] == out[j];
        }
      } else {
        forall j | 0 <= j < n && out[j].to == w ensures Awaits(tr.peers[w], out[j]) && Served(mid.peers[w], out[j]) {
          assert out[..n][j] == out[j];
        }
      }
    }
  }

  ghost predicate ToWorkers(out: seq<Output>, n: nat)
  {
    forall j :: 0 <= j < |out| ==> out[j].to < n
  }

  lemma PushTo<V>(c: Config<V>, x: Key, v: View<V>, tr: Track<V>, w: Worker)
    requires KeyInv(c, x, v, tr) && CanPush(tr, w)
    ensures ToWorkers(KeyPush(c.n, v, w, x, Payload(c, x, tr, w)).out, c.n)
  {
    var reqs := v.reqs + [w];
    if v.stored.None? {
      forall j | 0 <= j < |reqs| ensures reqs[j] < c.n {
        if j < |v.reqs| { assert v.reqs[j] in v.reqs; }
      }
    }
  }

  lemma PullTo<V>(c: Config<V>, x: Key, v: View<V>, tr: Track<V>, w: Worker)
    requires KeyInv(c, x, v, tr) && CanPull(tr, w) && v.stored.Some?
    ensures ToWorkers(KeyPull(c.n, v, w, x).out, c.n)
  {
  }

  lemma EngineTo<V>(c: Config<V>, x: Key, v: View<V>, tr: Track<V>)
    requires KeyInv(c, x, v, tr) && v.stored.Some? && v.queue != []
    ensures ToWorkers(KeyEngine(c.n, c.add, v).out, c.n)
  {
    if v.queue[0].AllRecv? {
      HeadCloses(c, x, v.queue, v.reqs, tr.order, tr.done, |tr.rounds|);
      AllTurn(c.n, c.add, v);
      AllRunning(c, x, v, tr);
      var parked := v.flags.parked;
      forall j | 0 <= j < |parked| ensures parked[j] < c.n {
        assert parked[j] in parked;
      }
    }
  }

  lemma PushOutputsTo<V>(c: Config<V>, s: Sys<V>, w: Worker, x: Key)
    requires WellFormed(c) && SysInv(c, s) && Enabled(c, s, Push(w, x))
    ensures Handle(c, s, Push(w, x)).Handled? && ToWorkers(Handle(c, s, Push(w, x)).out, c.n)
  {
    PushView(c, s.server, w, x, Payload(c, x, s.tracks[x], w));
    PushTo(c, x, ViewOf(s.server, x), s.tracks[x], w);
  }

  lemma PullOutputsTo<V>(c: Config<V>, s: Sys<V>, w: Worker, x: Key)
    requires SysInv(c, s) && Enabled(c, s, Pull(w, x))
    ensures Handle(c, s, Pull(w, x)).Handled? && ToWorkers(Handle(c, s, Pull(w, x)).out, c.n)
  {
    PullReady(c, s.server, x, s.tracks[x], w);
    PullView(c, s.server, w, x);
    PullTo(c, x, ViewOf(s.server, x), s.tracks[x], w);
  }

  lemma EngineOutputsTo<V>(c: Config<V>, s: Sys<V>, i: nat)
    requires SysInv(c, s) && Enabled(c, s, Engine(i))
    ensures Handle(c, s, Engine(i)).Handled? && ToWorkers(Handle(c, s, Engine(i)).out, c.n)
  {
    PopView(c, s.server, i);
    var x := s.server.queues[i][0].key;
    assert KeyInv(c, x, ViewOf(s.server, x), s.tracks[x]);
    EngineView(c, s.server, i);
    EngineTo(c, x, ViewOf(s.server, x), s.tracks[x]);
  }

  lemma OutputsTo<V>(c: Config<V>, s: Sys<V>, e: Event)
    requires WellFormed(c) && SysInv(c, s) && Enabled(c, s, e) && Handle(c, s, e).Handled?
    ensures ToWorkers(Handle(c, s, e).out, c.n)
  {
    match e {
      case Push(w, x) => PushOutputsTo(c, s, w, x);
      case Pull(w, x) => PullOutputsTo(c, s, w, x);
      case Engine(i) => EngineOutputsTo(c, s, i);
      case Send(w, x) =>
    }
  }

  lemma PeersStay<V>(tr: Track<V>, out: seq<Output>)
    ensures |DeliverAll(tr, out).peers| == |tr.peers|
    decreases |out|
  {
    if out != [] { PeersStay(tr, out[..|out| - 1]); }
  }

  lemma KeyOfRun<V>(c: Config<V>, s: Sys<V>, e: Event)
    requires SysInv(c, s) && Enabled(c, s, e) && KeyOf(s, e) in s.tracks
    ensures KeyOf(s, e) in c.keys
  {
  }

  /** `o` is for key `x` and goes to a worker that waits for just that and then waits no longer. */
  predicate Wanted<V>(n: nat, x: Key, before: Track<V>, o: Output, after: Track<V>)
  {
    && o.key == x && o.to < n == |before.peers| == |after.peers|
    && Awaits(before.peers[o.to], o) && Served(after.peers[o.to], o)
  }

  /**
   What the server puts out in a step is for the key of the request or message it handles, and goes
   to a worker that waits for just that on this key and then waits no longer.
   */
  lemma OutputsWanted<V>(c: Config<V>, events: seq<Event>, trace: seq<Sys<V>>, i: nat, j: nat)
    requires IsRun(c, events, trace) && i < |events| && Handle(c, trace[i], events[i]).Handled?
    requires j < |Handle(c, trace[i], events[i]).out|
    ensures var x := KeyOf(trace[i], events[i]);
            && x in trace[i].tracks && x in trace[i + 1].tracks
            && Wanted(c.n, x, Moved(c, trace[i], events[i]), Handle(c, trace[i], events[i]).out[j], trace[i + 1].tracks[x])
  {
    var s, e := trace[i], events[i];
    RunInv(c, events, trace, i);
    StepShape(c, s, e);
    OutputsTo(c, s, e);
    KeyOfRun(c, s, e);
    var x, out := KeyOf(s, e), Handle(c, s, e).out;
    RunFacts(c, events, trace, i + 1, x, out[j].to);
    PeersStay(Moved(c, s, e), out);
    DeliveredWanted(Moved(c, s, e), out, out[j].to);
  }

  // ---------------------------------------------------------------------------
  // First come, first served

  /** The requests buffered for a key: a push is appended, and the last worker's empties the buffer. */
  predicate Buffers<V>(n: nat, a: View<V>, push: Option<Worker>, b: View<V>)
  {
    b.reqs == match push
              case None => a.reqs
              case Some(w) => if |a.reqs| + 1 == n then [] else a.reqs + [w]
  }

  /** The parked pulls of a key: a pull that cannot be answered is appended, and closing the round empties them. */
  predicate Parks<V>(a: View<V>, pull: Option<Worker>, closes: bool, b: View<V>)
  {
    b.flags.parked == if closes then []
                      else match pull
                           case None => a.flags.parked
                           case Some(w) =>
                             if a.flags.finished && w !in a.flags.seen then a.flags.parked else a.flags.parked + [w]
  }

  lemma PushOrder<V>(c: Config<V>, x: Key, v: View<V>, tr: Track<V>, w: Worker)
    requires KeyInv(c, x, v, tr) && CanPush(tr, w)
    ensures var b := KeyPush(c.n, v, w, x, Payload(c, x, tr, w)).view;
            Buffers(c.n, v, Some(w), b) && Parks(v, None, false, b)
  {
    assert |v.reqs| < c.n by {
      if v.stored.Some? { DistinctBelow(tr.order, c.n); }
    }
  }

  lemma PullOrder<V>(n: nat, x: Key, v: View<V>, w: Worker)
    requires v.stored.Some?
    ensures var b := KeyPull(n, v, w, x).view; Buffers(n, v, None, b) && Parks(v, Some(w), false, b)
  {
  }

  lemma EngineOrder<V>(c: Config<V>, x: Key, v: View<V>, tr: Track<V>)
    requires KeyInv(c, x, v, tr) && v.stored.Some? && v.queue != []
    ensures var r, closes := KeyEngine(c.n, c.add, v), v.queue[0].AllRecv?;
            && Buffers(c.n, v, None, r.view) && Parks(v, None, closes, r.view)
            && r.out == if closes then Replies(v.flags.parked, x) else []
  {
    if v.queue[0].AllRecv? {
      HeadCloses(c, x, v.queue, v.reqs, tr.order, tr.done, |tr.rounds|);
      AllTurn(c.n, c.add, v);
      AllRunning(c, x, v, tr);
    }
  }

  /** An event closes the round of a key: the closing message is applied. */
  predicate Closes<V>(s: Sys<V>, e: Event, x: Key)
  {
    e.Engine? && e.i < |s.server.queues| && s.server.queues[e.i] != [] && s.server.queues[e.i][0] == AllRecv(x)
  }

  function PushOn(e: Event, x: Key): Option<Worker>
  {
    if e.Push? && e.x == x then Some(e.w) else None
  }

  function PullOn(e: Event, x: Key): Option<Worker>
  {
    if e.Pull? && e.x == x then Some(e.w) else None
  }

  /** What a step that leaves the server as `r` does to the waiting requests of key `x`. */
  ghost predicate InOrder<V>(n: nat, s: Sys<V>, e: Event, r: Outcome<V>, x: Key)
    requires r.Handled?
  {
    var a, b := ViewOf(s.server, x), ViewOf(r.server, x);
    && Buffers(n, a, PushOn(e, x), b) && Parks(a, PullOn(e, x), Closes(s, e, x), b)
    && (Closes(s, e, x) ==> r.out == Replies(a.flags.parked, x))
  }

  lemma PushInOrder<V>(c: Config<V>, s: Sys<V>, w: Worker, x: Key)
    requires WellFormed(c) && SysInv(c, s) && Enabled(c, s, Push(w, x))
    ensures var r := Handle(c, s, Push(w, x));
            r.Handled? && OthersSame(s.server, r.server, x) && InOrder(c.n, s, Push(w, x), r, x)
  {
    PushView(c, s.server, w, x, Payload(c, x, s.tracks[x], w));
    PushOrder(c, x, ViewOf(s.server, x), s.tracks[x], w);
  }

  lemma PullInOrder<V>(c: Config<V>, s: Sys<V>, w: Worker, x: Key)
    requires SysInv(c, s) && Enabled(c, s, Pull(w, x))
    ensures var r := Handle(c, s, Pull(w, x));
            r.Handled? && OthersSame(s.server, r.server, x) && InOrder(c.n, s, Pull(w, x), r, x)
  {
    PullReady(c, s.server, x, s.tracks[x], w);
    PullView(c, s.server, w, x);
    PullOrder(c.n, x, ViewOf(s.server, x), w);
  }

  lemma EngineInOrder<V>(c: Config<V>, s: Sys<V>, i: nat)
    requires SysInv(c, s) && Enabled(c, s, Engine(i))
    ensures var r, x := Handle(c, s, Engine(i)), s.server.queues[i][0].key;
            r.Handled? && OthersSame(s.server, r.server, x) && InOrder(c.n, s, Engine(i), r, x)
  {
    PopView(c, s.server, i);
    var x := s.server.queues[i][0].key;
    assert KeyInv(c, x, ViewOf(s.server, x), s.tracks[x]);
    EngineView(c, s.server, i);
    EngineOrder(c, x, ViewOf(s.server, x), s.tracks[x]);
  }

  lemma OwnOrder<V>(c: Config<V>, s: Sys<V>, e: Event)
    requires WellFormed(c) && SysInv(c, s) && Enabled(c, s, e) && Handle(c, s, e).Handled?
    ensures OthersSame(s.server, Handle(c, s, e).server, KeyOf(s, e)) && InOrder(c.n, s, e, Handle(c, s, e), KeyOf(s, e))
  {
    match e {
      case Push(w, x) => PushInOrder(c, s, w, x);
      case Pull(w, x) => PullInOrder(c, s, w, x);
      case Engine(i) => EngineInOrder(c, s, i);
      case Send(w, x) =>
    }
  }

  lemma OtherOrder<V>(c: Config<V>, s: Sys<V>, e: Event, x: Key)
    requires Enabled(c, s, e) && Handle(c, s, e).Handled? && OthersSame(s.server, Handle(c, s, e).server, KeyOf(s, e))
    requires x != KeyOf(s, e)
    ensures InOrder(c.n, s, e, Handle(c, s, e), x)
  {
    assert ViewOf(Handle(c, s, e).server, x) == ViewOf(s.server, x);
  }

  ghost predicate StepsInOrder<V>(c: Config<V>, s: Sys<V>, e: Event, s': Sys<V>, x: Key)
    requires Enabled(c, s, e)
  {
    var r := Handle(c, s, e);
    r.Handled? && r.server == s'.server && InOrder(c.n, s, e, r, x)
  }

  lemma StepOrder<V>(c: Config<V>, s: Sys<V>, e: Event, x: Key)
    requires WellFormed(c) && SysInv(c, s) && Enabled(c, s, e) && Step(c, s, e).Some?
    ensures StepsInOrder(c, s, e, Step(c, s, e).value, x)
  {
    StepShape(c, s, e);
    OwnOrder(c, s, e);
    if x != KeyOf(s, e) { OtherOrder(c, s, e, x); }
  }

  /**
   In every run requests are buffered and pulls are parked in the order they arrive, and closing a
   round answers exactly the parked pulls of its key, in that order.
   */
  lemma ArrivalOrder<V>(c: Config<V>, events: seq<Event>, trace: seq<Sys<V>>, i: nat, x: Key)
    requires IsRun(c, events, trace) && i < |events|
    ensures StepsInOrder(c, trace[i], events[i], trace[i + 1], x)
  {
    var s, e := trace[i], events[i];
    assert Enabled(c, s, e) && Step(c, s, e) == Some(trace[i + 1]);
    RunInv(c, events, trace, i);
    StepOrder(c, s, e, x);
  }

  // ---------------------------------------------------------------------------
  // Every pull is answered exactly once

  function Pulls(p: Peer): nat
  {
    p.round + Bit(p.phase == Waiting || p.phase == Leaving)
  }

  lemma {:induction false} DeliveryKeepsPulls<V>(tr: Track<V>, out: seq<Output>, w: Worker)
    requires w < |tr.peers|
    ensures var r := DeliverAll(tr, out);
            && |r.peers| == |tr.peers|
            && (r.peers[w].phase != Broken ==> tr.peers[w].phase != Broken && Pulls(r.peers[w]) == Pulls(tr.peers[w]))
    decreases |out|
  {
    if out != [] { DeliveryKeepsPulls(tr, out[..|out| - 1], w); }
  }

  /** A step that leaves no worker broken counts a pull exactly when it is one. */
  lemma PullsStep<V>(c: Config<V>, s: Sys<V>, e: Event, x: Key, w: Worker)
    requires Enabled(c, s, e) && Step(c, s, e).Some? && x in s.tracks && w < |s.tracks[x].peers|
    requires x in Step(c, s, e).value.tracks
    requires var tr' := Step(c, s, e).value.tracks[x];
             w < |tr'.peers| && tr'.peers[w].phase != Broken
    ensures Pulls(Step(c, s, e).value.tracks[x].peers[w]) == Pulls(s.tracks[x].peers[w]) + Bit(e == Pull(w, x))
  {
    StepShape(c, s, e);
    if x == KeyOf(s, e) {
      DeliveryKeepsPulls(Moved(c, s, e), Handle(c, s, e).out, w);
    }
  }

  lemma CountsLast(events: seq<Event>, i: nat, e: Event)
    requires 0 < i <= |events|
    ensures multiset(events[..i])[e] == multiset(events[..i - 1])[e] + Bit(events[i - 1] == e)
  {
    assert events[..i] == events[..i - 1] + [events[i - 1]];
  }

  lemma {:induction false} PullsAreCounted<V>(c: Config<V>, events: seq<Event>, trace: seq<Sys<V>>, i: nat, x: Key, w: Worker)
    requires IsRun(c, events, trace) && i < |trace| && x in c.keys && w < c.n
    ensures x in trace[i].tracks && w < |trace[i].tracks[x].peers|
    ensures multiset(events[..i])[Pull(w, x)] == Pulls(trace[i].tracks[x].peers[w])
  {
    if i != 0 {
      PullsAreCounted(c, events, trace, i - 1, x, w);
      assert x in trace[i].tracks && w < |trace[i].tracks[x].peers| && trace[i].tracks[x].peers[w].phase != Broken by {
        RunFacts(c, events, trace, i, x, w);
      }
      PullsStep(c, trace[i - 1], events[i - 1], x, w);
      CountsLast(events, i, Pull(w, x));
    }
  }

  /** The pulls a worker has made on a key are those it has replies for, and the one that is parked or leaving if any. */
  lemma AnsweredExactlyOnce<V>(c: Config<V>, events: seq<Event>, trace: seq<Sys<V>>, i: nat, x: Key, w: Worker)
    requires IsRun(c, events, trace) && i < |trace| && x in c.keys && w < c.n
    ensures x in trace[i].tracks && w < |trace[i].tracks[x].replies| && w < |trace[i].tracks[x].peers|
    ensures multiset(events[..i])[Pull(w, x)] ==
            |trace[i].tracks[x].replies[w]| + Bit(w in ViewOf(trace[i].server, x).flags.parked)
            + Bit(trace[i].tracks[x].peers[w].phase == Leaving)
  {
    RunFacts(c, events, trace, i, x, w);
    PullsAreCounted(c, events, trace, i, x, w);
  }
}
