/** The whole aggregation server with its workers: runs over all keys and engine threads. */
module RoundProtocol {
  import opened Options
  import opened Sums
  import opened EngineThreads
  import opened Sequences
  import opened Aggregation
  import opened KeyProtocol
  import opened KeySteps

  /** The messages of one key, in queue order. */
  function Project<V>(q: seq<Message<V>>, x: Key): (r: seq<Message<V>>)
  {
    if q == [] then []
    else (if q[0].key == x then [q[0]] else []) + Project(q[1..], x)
  }

  lemma {:induction false} ProjectSnoc<V>(q: seq<Message<V>>, m: Message<V>, x: Key)
    ensures Project(q + [m], x) == Project(q, x) + if m.key == x then [m] else []
    decreases |q|
  {
    if q != [] {
      ProjectSnoc(q[1..], m, x);
      assert (q + [m])[1..] == q[1..] + [m];
    }
  }

  lemma {:induction false} ProjectAbsent<V>(q: seq<Message<V>>, x: Key)
    requires forall m :: m in q ==> m.key != x
    ensures Project(q, x) == []
    decreases |q|
  {
    if q != [] { ProjectAbsent(q[1..], x); }
  }

  function ViewOf<V>(s: Server<V>, x: Key): View<V>
  {
    var placed := x in s.threads.cache && s.threads.cache[x] < |s.queues|;
    View(if x in s.stored then Some(s.stored[x]) else None,
         RequestsAt(s.requests, x),
         x in s.merged,
         if placed then FlagsAt(s.flags, s.threads.cache[x], x) else NO_FLAGS,
         if placed then Project(s.queues[s.threads.cache[x]], x) else [])
  }

  /** Messages and flags of a key live on the key's thread, and no load can overflow. */
  ghost predicate Placed<V>(c: Config<V>, s: Server<V>)
  {
    var cache := s.threads.cache;
    && 0 < c.t && |s.queues| == c.t && |s.threads.load| == c.t
    && cache.Keys <= c.keys
    && (forall x :: x in cache ==> cache[x] < c.t)
    && (forall i, m :: 0 <= i < c.t && m in s.queues[i] ==> m.key in cache && cache[m.key] == i)
    && (forall p :: p in s.flags ==> p.1 in cache && cache[p.1] == p.0)
    && (forall i :: 0 <= i < c.t ==> s.threads.load[i] <= Total(c.lens, cache.Keys))
  }

  ghost predicate WellFormed<V>(c: Config<V>)
  {
    && 0 < c.n && 0 < c.t && 0 < c.pieces
    && (forall x :: x in c.keys ==> 0 < c.lens(x))
    && Total(c.lens, c.keys) < UINT64_MAX
  }

  // ---------------------------------------------------------------------------
  // A turn on one key is that key's turn, and no other key notices

  ghost predicate OthersSame<V>(s: Server<V>, s': Server<V>, x: Key)
  {
    forall y :: y != x ==> ViewOf(s', y) == ViewOf(s, y)
  }

  /** A new key's thread: its load stays below what all keys weigh. */
  lemma NewThread<V>(c: Config<V>, s: Server<V>, x: Key)
    requires WellFormed(c) && Placed(c, s) && x in c.keys && x !in s.threads.cache
    ensures var ch := ChooseThread(s.threads, x, c.lens(x));
            && ch.Chosen? && 0 <= ch.tid < c.t
            && ch.threads.cache == s.threads.cache[x := ch.tid] && |ch.threads.load| == c.t
            && forall i :: 0 <= i < c.t ==> ch.threads.load[i] <= Total(c.lens, ch.threads.cache.Keys)
  {
    var cache := s.threads.cache;
    TotalMonotone(c.lens, cache.Keys + {x}, c.keys);
    TotalAdd(c.lens, cache.Keys, x);
    NewKeyChosen(s.threads, x, c.lens(x), Total(c.lens, cache.Keys));
    var ch := ChooseThread(s.threads, x, c.lens(x));
    assert ch.threads.cache.Keys == cache.Keys + {x};
  }

  lemma PlaceKey<V>(c: Config<V>, s: Server<V>, x: Key)
    requires WellFormed(c) && Placed(c, s) && x in c.keys
    ensures var ch := ChooseThread(s.threads, x, c.lens(x));
            && ch.Chosen? && ch.tid < c.t
            && var s' := s.(threads := ch.threads);
               && Placed(c, s') && ViewOf(s', x) == ViewOf(s, x) && OthersSame(s, s', x)
  {
    if x !in s.threads.cache {
      NewThread(c, s, x);
      var ch := ChooseThread(s.threads, x, c.lens(x));
      ProjectAbsent(s.queues[ch.tid], x);
    }
  }

  /** A queue is changed to `q`: every key sees its own messages in it. */
  lemma QueueView<V>(c: Config<V>, s: Server<V>, i: nat, q: seq<Message<V>>, y: Key)
    requires Placed(c, s) && i < c.t
    ensures var s' := s.(queues := s.queues[i := q]);
            ViewOf(s', y) == if y in s.threads.cache && s.threads.cache[y] == i
                             then ViewOf(s, y).(queue := Project(q, y)) else ViewOf(s, y)
  {
  }

  lemma EnqueuePlaced<V>(c: Config<V>, s: Server<V>, x: Key, m: Message<V>)
    requires Placed(c, s) && x in s.threads.cache && m.key == x
    ensures Placed(c, s.(queues := Enqueue(s.queues, s.threads.cache[x], m)))
  {
  }

  lemma EnqueueView<V>(c: Config<V>, s: Server<V>, x: Key, m: Message<V>)
    requires Placed(c, s) && x in s.threads.cache && m.key == x
    ensures var s' := s.(queues := Enqueue(s.queues, s.threads.cache[x], m));
            && Placed(c, s') && OthersSame(s, s', x)
            && ViewOf(s', x) == ViewOf(s, x).(queue := ViewOf(s, x).queue + [m])
  {
    EnqueuePlaced(c, s, x, m);
    var t := s.threads.cache[x];
    ProjectSnoc(s.queues[t], m, x);
    QueueView(c, s, t, s.queues[t] + [m], x);
    forall y | y != x ensures ViewOf(s.(queues := s.queues[t := s.queues[t] + [m]]), y) == ViewOf(s, y) {
      ProjectSnoc(s.queues[t], m, y);
      QueueView(c, s, t, s.queues[t] + [m], y);
    }
  }

  lemma RequestsView<V>(c: Config<V>, s: Server<V>, x: Key, reqs: seq<Worker>)
    requires Placed(c, s)
    ensures var s' := s.(requests := s.requests[x := reqs]);
            Placed(c, s') && OthersSame(s, s', x) && ViewOf(s', x) == ViewOf(s, x).(reqs := reqs)
  {
  }

  lemma RoundPushView<V>(c: Config<V>, s: Server<V>, w: Worker, x: Key, v: V)
    requires WellFormed(c) && Placed(c, s) && x in c.keys && x in s.stored
    ensures var r := HandlePush(c.n, s, w, x, v, c.lens(x));
            && r.Handled? && Placed(c, r.server) && OthersSame(s, r.server, x)
            && Turn(ViewOf(r.server, x), r.out) == KeyPush(c.n, ViewOf(s, x), w, x, v)
  {
    PlaceKey(c, s, x);
    var ch := ChooseThread(s.threads, x, c.lens(x));
    var reqs := RequestsAt(s.requests, x) + [w];
    var m := if |reqs| == 1 then CopyFirst(x, w, v) else SumRecv(x, w, v);
    var s1 := s.(threads := ch.threads);
    EnqueueView(c, s1, x, m);
    var s2 := s1.(queues := Enqueue(s1.queues, ch.tid, m));
    if |reqs| == c.n {
      EnqueueView(c, s2, x, AllRecv(x));
      RequestsView(c, s2.(queues := Enqueue(s2.queues, ch.tid, AllRecv(x))), x, []);
    } else {
      RequestsView(c, s2, x, reqs);
    }
  }

  lemma PushView<V>(c: Config<V>, s: Server<V>, w: Worker, x: Key, v: V)
    requires WellFormed(c) && Placed(c, s) && x in c.keys
    ensures var r := HandlePush(c.n, s, w, x, v, c.lens(x));
            && r.Handled? && Placed(c, r.server) && OthersSame(s, r.server, x)
            && Turn(ViewOf(r.server, x), r.out) == KeyPush(c.n, ViewOf(s, x), w, x, v)
            && s.threads.cache.Keys <= r.server.threads.cache.Keys
            && (x in s.stored ==> x in r.server.threads.cache)
  {
    if x in s.stored { RoundPushView(c, s, w, x, v); } else { InitPushView(c, s, w, x, v); }
  }

  lemma InitPushView<V>(c: Config<V>, s: Server<V>, w: Worker, x: Key, v: V)
    requires WellFormed(c) && Placed(c, s) && x in c.keys && x !in s.stored
    ensures var r := HandlePush(c.n, s, w, x, v, c.lens(x));
            && r.Handled? && Placed(c, r.server) && OthersSame(s, r.server, x) && r.server.threads == s.threads
            && Turn(ViewOf(r.server, x), r.out) == KeyPush(c.n, ViewOf(s, x), w, x, v)
  {
    var reqs := RequestsAt(s.requests, x) + [w];
    if |reqs| < c.n {
      RequestsView(c, s, x, reqs);
    } else {
      StoredView(c, s, x, v);
      RequestsView(c, s.(stored := s.stored[x := v]), x, []);
    }
  }

  lemma FlagsView<V>(c: Config<V>, s: Server<V>, x: Key, f: Flags)
    requires Placed(c, s) && x in s.threads.cache
    ensures var s' := s.(flags := s.flags[(s.threads.cache[x], x) := f]);
            Placed(c, s') && OthersSame(s, s', x) && ViewOf(s', x) == ViewOf(s, x).(flags := f)
  {
  }

  lemma PullView<V>(c: Config<V>, s: Server<V>, w: Worker, x: Key)
    requires Placed(c, s) && x in s.stored && x in s.threads.cache
    requires ViewOf(s, x).flags.finished ==> x in s.merged
    ensures var r := HandlePull(c.n, s, w, x);
            && r.Handled? && Placed(c, r.server) && OthersSame(s, r.server, x)
            && Turn(ViewOf(r.server, x), r.out) == KeyPull(c.n, ViewOf(s, x), w, x)
  {
    FlagsView(c, s, x, KeyPull(c.n, ViewOf(s, x), w, x).view.flags);
  }

  lemma PopPlaced<V>(c: Config<V>, s: Server<V>, i: nat)
    requires Placed(c, s) && i < c.t && s.queues[i] != []
    ensures Placed(c, s.(queues := s.queues[i := s.queues[i][1..]]))
  {
    assert forall n :: n in s.queues[i][1..] ==> n in s.queues[i];
  }

  lemma PopProject<V>(q: seq<Message<V>>, y: Key)
    requires q != []
    ensures Project(q, y) == (if y == q[0].key then [q[0]] else []) + Project(q[1..], y)
    ensures y == q[0].key ==> Project(q, y) != [] && Project(q, y)[0] == q[0] && Project(q, y)[1..] == Project(q[1..], y)
  {
  }

  lemma PopView<V>(c: Config<V>, s: Server<V>, i: nat)
    requires Placed(c, s) && i < c.t && s.queues[i] != []
    ensures var x := s.queues[i][0].key;
            var s' := s.(queues := s.queues[i := s.queues[i][1..]]);
            && x in s.threads.cache && s.threads.cache[x] == i
            && Placed(c, s') && OthersSame(s, s', x)
            && ViewOf(s, x).queue != [] && ViewOf(s, x).queue[0] == s.queues[i][0]
            && ViewOf(s', x) == ViewOf(s, x).(queue := ViewOf(s, x).queue[1..])
  {
    var q := s.queues[i];
    assert q[0] in q;
    PopPlaced(c, s, i);
    PopProject(q, q[0].key);
    QueueView(c, s, i, q[1..], q[0].key);
    forall y | y != q[0].key ensures ViewOf(s.(queues := s.queues[i := q[1..]]), y) == ViewOf(s, y) {
      PopProject(q, y);
      QueueView(c, s, i, q[1..], y);
    }
  }

  lemma StoredView<V>(c: Config<V>, s: Server<V>, x: Key, value: V)
    requires Placed(c, s)
    ensures var s' := s.(stored := s.stored[x := value]);
            Placed(c, s') && OthersSame(s, s', x) && ViewOf(s', x) == ViewOf(s, x).(stored := Some(value))
  {
  }

  lemma ClosedView<V>(c: Config<V>, s: Server<V>, x: Key, f: Flags)
    requires Placed(c, s) && x in s.threads.cache
    ensures var s' := s.(merged := s.merged + {x}, flags := s.flags[(s.threads.cache[x], x) := f]);
            Placed(c, s') && OthersSame(s, s', x) && ViewOf(s', x) == ViewOf(s, x).(merged := true, flags := f)
  {
  }

  lemma SameThrough<V>(s: Server<V>, s1: Server<V>, s2: Server<V>, x: Key)
    requires OthersSame(s, s1, x) && OthersSame(s1, s2, x)
    ensures OthersSame(s, s2, x)
  {
  }

  lemma EngineView<V>(c: Config<V>, s: Server<V>, i: nat)
    requires Placed(c, s) && i < c.t && s.queues[i] != []
    requires s.queues[i][0].key in s.stored
    ensures var x := s.queues[i][0].key;
            var r := EngineTurn(c.n, c.add, s, i);
            && x in s.threads.cache && ViewOf(s, x).queue != [] && ViewOf(s, x).queue[0] == s.queues[i][0]
            && r.Handled? && Placed(c, r.server) && OthersSame(s, r.server, x)
            && Turn(ViewOf(r.server, x), r.out) == KeyEngine(c.n, c.add, ViewOf(s, x))
  {
    PopView(c, s, i);
    var m := s.queues[i][0];
    var s1 := s.(queues := s.queues[i := s.queues[i][1..]]);
    var r := EngineTurn(c.n, c.add, s, i);
    match m {
      case CopyFirst(x, _, v) => StoredView(c, s1, x, v);
      case SumRecv(x, _, v) => StoredView(c, s1, x, c.add(s.stored[x], v));
      case AllRecv(x) => ClosedView(c, s1, x, Drain(c.n, FlagsAt(s.flags, i, x).(finished := true), 0).flags);
    }
    SameThrough(s, s1, r.server, m.key);
  }

  // ---------------------------------------------------------------------------
  // The system

  /** A request is handled, an engine thread takes a turn, or the transport reads the buffer for a reply. */
  datatype Event = Push(w: Worker, x: Key) | Pull(w: Worker, x: Key) | Engine(i: nat) | Send(w: Worker, x: Key)

  datatype Sys<V> = Sys(server: Server<V>, tracks: map<Key, Track<V>>)

  predicate Enabled<V>(c: Config<V>, s: Sys<V>, e: Event)
  {
    match e
    case Push(w, x) => x in c.keys && x in s.tracks && CanPush(s.tracks[x], w)
    case Pull(w, x) => x in c.keys && x in s.tracks && CanPull(s.tracks[x], w)
    case Engine(i) => i < |s.server.queues| && s.server.queues[i] != []
    case Send(w, x) => x in c.keys && x in s.tracks && CanSend(s.tracks[x], w)
  }

  function KeyOf<V>(s: Sys<V>, e: Event): Key
    requires e.Engine? ==> e.i < |s.server.queues| && s.server.queues[e.i] != []
  {
    if e.Engine? then s.server.queues[e.i][0].key else e.x
  }

  /** Every output reaches the workers of its own key. */
  function Routed<V>(tracks: map<Key, Track<V>>, out: seq<Output>): map<Key, Track<V>>
  {
    if out == [] then tracks
    else
      var rest, o := Routed(tracks, out[..|out| - 1]), out[|out| - 1];
      if o.key in rest then rest[o.key := Deliver(rest[o.key], o)] else rest
  }

  ghost predicate AllFor(out: seq<Output>, x: Key)
  {
    forall j :: 0 <= j < |out| ==> out[j].key == x
  }

  lemma {:induction false} RoutedOwn<V>(tracks: map<Key, Track<V>>, out: seq<Output>, x: Key)
    requires x in tracks && AllFor(out, x)
    ensures Routed(tracks, out) == tracks[x := DeliverAll(tracks[x], out)]
    decreases |out|
  {
    if out != [] { RoutedOwn(tracks, out[..|out| - 1], x); }
  }

  function Settle<V>(s: Sys<V>, x: Key, tr: Track<V>, r: Outcome<V>): Option<Sys<V>>
  {
    match r
    case Crash => None
    case Handled(server, out) => Some(Sys(server, Routed(s.tracks[x := tr], out)))
  }

  /** One atomic step of the system; `None` when the server process ends in a failed CHECK. */
  function Step<V>(c: Config<V>, s: Sys<V>, e: Event): Option<Sys<V>>
    requires Enabled(c, s, e)
  {
    if KeyOf(s, e) !in s.tracks then None else Settle(s, KeyOf(s, e), Moved(c, s, e), Handle(c, s, e))
  }

  /** What the server does about an event. */
  function Handle<V>(c: Config<V>, s: Sys<V>, e: Event): Outcome<V>
    requires Enabled(c, s, e)
  {
    match e
    case Push(w, x) => HandlePush(c.n, s.server, w, x, Payload(c, x, s.tracks[x], w), c.lens(x))
    case Pull(w, x) => HandlePull(c.n, s.server, w, x)
    case Engine(i) => EngineTurn(c.n, c.add, s.server, i)
    case Send(w, x) => if x in s.server.stored then Handled(s.server, []) else Crash
  }

  /** The workers and the history of the event's key, before anything that is put out has reached them. */
  function Moved<V>(c: Config<V>, s: Sys<V>, e: Event): Track<V>
    requires Enabled(c, s, e) && KeyOf(s, e) in s.tracks
  {
    var tr := s.tracks[KeyOf(s, e)];
    match e
    case Push(w, x) => Pushing(tr, w)
    case Pull(w, x) => Pulling(tr, w)
    case Engine(i) => Applying(tr, s.server.queues[i][0])
    case Send(w, x) => if x in s.server.stored then Sending(c.pieces, tr, w, s.server.stored[x]) else tr
  }

  function FreshTrack<V>(n: nat): Track<V>
  {
    Track(seq(n, _ => Peer(0, Fresh)), seq(n, _ => 0), seq(n, _ => []), seq(n, _ => []), [], [], 0)
  }

  function Start<V>(c: Config<V>): Sys<V>
  {
    Sys(Boot(c.t), map x | x in c.keys :: FreshTrack(c.n))
  }

  ghost predicate SysInv<V>(c: Config<V>, s: Sys<V>)
  {
    && Placed(c, s.server) && s.tracks.Keys == c.keys
    && forall x :: x in c.keys ==>
         KeyInv(c, x, ViewOf(s.server, x), s.tracks[x]) && HasThread(s.server, x, s.tracks[x])
  }

  /** A key that was ever pushed in a round has its engine thread. */
  predicate HasThread<V>(s: Server<V>, x: Key, tr: Track<V>)
  {
    tr.rounds != [] || tr.order != [] ==> x in s.threads.cache
  }

  lemma StartInv<V>(c: Config<V>)
    requires WellFormed(c)
    ensures SysInv(c, Start(c))
  {
    var s := Start(c);
    forall x | x in c.keys ensures KeyInv(c, x, ViewOf(s.server, x), s.tracks[x]) {
      assert ViewOf(s.server, x) == View(None, [], false, NO_FLAGS, []);
    }
  }

  /** Handling a request or message of a key puts out nothing for another one. */
  lemma SettleOwn<V>(s: Sys<V>, x: Key, tr: Track<V>, r: Outcome<V>)
    requires r.Handled? && AllFor(r.out, x)
    ensures Settle(s, x, tr, r) == Some(Sys(r.server, s.tracks[x := DeliverAll(tr, r.out)]))
  {
    RoutedOwn(s.tracks[x := tr], r.out, x);
    assert s.tracks[x := tr][x := DeliverAll(tr, r.out)] == s.tracks[x := DeliverAll(tr, r.out)];
  }

  lemma PushOwn<V>(c: Config<V>, s: Server<V>, w: Worker, x: Key, v: V, len: nat)
    ensures HandlePush(c.n, s, w, x, v, len).Handled? ==> AllFor(HandlePush(c.n, s, w, x, v, len).out, x)
  {
  }

  lemma PullOwn<V>(c: Config<V>, s: Server<V>, w: Worker, x: Key)
    ensures HandlePull(c.n, s, w, x).Handled? ==> AllFor(HandlePull(c.n, s, w, x).out, x)
  {
  }

  lemma EngineOwn<V>(c: Config<V>, s: Server<V>, i: nat)
    requires i < |s.queues| && s.queues[i] != []
    ensures EngineTurn(c.n, c.add, s, i).Handled? ==> AllFor(EngineTurn(c.n, c.add, s, i).out, s.queues[i][0].key)
  {
  }

  /** An event of a key is handled as an event of that key: nothing is put out for another, and no other key notices. */
  lemma StepShape<V>(c: Config<V>, s: Sys<V>, e: Event)
    requires Enabled(c, s, e) && Step(c, s, e).Some?
    ensures KeyOf(s, e) in s.tracks && Handle(c, s, e).Handled? && AllFor(Handle(c, s, e).out, KeyOf(s, e))
    ensures var x, r := KeyOf(s, e), Handle(c, s, e);
            Step(c, s, e) == Some(Sys(r.server, s.tracks[x := DeliverAll(Moved(c, s, e), r.out)]))
  {
    match e {
      case Push(w, x) => PushOwn(c, s.server, w, x, Payload(c, x, s.tracks[x], w), c.lens(x));
      case Pull(w, x) => PullOwn(c, s.server, w, x);
      case Engine(i) => EngineOwn(c, s.server, i);
      case Send(w, x) =>
    }
    SettleOwn(s, KeyOf(s, e), Moved(c, s, e), Handle(c, s, e));
  }

  lemma Settled<V>(c: Config<V>, s: Sys<V>, x: Key, tr: Track<V>, r: Outcome<V>)
    requires SysInv(c, s) && x in c.keys && r.Handled? && AllFor(r.out, x)
    requires Placed(c, r.server) && OthersSame(s.server, r.server, x)
    requires KeyInv(c, x, ViewOf(r.server, x), DeliverAll(tr, r.out))
    requires s.server.threads.cache.Keys <= r.server.threads.cache.Keys
    requires HasThread(r.server, x, DeliverAll(tr, r.out))
    ensures Settle(s, x, tr, r).Some? && SysInv(c, Settle(s, x, tr, r).value)
  {
    SettleOwn(s, x, tr, r);
    var s' := Settle(s, x, tr, r).value;
    forall y | y in c.keys 
      ensures KeyInv(c, y, ViewOf(s'.server, y), s'.tracks[y]) && HasThread(s'.server, y, s'.tracks[y])
    {
      if y != x { assert ViewOf(s'.server, y) == ViewOf(s.server, y); }
    }
  }

  /** A pull finds its key allocated, placed, and merged when its flags say finished. */
  lemma PullReady<V>(c: Config<V>, s: Server<V>, x: Key, tr: Track<V>, w: Worker)
    requires Placed(c, s) && KeyInv(c, x, ViewOf(s, x), tr) && CanPull(tr, w) && HasThread(s, x, tr)
    ensures x in s.stored && x in s.threads.cache
    ensures ViewOf(s, x).flags.finished ==> x in s.merged
  {
    assert ViewOf(s, x).stored.Some?;
    if |tr.rounds| == 0 { assert w in tr.order; }
  }

  lemma {:induction false} DeliverKeepsOrder<V>(tr: Track<V>, out: seq<Output>)
    ensures DeliverAll(tr, out).order == tr.order && DeliverAll(tr, out).rounds == tr.rounds
    decreases |out|
  {
    if out != [] { DeliverKeepsOrder(tr, out[..|out| - 1]); }
  }

  lemma InitialHasNoOrder<V>(c: Config<V>, x: Key, v: View<V>, tr: Track<V>, w: Worker)
    requires KeyInv(c, x, v, tr) && v.stored.None? && CanPush(tr, w)
    ensures Pushing(tr, w).order == [] && Pushing(tr, w).rounds == []
  {
  }

  lemma PushKeeps<V>(c: Config<V>, x: Key, v: View<V>, tr: Track<V>, w: Worker)
    requires KeyInv(c, x, v, tr) && CanPush(tr, w)
    ensures var r := KeyPush(c.n, v, w, x, Payload(c, x, tr, w));
            KeyInv(c, x, r.view, DeliverAll(Pushing(tr, w), r.out))
  {
    if v.stored.None? { InitPushKeeps(c, x, v, tr, w); } else { RoundPushKeeps(c, x, v, tr, w); }
  }

  lemma PushInv<V>(c: Config<V>, s: Sys<V>, w: Worker, x: Key)
    requires WellFormed(c) && SysInv(c, s) && Enabled(c, s, Push(w, x))
    ensures Step(c, s, Push(w, x)).Some? && SysInv(c, Step(c, s, Push(w, x)).value)
  {
    var v, tr := ViewOf(s.server, x), s.tracks[x];
    var payload := Payload(c, x, tr, w);
    var r := HandlePush(c.n, s.server, w, x, payload, c.lens(x));
    PushView(c, s.server, w, x, payload);
    PushKeeps(c, x, v, tr, w);
    assert HasThread(r.server, x, DeliverAll(Pushing(tr, w), r.out)) by {
      DeliverKeepsOrder(Pushing(tr, w), r.out);
      if v.stored.None? { InitialHasNoOrder(c, x, v, tr, w); }
    }
    PushOwn(c, s.server, w, x, payload, c.lens(x));
    Settled(c, s, x, Pushing(tr, w), r);
  }

  lemma PullInv<V>(c: Config<V>, s: Sys<V>, w: Worker, x: Key)
    requires WellFormed(c) && SysInv(c, s) && Enabled(c, s, Pull(w, x))
    ensures Step(c, s, Pull(w, x)).Some? && SysInv(c, Step(c, s, Pull(w, x)).value)
  {
    var v, tr := ViewOf(s.server, x), s.tracks[x];
    var r := HandlePull(c.n, s.server, w, x);
    PullReady(c, s.server, x, tr, w);
    PullView(c, s.server, w, x);
    if v.flags.finished && w !in v.flags.seen { PullAnsweredKeeps(c, x, v, tr, w); }
    else { PullParkedKeeps(c, x, v, tr, w); }
    DeliverKeepsOrder(Pulling(tr, w), r.out);
    PullOwn(c, s.server, w, x);
    Settled(c, s, x, Pulling(tr, w), r);
  }

  lemma EngineInv<V>(c: Config<V>, s: Sys<V>, i: nat)
    requires WellFormed(c) && SysInv(c, s) && Enabled(c, s, Engine(i))
    ensures Step(c, s, Engine(i)).Some? && SysInv(c, Step(c, s, Engine(i)).value)
  {
    PopView(c, s.server, i);
    var m := s.server.queues[i][0];
    var v, tr := ViewOf(s.server, m.key), s.tracks[m.key];
    EngineView(c, s.server, i);
    if m.AllRecv? { AllKeeps(c, m.key, v, tr); } else { DataKeeps(c, m.key, v, tr); }
    EngineOwn(c, s.server, i);
    Settled(c, s, m.key, Applying(tr, m), EngineTurn(c.n, c.add, s.server, i));
  }

  /** A reply that leaves belongs to a key whose buffer exists. */
  lemma SendReady<V>(c: Config<V>, s: Server<V>, x: Key, tr: Track<V>, w: Worker)
    requires KeyInv(c, x, ViewOf(s, x), tr) && CanSend(tr, w)
    ensures x in s.stored
  {
  }

  lemma TrackSet<V>(c: Config<V>, s: Sys<V>, x: Key, tr: Track<V>)
    requires SysInv(c, s) && x in c.keys && KeyInv(c, x, ViewOf(s.server, x), tr) && HasThread(s.server, x, tr)
    ensures SysInv(c, s.(tracks := s.tracks[x := tr]))
  {
  }

  lemma SendInv<V>(c: Config<V>, s: Sys<V>, w: Worker, x: Key)
    requires WellFormed(c) && SysInv(c, s) && Enabled(c, s, Send(w, x))
    ensures Step(c, s, Send(w, x)).Some? && SysInv(c, Step(c, s, Send(w, x)).value)
  {
    var v, tr := ViewOf(s.server, x), s.tracks[x];
    SendReady(c, s.server, x, tr, w);
    SendKeeps(c, x, v, tr, w);
    TrackSet(c, s, x, Sending(c.pieces, tr, w, s.server.stored[x]));
  }

  /** No enabled step ends the server, and every step keeps the invariant of every key. */
  lemma StepInv<V>(c: Config<V>, s: Sys<V>, e: Event)
    requires WellFormed(c) && SysInv(c, s) && Enabled(c, s, e)
    ensures Step(c, s, e).Some? && SysInv(c, Step(c, s, e).value)
  {
    match e
    case Push(w, x) => PushInv(c, s, w, x);
    case Pull(w, x) => PullInv(c, s, w, x);
    case Engine(i) => EngineInv(c, s, i);
    case Send(w, x) => SendInv(c, s, w, x);
  }
}
