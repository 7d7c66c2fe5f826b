/**
 One key of the aggregation server, driven by `n` workers that each push, wait for the
 acknowledgement, pull, wait for the reply, and only then push again.
 */
module KeyProtocol {
  import opened Options
  import opened EngineThreads
  import opened Sequences
  import opened Aggregation

  /**
   The setting of a run: `n` workers, `t` engine threads, the keys in use with their lengths, the
   element-wise sum `add` (not assumed associative), what worker `w` pushes for key `x` in round `k`,
   what it pushes to initialise the key, and in how many reads of the buffer a reply leaves.
   */
  datatype Config<!V> = Config(
    n: nat, t: nat, keys: set<Key>, lens: Key -> nat,
    add: (V, V) -> V, val: (Worker, Key, nat) -> V, init: (Worker, Key) -> V, pieces: nat)

  /**
   Where a worker stands: it has received replies for rounds below `round`. While its reply is
   `Leaving` the transport reads the buffer. `Broken` means a reply nobody asked for.
   */
  datatype Phase = Fresh | InitWait | ToPush | AckWait | ToPull | Waiting | Leaving | Broken
  datatype Peer = Peer(round: nat, phase: Phase)

  /** The buffer as the transport read it, and the senders of the next round whose pushes had reached it by then. */
  datatype Piece<+V> = Piece(value: V, ahead: seq<Worker>)

  /** A reply: one part of it comes from each of these reads. */
  type Reply<V> = seq<Piece<V>>

  /**
   The workers of one key and the history of the run: pushes applied per worker, replies per worker
   and what has left of the one under way, the arrival orders of the completed rounds, the arrival
   order of the current round and how much of it the engine has applied.
   */
  datatype Track<V> = Track(
    peers: seq<Peer>, applied: seq<nat>, replies: seq<seq<Reply<V>>>, leaving: seq<Reply<V>>,
    rounds: seq<seq<Worker>>, order: seq<Worker>, done: nat)

  function Acked(p: Peer): Peer
  {
    match p.phase
    case InitWait => p.(phase := ToPush)
    case AckWait => p.(phase := ToPull)
    case _ => p.(phase := Broken)
  }

  /** The server has answered: the reply is with the transport. */
  function Answered(p: Peer): Peer
  {
    p.(phase := if p.phase == Waiting then Leaving else Broken)
  }

  function Deliver<V>(tr: Track<V>, o: Output): (r: Track<V>)
  {
    if o.to >= |tr.peers| then tr
    else
      match o
      case PushAck(w, _) => tr.(peers := tr.peers[w := Acked(tr.peers[w])])
      case PullReply(w, _) => tr.(peers := tr.peers[w := Answered(tr.peers[w])])
  }

  function DeliverAll<V>(tr: Track<V>, out: seq<Output>): Track<V>
  {
    if out == [] then tr else Deliver(DeliverAll(tr, out[..|out| - 1]), out[|out| - 1])
  }

  // ---------------------------------------------------------------------------
  // What one key sees of the server

  datatype View<V> = View(
    stored: Option<V>, reqs: seq<Worker>, merged: bool, flags: Flags, queue: seq<Message<V>>)

  /** One key's share of a handler or engine turn. */
  datatype Turn<V> = Turn(view: View<V>, out: seq<Output>)

  function KeyPush<V>(n: nat, v: View<V>, w: Worker, x: Key, payload: V): Turn<V>
  {
    var reqs := v.reqs + [w];
    if v.stored.None? then
      if |reqs| < n then Turn(v.(reqs := reqs), [])
      else Turn(v.(stored := Some(payload), reqs := []), Acks(reqs, x))
    else
      var m := if |reqs| == 1 then CopyFirst(x, w, payload) else SumRecv(x, w, payload);
      if |reqs| == n then Turn(v.(queue := v.queue + [m] + [AllRecv(x)], reqs := []), [PushAck(w, x)])
      else Turn(v.(queue := v.queue + [m], reqs := reqs), [PushAck(w, x)])
  }

  function KeyPull<V>(n: nat, v: View<V>, w: Worker, x: Key): Turn<V>
    requires v.stored.Some?
  {
    if v.flags.finished && w !in v.flags.seen then
      Turn(v.(flags := ResetIfComplete(n, Answer(v.flags, w))), [PullReply(w, x)])
    else
      Turn(v.(flags := v.flags.(parked := v.flags.parked + [w])), [])
  }

  function KeyEngine<V>(n: nat, add: (V, V) -> V, v: View<V>): Turn<V>
    requires v.queue != [] && v.stored.Some?
  {
    var v1 := v.(queue := v.queue[1..]);
    match v.queue[0]
    case CopyFirst(_, _, p) => Turn(v1.(stored := Some(p)), [])
    case SumRecv(_, _, p) => Turn(v1.(stored := Some(add(v.stored.value, p))), [])
    case AllRecv(x) =>
      var d := Drain(n, v.flags.(finished := true), 0);
      Turn(v1.(merged := true, flags := d.flags), Replies(d.to, x))
  }

  // ---------------------------------------------------------------------------
  // The workers and the history alongside

  predicate CanPush(tr: Track, w: Worker)
  {
    w < |tr.peers| && (tr.peers[w].phase == Fresh || tr.peers[w].phase == ToPush)
  }

  predicate CanPull(tr: Track, w: Worker)
  {
    w < |tr.peers| && tr.peers[w].phase == ToPull
  }

  function Payload<V>(c: Config<V>, x: Key, tr: Track<V>, w: Worker): V
    requires CanPush(tr, w)
  {
    if tr.peers[w].phase == Fresh then c.init(w, x) else c.val(w, x, tr.peers[w].round)
  }

  function Pushing<V>(tr: Track<V>, w: Worker): Track<V>
    requires CanPush(tr, w)
  {
    if tr.peers[w].phase == Fresh then tr.(peers := tr.peers[w := tr.peers[w].(phase := InitWait)])
    else tr.(peers := tr.peers[w := tr.peers[w].(phase := AckWait)], order := tr.order + [w])
  }

  function Pulling<V>(tr: Track<V>, w: Worker): Track<V>
    requires CanPull(tr, w)
  {
    tr.(peers := tr.peers[w := tr.peers[w].(phase := Waiting)])
  }

  predicate CanSend(tr: Track, w: Worker)
  {
    w < |tr.peers| && tr.peers[w].phase == Leaving
    && w < |tr.leaving| && w < |tr.replies| && tr.done <= |tr.order|
  }

  /** The transport reads the buffer once more for the reply to `w`; with the last read the reply is complete. */
  function Sending<V>(pieces: nat, tr: Track<V>, w: Worker, value: V): Track<V>
    requires CanSend(tr, w)
  {
    var got := tr.leaving[w] + [Piece(value, tr.order[..tr.done])];
    if |got| < pieces then tr.(leaving := tr.leaving[w := got])
    else tr.(peers := tr.peers[w := Peer(tr.peers[w].round + 1, ToPush)],
             replies := tr.replies[w := tr.replies[w] + [got]], leaving := tr.leaving[w := []])
  }

  /** The history after the engine applied `m`. */
  function Applying<V>(tr: Track<V>, m: Message<V>): Track<V>
  {
    if m.AllRecv? then tr.(rounds := tr.rounds + [tr.order], order := [], done := 0)
    else if m.sender < |tr.applied| then
      tr.(done := tr.done + 1, applied := tr.applied[m.sender := tr.applied[m.sender] + 1])
    else tr
  }

  // ---------------------------------------------------------------------------
  // The invariant of one key

  /** The sum of the round-`k` pushes in arrival order. */
  function Fold<V>(c: Config<V>, x: Key, k: nat, order: seq<Worker>): V
    requires order != []
  {
    var last := order[|order| - 1];
    if |order| == 1 then c.val(last, x, k)
    else c.add(Fold(c, x, k, order[..|order| - 1]), c.val(last, x, k))
  }

  function DataMessage<V>(c: Config<V>, x: Key, k: nat, order: seq<Worker>, i: nat): Message<V>
    requires i < |order|
  {
    var w := order[i];
    if i == 0 then CopyFirst(x, w, c.val(w, x, k)) else SumRecv(x, w, c.val(w, x, k))
  }

  /** Everything a round leaves in the engine queue once `done` of its pushes are applied. */
  function Pending<V>(c: Config<V>, x: Key, k: nat, order: seq<Worker>, done: nat): seq<Message<V>>
    requires done <= |order|
    decreases |order| - done
  {
    if done == |order| then (if |order| == c.n then [AllRecv(x)] else [])
    else [DataMessage(c, x, k, order, done)] + Pending(c, x, k, order, done + 1)
  }

  ghost predicate Round(n: nat, order: seq<Worker>)
  {
    Distinct(order) && forall w :: w in order ==> w < n
  }

  ghost predicate OrderOk(n: nat, order: seq<Worker>, done: nat, rounds: seq<seq<Worker>>)
  {
    && Round(n, order) && done <= |order|
    && forall k :: 0 <= k < |rounds| ==> Round(n, rounds[k]) && |rounds[k]| == n
  }

  /** The buffer holds what has been applied of the current round, or else the whole last round. */
  ghost predicate StoreOk<V>(c: Config<V>, x: Key, stored: Option<V>, merged: bool,
                             order: seq<Worker>, done: nat, rounds: seq<seq<Worker>>)
    requires done <= |order|
  {
    var k := |rounds|;
    && stored.Some?
    && (0 < done ==> stored.value == Fold(c, x, k, order[..done]))
    && (done == 0 && 0 < k && rounds[k - 1] != [] ==> stored.value == Fold(c, x, k - 1, rounds[k - 1]))
    && (0 < k ==> merged)
  }

  /** The engine holds at most one round of the key: the unapplied rest of the current one. */
  ghost predicate QueueOk<V>(c: Config<V>, x: Key, queue: seq<Message<V>>, reqs: seq<Worker>,
                             order: seq<Worker>, done: nat, k: nat)
    requires done <= |order|
  {
    && queue == Pending(c, x, k, order, done)
    && reqs == (if |order| == c.n then [] else order)
  }

  function Pushes(p: Peer): nat
  {
    if p.phase == ToPush then p.round else p.round + 1
  }

  function Bit(b: bool): nat
  {
    if b then 1 else 0
  }

  /** The rounds for which a worker has been answered, whether or not the reply has left. */
  function AnsweredRounds(p: Peer): nat
  {
    p.round + Bit(p.phase == Leaving)
  }

  /**
   One worker in the round after `k` completed ones. It has pushed `k` times, once more if it is in
   the current arrival order, and likewise for what is applied. It has been answered for every
   completed round but possibly the last, and `seen` tells which while the round is open. Parked is
   exactly waiting, and a parked pull never belongs to a completed round.
   */
  predicate WorkerOk(k: nat, finished: bool, p: Peer, applied: nat, replies: nat,
                     pushed: bool, summed: bool, seen: bool, parked: bool)
  {
    && (p.phase == ToPush || p.phase == ToPull || p.phase == Waiting || p.phase == Leaving)
    && AnsweredRounds(p) <= k && replies == p.round
    && Pushes(p) == k + Bit(pushed)
    && applied == k + Bit(summed)
    && (if finished then seen <==> AnsweredRounds(p) == k else !seen && AnsweredRounds(p) == k)
    && (parked <==> p.phase == Waiting)
    && (parked ==> p.round == k)
  }

  ghost predicate WorkersOk<V>(n: nat, f: Flags, tr: Track<V>)
    requires tr.done <= |tr.order|
  {
    && |tr.peers| == n && |tr.applied| == n && |tr.replies| == n
    && forall w :: 0 <= w < n ==>
         WorkerOk(|tr.rounds|, f.finished, tr.peers[w], tr.applied[w], |tr.replies[w]|,
                  w in tr.order, w in tr.order[..tr.done], w in f.seen, w in f.parked)
  }

  ghost predicate FlagsOk(n: nat, f: Flags, k: nat)
  {
    && f.pullCnt == |f.seen| < n
    && (forall w :: w in f.seen ==> w < n)
    && Round(n, f.parked)
    && (f.finished ==> 0 < k)
  }

  /** What any read of the buffer for a round-`k` reply finds: the full sum, or the begun sum of the next round. */
  ghost predicate PieceOk<V>(c: Config<V>, x: Key, rounds: seq<seq<Worker>>, k: nat, r: Piece<V>)
  {
    && k < |rounds| && rounds[k] != []
    && Round(c.n, r.ahead)
    && r.value == if r.ahead == [] then Fold(c, x, k, rounds[k]) else Fold(c, x, k + 1, r.ahead)
  }

  /** The reads of one reply, in order: the next round only ever grows under them. */
  ghost predicate PiecesOk<V>(c: Config<V>, x: Key, rounds: seq<seq<Worker>>, k: nat, got: Reply<V>)
  {
    && (forall i :: 0 <= i < |got| ==> PieceOk(c, x, rounds, k, got[i]))
    && (forall i, j :: 0 <= i < j < |got| ==> got[i].ahead <= got[j].ahead)
  }

  ghost predicate ReplyOk<V>(c: Config<V>, x: Key, rounds: seq<seq<Worker>>, k: nat, r: Reply<V>)
  {
    |r| == c.pieces && PiecesOk(c, x, rounds, k, r)
  }

  ghost predicate RepliesOk<V>(c: Config<V>, x: Key, replies: seq<seq<Reply<V>>>, rounds: seq<seq<Worker>>)
  {
    forall w, k :: 0 <= w < |replies| && 0 <= k < |replies[w]| ==> ReplyOk(c, x, rounds, k, replies[w][k])
  }

  /** The reply to one worker that is on its way out, while `now` has been applied of the current round. */
  ghost predicate LeavingOk<V>(c: Config<V>, x: Key, rounds: seq<seq<Worker>>, now: seq<Worker>, p: Peer, got: Reply<V>)
  {
    && |got| < c.pieces && (got != [] ==> p.phase == Leaving)
    && PiecesOk(c, x, rounds, p.round, got)
    && (forall i :: 0 <= i < |got| ==> got[i].ahead <= now)
  }

  ghost predicate AllLeavingOk<V>(c: Config<V>, x: Key, tr: Track<V>)
    requires tr.done <= |tr.order|
  {
    && |tr.leaving| == |tr.peers|
    && forall w :: 0 <= w < |tr.peers| ==>
         LeavingOk(c, x, tr.rounds, tr.order[..tr.done], tr.peers[w], tr.leaving[w])
  }

  ghost predicate Running<V>(c: Config<V>, x: Key, v: View<V>, tr: Track<V>)
  {
    && OrderOk(c.n, tr.order, tr.done, tr.rounds)
    && StoreOk(c, x, v.stored, v.merged, tr.order, tr.done, tr.rounds)
    && QueueOk(c, x, v.queue, v.reqs, tr.order, tr.done, |tr.rounds|)
    && FlagsOk(c.n, v.flags, |tr.rounds|)
    && WorkersOk(c.n, v.flags, tr)
    && RepliesOk(c, x, tr.replies, tr.rounds)
    && AllLeavingOk(c, x, tr)
  }

  /** Before the buffer exists: workers that sent the initial push wait, nothing else has happened. */
  ghost predicate Initialising<V>(c: Config<V>, v: View<V>, tr: Track<V>)
  {
    && v.stored.None? && v.queue == [] && v.flags == NO_FLAGS && !v.merged
    && Round(c.n, v.reqs) && |v.reqs| < c.n
    && tr.rounds == [] && tr.order == [] && tr.done == 0
    && |tr.peers| == c.n && |tr.applied| == c.n && |tr.replies| == c.n && |tr.leaving| == c.n
    && (forall w :: 0 <= w < c.n ==>
          tr.peers[w] == Peer(0, if w in v.reqs then InitWait else Fresh))
    && (forall w :: 0 <= w < c.n ==> tr.applied[w] == 0 && tr.replies[w] == [] && tr.leaving[w] == [])
  }

  ghost predicate KeyInv<V>(c: Config<V>, x: Key, v: View<V>, tr: Track<V>)
  {
    0 < c.n && 0 < c.pieces && if v.stored.None? then Initialising(c, v, tr) else Running(c, x, v, tr)
  }
}
