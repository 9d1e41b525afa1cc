/**
 * The inbound chat queue and its per-frame drain, as a specification on
 * values. A `Snapshot` is the queue of raw submissions together with the chat
 * events already handed to the chat relay; `Step` is one enqueue (a chat
 * submission arriving) or one tick (the main loop's Update).
 */
module ChatQueue {
  import opened Wrappers

  /** The tag the drain puts in front of every relayed chat body. */
  const ServerPrefix: string := "[Server]: "

  datatype ChatChannel = System

  /** A chat event handed to the chat relay. */
  datatype ChatEvent = ChatEvent(message: string, channel: ChatChannel)

  /**
   * The body of a submission: everything after its one-character marker.
   * Taking the substring from index 1 of the empty string fails, so there is
   * no body then; a marker-only submission has the empty body.
   */
  function StripMarker(raw: string): (r: Option<string>)
    ensures r.None? <==> raw == ""
    ensures r.Some? ==> raw == [raw[0]] + r.value
  {
    if raw == "" then None else Some(raw[1..])
  }

  /**
   * The chat events one dequeued submission produces: none when stripping
   * fails, otherwise one system event whose text is the server tag followed
   * by the submission without its marker.
   */
  function Relay(raw: string): (r: seq<ChatEvent>)
    ensures |r| == if raw == "" then 0 else 1
    ensures r != [] ==> r[0].channel == System &&
                        |r[0].message| == |ServerPrefix| + |raw| - 1 &&
                        r[0].message[..|ServerPrefix|] == ServerPrefix &&
                        r[0].message[|ServerPrefix|..] == raw[1..]
  {
    match StripMarker(raw)
    case None => []
    case Some(body) => [ChatEvent(ServerPrefix + body, System)]
  }

  /** The chat events a run of dequeued submissions produces, oldest first. */
  function RelayAll(msgs: seq<string>): (r: seq<ChatEvent>)
    ensures |r| <= |msgs|
    ensures (forall i :: 0 <= i < |msgs| ==> msgs[i] != "") ==>
              |r| == |msgs| &&
              forall i :: 0 <= i < |msgs| ==> r[i] == ChatEvent(ServerPrefix + msgs[i][1..], System)
  {
    if msgs == [] then [] else Relay(msgs[0]) + RelayAll(msgs[1..])
  }

  datatype Snapshot = Snapshot(queue: seq<string>, relayed: seq<ChatEvent>)

  datatype QueueOp = Receive(data: string) | Tick

  /**
   * One operation: a submission is appended at the back of the queue; a tick
   * on a non-empty queue removes the oldest entry and relays its body, and on
   * an empty queue does nothing.
   */
  function Step(s: Snapshot, op: QueueOp): Snapshot
  {
    match op
    case Receive(data) => Snapshot(s.queue + [data], s.relayed)
    case Tick =>
      if |s.queue| > 0 then Snapshot(s.queue[1..], s.relayed + Relay(s.queue[0]))
      else s
  }

  /** Operations applied in order, sequentially interleaved. */
  function Run(s: Snapshot, ops: seq<QueueOp>): Snapshot
    decreases |ops|
  {
    if ops == [] then s else Run(Step(s, ops[0]), ops[1..])
  }

  /** The submissions among `ops`, in arrival order. */
  function Received(ops: seq<QueueOp>): seq<string>
  {
    if ops == [] then []
    else (if ops[0].Receive? then [ops[0].data] else []) + Received(ops[1..])
  }

  function Receives(msgs: seq<string>): (ops: seq<QueueOp>)
    ensures |ops| == |msgs|
  {
    if msgs == [] then [] else [Receive(msgs[0])] + Receives(msgs[1..])
  }

  function Ticks(n: nat): (ops: seq<QueueOp>)
    ensures |ops| == n
  {
    if n == 0 then [] else [Tick] + Ticks(n - 1)
  }

  /** Enqueueing appends exactly its argument; earlier entries keep their order. */
  lemma ReceiveAppends(s: Snapshot, data: string)
    ensures Step(s, Receive(data)).queue[..|s.queue|] == s.queue
    ensures Step(s, Receive(data)).queue[|s.queue|] == data
    ensures |Step(s, Receive(data)).queue| == |s.queue| + 1
    ensures Step(s, Receive(data)).relayed == s.relayed
  {
  }

  /** A tick on an empty queue changes nothing and relays nothing. */
  lemma TickOnEmptyIsNoop(s: Snapshot)
    requires s.queue == []
    ensures Step(s, Tick) == s
  {
  }

  /**
   * A tick on a non-empty queue removes exactly the oldest entry, keeps the
   * order of the rest, and relays exactly one event when the entry is a
   * submission from the chat path (which is never empty).
   */
  lemma TickRelaysOldest(s: Snapshot)
    requires |s.queue| > 0 && s.queue[0] != ""
    ensures Step(s, Tick).queue == s.queue[1..]
    ensures Step(s, Tick).relayed == s.relayed + [ChatEvent(ServerPrefix + s.queue[0][1..], System)]
  {
  }

  /** The marker-only submission "1" relays the empty body and does not fail. */
  lemma MarkerOnlySubmission()
    ensures Relay("1") == [ChatEvent(ServerPrefix, System)]
  {
    assert "1"[1..] == "";
    assert ServerPrefix + "" == ServerPrefix;
  }

  lemma {:induction false} RelayAllAppend(a: seq<string>, b: seq<string>)
    ensures RelayAll(a + b) == RelayAll(a) + RelayAll(b)
    decreases |a|
  {
    if a == [] {
      assert a + b == b;
    } else {
      assert (a + b)[0] == a[0];
      assert (a + b)[1..] == a[1..] + b;
      RelayAllAppend(a[1..], b);
    }
  }

  /**
   * `r` is what remains after consuming a prefix of `all`, starting from the
   * relayed events `before`: its queue is the unconsumed suffix, and the
   * consumed prefix was relayed after `before`, in order.
   */
  ghost predicate ConsumedPrefix(before: seq<ChatEvent>, all: seq<string>, r: Snapshot)
  {
    |r.queue| <= |all| &&
    r.queue == all[|all| - |r.queue|..] &&
    r.relayed == before + RelayAll(all[..|all| - |r.queue|])
  }

  /** Consuming the head of `all` first shifts the consumed prefix by one. */
  lemma {:induction false} ConsumedPrefixCons(before: seq<ChatEvent>, all: seq<string>, r: Snapshot)
    requires |all| > 0
    requires ConsumedPrefix(before + Relay(all[0]), all[1..], r)
    ensures ConsumedPrefix(before, all, r)
  {
    var all' := all[1..];
    var n' := |all'| - |r.queue|;
    var n := n' + 1;
    assert |all| - |r.queue| == n;
    assert all'[n'..] == all[n..];
    assert all[..n][0] == all[0];
    assert all[..n][1..] == all'[..n'];
    assert RelayAll(all[..n]) == Relay(all[0]) + RelayAll(all'[..n']);
  }

  /** The submission an operation contributes to the arrivals: its data, or nothing. */
  function Arrival(op: QueueOp): seq<string>
  {
    if op.Receive? then [op.data] else []
  }

  lemma ArrivalsCons(q: seq<string>, ops: seq<QueueOp>)
    requires ops != []
    ensures q + Received(ops) == q + Arrival(ops[0]) + Received(ops[1..])
  {
    assert Received(ops) == Arrival(ops[0]) + Received(ops[1..]);
  }

  lemma RunCons(s: Snapshot, ops: seq<QueueOp>)
    requires ops != []
    ensures Run(s, ops) == Run(Step(s, ops[0]), ops[1..])
  {
  }

  /** The inductive step of RunIsFifo, for an end state `r` reached from `Step(s, op)`. */
  lemma StepKeepsFifo(s: Snapshot, op: QueueOp, later: seq<string>, r: Snapshot)
    requires ConsumedPrefix(Step(s, op).relayed, Step(s, op).queue + later, r)
    ensures ConsumedPrefix(s.relayed, s.queue + Arrival(op) + later, r)
  {
    var all := s.queue + Arrival(op) + later;
    if op.Receive? {
      assert Step(s, op).queue + later == all;
    } else if |s.queue| > 0 {
      assert Step(s, op).queue + later == all[1..];
      ConsumedPrefixCons(s.relayed, all, r);
    } else {
      assert all == s.queue + later;
    }
  }

  /**
   * Exactly-once FIFO under any interleaving of arrivals and ticks: of all
   * entries ever enqueued (those present at the start, then the arrivals in
   * order) the ones still queued are a suffix, and the events relayed since
   * the start are exactly those of the consumed prefix, in order.
   */
  lemma {:induction false} RunIsFifo(s: Snapshot, ops: seq<QueueOp>)
    ensures ConsumedPrefix(s.relayed, s.queue + Received(ops), Run(s, ops))
    decreases |ops|
  {
    if ops == [] {
      assert s.queue + Received(ops) == s.queue;
      assert s.queue[..0] == [];
    } else {
      var r := Run(s, ops);
      RunCons(s, ops);
      RunIsFifo(Step(s, ops[0]), ops[1..]);
      StepKeepsFifo(s, ops[0], Received(ops[1..]), r);
      ArrivalsCons(s.queue, ops);
    }
  }

  /**
   * A run that ends with an empty queue has relayed, after what was relayed
   * before it, the events of the entries queued at its start followed by
   * those of every arrival, in order.
   */
  lemma DrainedRunRelaysAll(s: Snapshot, ops: seq<QueueOp>)
    requires Run(s, ops).queue == []
    ensures Run(s, ops).relayed == s.relayed + RelayAll(s.queue) + RelayAll(Received(ops))
  {
    RunIsFifo(s, ops);
    ConsumedEverything(s.relayed, s.queue + Received(ops), Run(s, ops));
    RelayAllAppend(s.queue, Received(ops));
  }

  /** When nothing is left queued, the whole of `all` has been relayed. */
  lemma ConsumedEverything(before: seq<ChatEvent>, all: seq<string>, r: Snapshot)
    requires ConsumedPrefix(before, all, r) && r.queue == []
    ensures r.relayed == before + RelayAll(all)
  {
    assert all[..|all|] == all;
  }

  lemma {:induction false} RunConcat(s: Snapshot, a: seq<QueueOp>, b: seq<QueueOp>)
    ensures Run(s, a + b) == Run(Run(s, a), b)
    decreases |a|
  {
    if a == [] {
      assert a + b == b;
    } else {
      assert (a + b)[0] == a[0];
      assert (a + b)[1..] == a[1..] + b;
      RunConcat(Step(s, a[0]), a[1..], b);
    }
  }

  lemma {:induction false} RunReceives(s: Snapshot, msgs: seq<string>)
    ensures Run(s, Receives(msgs)) == Snapshot(s.queue + msgs, s.relayed)
    decreases |msgs|
  {
    if msgs == [] {
      assert s.queue + msgs == s.queue;
    } else {
      RunReceives(Step(s, Receive(msgs[0])), msgs[1..]);
      assert (s.queue + [msgs[0]]) + msgs[1..] == s.queue + msgs;
    }
  }

  /** The inductive step of RunTicks: draining the head first, then n - 1 more. */
  lemma TickThenDrain(s: Snapshot, n: nat, t: Snapshot)
    requires 1 <= n <= |s.queue|
    requires t == Snapshot(s.queue[1..][n - 1..], s.relayed + Relay(s.queue[0]) + RelayAll(s.queue[1..][..n - 1]))
    ensures t == Snapshot(s.queue[n..], s.relayed + RelayAll(s.queue[..n]))
  {
    assert s.queue[1..][n - 1..] == s.queue[n..];
    var done := s.queue[..n];
    assert done[0] == s.queue[0] && done[1..] == s.queue[1..][..n - 1];
    assert RelayAll(done) == Relay(done[0]) + RelayAll(done[1..]);
  }

  lemma {:induction false} RunTicks(s: Snapshot, n: nat)
    requires n <= |s.queue|
    ensures Run(s, Ticks(n)) == Snapshot(s.queue[n..], s.relayed + RelayAll(s.queue[..n]))
    decreases n
  {
    if n == 0 {
      assert s.queue[..0] == [];
      assert s.relayed + [] == s.relayed;
    } else {
      assert Ticks(n)[0] == Tick && Ticks(n)[1..] == Ticks(n - 1);
      RunCons(s, Ticks(n));
      assert Step(s, Tick) == Snapshot(s.queue[1..], s.relayed + Relay(s.queue[0]));
      RunTicks(Step(s, Tick), n - 1);
      TickThenDrain(s, n, Run(s, Ticks(n)));
    }
  }

  /**
   * N submissions followed by N ticks, starting from an empty queue: the queue
   * ends empty and the relayed events are those of the submissions in arrival
   * order, each exactly once.
   */
  lemma EnqueueThenDrain(msgs: seq<string>)
    requires forall i :: 0 <= i < |msgs| ==> msgs[i] != ""
    ensures var r := Run(Snapshot([], []), Receives(msgs) + Ticks(|msgs|));
            r.queue == [] &&
            |r.relayed| == |msgs| &&
            forall i :: 0 <= i < |msgs| ==> r.relayed[i] == ChatEvent(ServerPrefix + msgs[i][1..], System)
  {
    var s0 := Snapshot([], []);
    RunConcat(s0, Receives(msgs), Ticks(|msgs|));
    RunReceives(s0, msgs);
    assert [] + msgs == msgs;
    RunTicks(Snapshot(msgs, []), |msgs|);
    assert msgs[..|msgs|] == msgs;
  }
}
