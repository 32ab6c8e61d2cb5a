/** The forwarder between publishers and consumers: mirror, wakes, loop. Instants are
    milliseconds of a monotonic clock. */
module Hub {
  import opened Prelude
  import opened Publisher

  /** A topic no chart matches, written only to push stranded subscriptions out. */
  const WAKE_TOPIC := "__ts2py_wake__"
  const FOLLOW_UP_DELAYS: seq<int> := [50, 300, 1000]

  function SubFrame(topic: string): string { [SUB] + topic }
  function UnsubFrame(topic: string): string { [UNSUB] + topic }

  // ----- Wakes --------------------------------------------------------------

  function Offsets(delays: seq<int>, now: int): (r: seq<int>)
    ensures |r| == |delays|
    ensures forall i :: 0 <= i < |r| ==> r[i] == now + delays[i]
  {
    if delays == [] then [] else Offsets(delays[..|delays| - 1], now) + [now + delays[|delays| - 1]]
  }

  /** The entries still in the future. */
  function Remaining(due: seq<int>, now: int): (r: seq<int>)
    ensures |r| <= |due|
    ensures forall x :: x in r <==> x in due && x > now
  {
    if due == [] then []
    else
      var r, d := Remaining(due[..|due| - 1], now), due[|due| - 1];
      assert due == due[..|due| - 1] + [d];
      if d > now then r + [d] else r
  }

  /** Entries are dropped exactly when one is due. */
  lemma {:induction false} RemainingShrinks(due: seq<int>, now: int)
    ensures |Remaining(due, now)| != |due| <==> exists x :: x in due && x <= now
  {
    if due != [] {
      var d', d := due[..|due| - 1], due[|due| - 1];
      assert due == d' + [d];
      RemainingShrinks(d', now);
      if d <= now {
        assert d in due;
      } else {
        assert forall x :: x in due <==> x in d' || x == d;
      }
    }
  }

  class WakeScheduler {
    const delays: seq<int>
    var due: seq<int>

    constructor (delays: seq<int>)
      ensures this.delays == delays && due == []
    {
      this.delays := delays;
      due := [];
    }

    method Schedule(now: int)
      modifies this
      ensures due == old(due) + Offsets(delays, now)
    {
      var i := 0;
      while i < |delays|
        invariant i <= |delays|
        invariant due == old(due) + Offsets(delays[..i], now)
      {
        assert delays[..i + 1][..i] == delays[..i];
        due := due + [now + delays[i]];
        i := i + 1;
      }
      assert delays[..i] == delays;
    }

    method PopDue(now: int) returns (fired: bool)
      modifies this
      ensures due == Remaining(old(due), now)
      ensures fired <==> exists x :: x in old(due) && x <= now
      ensures fired <==> |due| != |old(due)|
    {
      RemainingShrinks(due, now);
      var remaining := Remaining(due, now);
      fired := |remaining| != |due|;
      due := remaining;
    }
  }

  datatype WakeOp = Schedule(at: int) | Pop(at: int)

  function DueAfter(delays: seq<int>, ops: seq<WakeOp>): seq<int> {
    if ops == [] then []
    else
      var d := DueAfter(delays, ops[..|ops| - 1]);
      match ops[|ops| - 1]
      case Schedule(now) => d + Offsets(delays, now)
      case Pop(now) => Remaining(d, now)
  }

  /** `x` was scheduled at step `i` and no pop since has reached it. */
  ghost predicate Waiting(delays: seq<int>, ops: seq<WakeOp>, x: int, i: int)
    requires 0 <= i < |ops|
  {
    && ops[i].Schedule? && x in Offsets(delays, ops[i].at)
    && forall j :: i < j < |ops| && ops[j].Pop? ==> ops[j].at < x
  }

  ghost predicate Waits(delays: seq<int>, ops: seq<WakeOp>, x: int) {
    exists i :: 0 <= i < |ops| && Waiting(delays, ops, x, i)
  }

  lemma WaitingExtend(delays: seq<int>, qs: seq<WakeOp>, op: WakeOp, x: int)
    ensures Waits(delays, qs + [op], x) <==>
            if op.Schedule? then x in Offsets(delays, op.at) || Waits(delays, qs, x)
            else op.at < x && Waits(delays, qs, x)
  {
    var ops := qs + [op];
    forall i | 0 <= i < |qs|
      ensures Waiting(delays, ops, x, i) <==> Waiting(delays, qs, x, i) && (op.Pop? ==> op.at < x)
    {
      assert ops[i] == qs[i];
      if Waiting(delays, ops, x, i) {
        assert ops[|qs|] == op;
        assert forall j :: i < j < |qs| ==> ops[j] == qs[j];
      }
    }
    assert ops[|qs|] == op;
    assert Waiting(delays, ops, x, |qs|) <==> op.Schedule? && x in Offsets(delays, op.at);
    if Waits(delays, qs, x) {
      var i :| 0 <= i < |qs| && Waiting(delays, qs, x, i);
      assert Waiting(delays, ops, x, i) <==> (op.Pop? ==> op.at < x);
    }
  }

  /** Every scheduled instant is consumed by exactly the first pop at or after it, and
      coalescing loses none: what is due after any history is what was scheduled and
      not yet reached, so a pop fires exactly when it is the first to reach some
      scheduled instant. */
  lemma {:induction false} WakesExact(delays: seq<int>, ops: seq<WakeOp>, x: int)
    ensures x in DueAfter(delays, ops) <==> Waits(delays, ops, x)
  {
    if ops != [] {
      var qs, op := ops[..|ops| - 1], ops[|ops| - 1];
      assert ops == qs + [op];
      WakesExact(delays, qs, x);
      WaitingExtend(delays, qs, op, x);
    }
  }

  // ----- The mirror ---------------------------------------------------------

  function CountOf(counts: map<string, nat>, topic: string): nat {
    if topic in counts then counts[topic] else 0
  }

  /** One backend message in: the new counts, and the frames to write upstream. */
  function Decided(counts: map<string, nat>, message: string): (map<string, nat>, seq<string>) {
    if message == "" then (counts, [])
    else
      var topic := message[1..];
      if message[0] == SUB then (counts[topic := CountOf(counts, topic) + 1], [message])
      else if message[0] == UNSUB then
        (counts - {topic}, seq(Max(CountOf(counts, topic), 1), _ => UnsubFrame(topic)))
      else (counts, [])
  }

  class SubscriptionMirror {
    var counts: map<string, nat>

    constructor ()
      ensures counts == map[]
    {
      counts := map[];
    }

    method RecordSubscribe(topic: string)
      modifies this
      ensures counts == old(counts)[topic := CountOf(old(counts), topic) + 1]
    {
      counts := counts[topic := CountOf(counts, topic) + 1];
    }

    method RecordUnsubscribe(topic: string) returns (n: nat)
      modifies this
      ensures counts == old(counts) - {topic}
      ensures n == Max(CountOf(old(counts), topic), 1)
    {
      n := CountOf(counts, topic);
      counts := counts - {topic};
      if n < 1 {
        n := 1;
      }
    }

    method DecideSubscriptionForward(message: string) returns (frames: seq<string>)
      modifies this
      ensures (counts, frames) == Decided(old(counts), message)
    {
      if message == "" {
        return [];
      }
      var topic := message[1..];
      if message[0] == SUB {
        RecordSubscribe(topic);
        return [message];
      }
      if message[0] == UNSUB {
        var n := RecordUnsubscribe(topic);
        return seq(n, _ => UnsubFrame(topic));
      }
      return [];
    }
  }

  // ----- One turn of the loop -----------------------------------------------

  /** What one poll returned, and the clock readings of the turn. */
  datatype Turn = Turn(message: Option<string>, attached: bool, messageAt: int, attachedAt: int, now: int)

  datatype HubState = HubState(counts: map<string, nat>, due: seq<int>)

  /** Everything written upstream in one turn, the wake last. */
  function Turned(h: HubState, delays: seq<int>, t: Turn): (HubState, seq<string>) {
    var (counts, frames) := if t.message.Some? then Decided(h.counts, t.message.value) else (h.counts, []);
    var due1 := if t.message.Some? then h.due + Offsets(delays, t.messageAt) else h.due;
    var due2 := if t.attached then due1 + Offsets(delays, t.attachedAt) else due1;
    var due3 := Remaining(due2, t.now);
    (HubState(counts, due3),
     if |due3| != |due2| then frames + [SubFrame(WAKE_TOPIC), UnsubFrame(WAKE_TOPIC)] else frames)
  }

  function Served(h: HubState, delays: seq<int>, turns: seq<Turn>): (HubState, seq<string>) {
    if turns == [] then (h, [])
    else
      var (g, w) := Served(h, delays, turns[..|turns| - 1]);
      var (g', w') := Turned(g, delays, turns[|turns| - 1]);
      (g', w + w')
  }

  lemma ServedStep(h: HubState, delays: seq<int>, turns: seq<Turn>, i: nat)
    requires i < |turns|
    ensures var (g, w) := Served(h, delays, turns[..i]);
            Served(h, delays, turns[..i + 1]) == (Turned(g, delays, turns[i]).0, w + Turned(g, delays, turns[i]).1)
  {
    assert turns[..i + 1][..i] == turns[..i];
  }

  lemma Associative<T>(a: seq<T>, b: seq<T>, c: seq<T>)
    ensures a + b + c == a + (b + c)
  {
  }

  class Forwarder {
    const mirror: SubscriptionMirror
    const wakes: WakeScheduler
    /** What has been written to the upstream XSUB, in order. */
    var written: seq<string>

    ghost function State(): HubState
      reads mirror, wakes
    {
      HubState(mirror.counts, wakes.due)
    }

    constructor ()
      ensures State() == HubState(map[], []) && written == []
      ensures wakes.delays == FOLLOW_UP_DELAYS
      ensures fresh(mirror) && fresh(wakes)
    {
      mirror := new SubscriptionMirror();
      wakes := new WakeScheduler(FOLLOW_UP_DELAYS);
      written := [];
    }

    method Iterate(t: Turn)
      modifies this, mirror, wakes
      ensures State() == Turned(old(State()), wakes.delays, t).0
      ensures written == old(written) + Turned(old(State()), wakes.delays, t).1
    {
      var frames := [];
      if t.message.Some? {
        frames := mirror.DecideSubscriptionForward(t.message.value);
        written := written + frames;
        wakes.Schedule(t.messageAt);
      }
      assert written == old(written) + frames;
      if t.attached {
        wakes.Schedule(t.attachedAt);
      }
      var fired := wakes.PopDue(t.now);
      if fired {
        written := written + [SubFrame(WAKE_TOPIC)];
        written := written + [UnsubFrame(WAKE_TOPIC)];
        assert written == old(written) + (frames + [SubFrame(WAKE_TOPIC), UnsubFrame(WAKE_TOPIC)]);
      }
    }

    /** The loop, over the turns taken before it is told to stop. */
    method Serve(turns: seq<Turn>)
      modifies this, mirror, wakes
      ensures State() == Served(old(State()), wakes.delays, turns).0
      ensures written == old(written) + Served(old(State()), wakes.delays, turns).1
    {
      ghost var start, st, out := State(), State(), [];
      var i := 0;
      while i < |turns|
        invariant i <= |turns|
        invariant State() == st && (st, out) == Served(start, wakes.delays, turns[..i])
        invariant written == old(written) + out
      {
        ServedStep(start, wakes.delays, turns, i);
        Iterate(turns[i]);
        ghost var w := Turned(st, wakes.delays, turns[i]).1;
        Associative(old(written), out, w);
        out := out + w;
        st := State();
        i := i + 1;
      }
      assert turns[..i] == turns;
    }
  }
}
