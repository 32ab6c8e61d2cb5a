/** The publisher DLL: one socket per process, a registry of the charts that use it,
    and the exported calls. Each call holds the process-wide lock, so it is one step.

    The outside world enters through two doors. What a drain finds queued is an
    argument of the call (`Inbox`). Whether an attempt to format or send a frame is
    accepted, refused (EAGAIN) or raises is answered by a fate, consulted once per
    attempt. */
module Publisher {
  import opened Prelude

  const MAX_CHARTS: nat := 24

  /** A subscription message is one of these characters followed by the raw topic. */
  const SUB: char := '\U{1}'
  const UNSUB: char := '\U{0}'

  datatype Ident = Ident(symbol: string, category: int, barType: int, barInterval: int)

  datatype Chart = Chart(id: Ident, announced: bool, voidReported: bool, lastUsed: nat)

  datatype Frame =
    | Topic(topic: string)
    | Hello(hello: Ident, helloNumber: nat, helloSid: int)
    | Point(point: Ident, pointNumber: nat, pointSid: int)
    | Empty

  /** What has happened on the current socket, oldest first. */
  datatype Event =
    | Subscribed(topic: string)
    | Unsubscribed(topic: string)
    | HubLost
    | Sent(frames: seq<Frame>)
    | CloseFailed

  datatype Fate = Accepted | Refused | Raised
  type Fates = nat -> Fate

  /** Everything one drain reads: the subscription queue, whether it was read to its
      end, and the monitor queue (true: the peer disconnected). */
  datatype Inbox = Inbox(messages: seq<string>, readable: bool, monitor: seq<bool>)

  /** The process state. `open` holds the frames of a message not yet terminated,
      `log` the history of this socket, `tick` the attempts made so far. */
  datatype Pub = Pub(
    connected: bool,
    endpoint: string,
    sid: int,
    numbers: map<string, nat>,
    charts: seq<Chart>,
    useTick: nat,
    subs: set<string>,
    open: seq<Frame>,
    log: seq<Event>,
    tick: nat)

  const COLD := Pub(false, "", 0, map[], [], 0, {}, [], [], 0)

  // ----- Sequence numbers and coverage --------------------------------------

  function NumberOf(p: Pub, topic: string): nat {
    if topic in p.numbers then p.numbers[topic] else 0
  }

  /** The number is consumed whether or not the send that follows succeeds. */
  function Reserved(p: Pub, topic: string): Pub {
    p.(numbers := p.numbers[topic := NumberOf(p, topic) + 1])
  }

  ghost predicate Heard(subs: set<string>, topic: string) {
    exists s :: s in subs && Covers(s, topic)
  }

  // ----- The registry -------------------------------------------------------

  /** Index of the first chart with this identity at or after `from`, or the size. */
  function FindChart(charts: seq<Chart>, id: Ident, from: nat := 0): (i: nat)
    requires from <= |charts|
    ensures from <= i <= |charts|
    ensures i < |charts| ==> charts[i].id == id
    ensures forall j :: from <= j < i ==> charts[j].id != id
    decreases |charts| - from
  {
    if from == |charts| || charts[from].id == id then from else FindChart(charts, id, from + 1)
  }

  /** The chart that has gone longest without publishing, among the first `n`. */
  function Victim(charts: seq<Chart>, n: nat): (v: nat)
    requires 1 <= n <= |charts|
    ensures v < n
    ensures forall j :: 0 <= j < n ==> charts[v].lastUsed <= charts[j].lastUsed
  {
    if n == 1 then 0
    else
      var v := Victim(charts, n - 1);
      if charts[n - 1].lastUsed < charts[v].lastUsed then n - 1 else v
  }

  function Without(charts: seq<Chart>, i: nat): seq<Chart>
    requires i < |charts|
  {
    charts[..i] + charts[i + 1..]
  }

  function Registered(p: Pub, id: Ident): Pub {
    var kept := if |p.charts| >= MAX_CHARTS then Without(p.charts, Victim(p.charts, |p.charts|)) else p.charts;
    p.(charts := kept + [Chart(id, false, false, p.useTick + 1)], useTick := p.useTick + 1)
  }

  function Bumped(p: Pub, i: nat): Pub
    requires i < |p.charts|
  {
    p.(charts := p.charts[i := p.charts[i].(lastUsed := p.useTick + 1)], useTick := p.useTick + 1)
  }

  // ----- Sending ------------------------------------------------------------

  function Sending(p: Pub, f: Frame, more: bool, fates: Fates): (Pub, Fate) {
    var fate := fates(p.tick);
    var q := p.(tick := p.tick + 1);
    if fate != Accepted then (q, fate)
    else if more then (q.(open := p.open + [f]), fate)
    else (q.(open := [], log := p.log + [Sent(p.open + [f])]), fate)
  }

  /** An empty terminating frame puts the socket back on a message boundary; its own
      failure is swallowed. */
  function Closing(p: Pub, fates: Fates): Pub {
    var (q, fate) := Sending(p, Empty, false, fates);
    if fate == Accepted then q else q.(log := q.log + [CloseFailed])
  }

  /** A topic frame, then a body frame; an abandoned message is closed. */
  function SendingPair(p: Pub, topic: string, body: Frame, fates: Fates): (Pub, Fate) {
    var (p1, f1) := Sending(p, Topic(topic), true, fates);
    if f1 != Accepted then (p1, f1)
    else
      var (p2, f2) := Sending(p1, body, false, fates);
      if f2 == Accepted then (p2, f2) else (Closing(p2, fates), f2)
  }

  /** Whether a payload fits its buffer is not computed here: a fate decides. */
  function Formatting(p: Pub, fates: Fates): (Pub, bool) {
    (p.(tick := p.tick + 1), fates(p.tick) == Accepted)
  }

  function HelloFrame(p: Pub, i: nat): Frame
    requires i < |p.charts|
  {
    Hello(p.charts[i].id, NumberOf(p, CONTROL_TOPIC), p.sid)
  }

  function SendingHello(p: Pub, i: nat, fates: Fates): (r: (Pub, Fate))
    requires i < |p.charts|
    ensures |r.0.charts| == |p.charts|
  {
    var (p1, fits) := Formatting(Reserved(p, CONTROL_TOPIC), fates);
    if !fits then (p1, Refused)
    else
      var (p2, fate) := SendingPair(p1, CONTROL_TOPIC, HelloFrame(p1, i), fates);
      if fate == Accepted then (p2.(charts := p2.charts[i := p2.charts[i].(announced := true)]), fate)
      else (p2, fate)
  }

  // ----- Draining -----------------------------------------------------------

  function Unannounced(charts: seq<Chart>): (r: seq<Chart>)
    ensures |r| == |charts|
    ensures forall i :: 0 <= i < |r| ==> r[i] == charts[i].(announced := false)
  {
    if charts == [] then [] else [charts[0].(announced := false)] + Unannounced(charts[1..])
  }

  /** One subscription message. A subscribe that would receive hellos invalidates
      every announcement. */
  function Notified(p: Pub, m: string): Pub {
    if m == "" then p
    else if m[0] == UNSUB then p.(subs := p.subs - {m[1..]}, log := p.log + [Unsubscribed(m[1..])])
    else if m[0] != SUB then p
    else
      p.(subs := p.subs + {m[1..]},
         log := p.log + [Subscribed(m[1..])],
         charts := if Covers(m[1..], CONTROL_TOPIC) then Unannounced(p.charts) else p.charts)
  }

  function AllNotified(p: Pub, ms: seq<string>): Pub {
    if ms == [] then p else Notified(AllNotified(p, ms[..|ms| - 1]), ms[|ms| - 1])
  }

  function Monitored(p: Pub, events: seq<bool>): Pub {
    if events == [] then p
    else
      var q := Monitored(p, events[..|events| - 1]);
      if events[|events| - 1]
      then q.(subs := {}, charts := Unannounced(q.charts), log := q.log + [HubLost])
      else q
  }

  /** One turn of the announcement sweep. */
  function Announcing(p: Pub, i: nat, fates: Fates): (r: Pub)
    requires i < |p.charts|
    ensures |r.charts| == |p.charts|
  {
    if p.charts[i].announced then p else SendingHello(p, i, fates).0
  }

  /** The announcement sweep over the first `n` charts. */
  function Swept(p: Pub, n: nat, fates: Fates): (r: Pub)
    requires n <= |p.charts|
    ensures |r.charts| == |p.charts|
  {
    if n == 0 then p
    else
      Announcing(Swept(p, n - 1, fates), n - 1, fates)
  }

  /** Read every queued message, then the monitor, then announce what needs it. */
  ghost function Drained(p: Pub, inbox: Inbox, fates: Fates): Pub {
    if !p.connected then p
    else
      var q := Monitored(AllNotified(p, inbox.messages), inbox.monitor);
      if Heard(q.subs, CONTROL_TOPIC) then Swept(q, |q.charts|, fates) else q
  }

  // ----- The exported calls -------------------------------------------------

  function Connected(p: Pub, endpoint: string, sid: int): Pub {
    p.(connected := true, endpoint := endpoint, sid := sid, numbers := map[], charts := [],
       subs := {}, open := [], log := [])
  }

  /** Where EL_InitChart finds or puts the chart it was called for. */
  function Placed(p: Pub, id: Ident): (r: (Pub, nat))
    ensures r.1 < |r.0.charts| && r.0.charts[r.1].id == id
  {
    var found := FindChart(p.charts, id);
    if found < |p.charts| then (p, found) else (Registered(p, id), |Registered(p, id).charts| - 1)
  }

  /** EL_InitChart, once the socket exists and the drain has succeeded. */
  ghost function Initialised(p: Pub, id: Ident, fates: Fates): (Pub, int) {
    if !Heard(p.subs, CONTROL_TOPIC) then (p, -7)
    else
      var (q, i) := Placed(p, id);
      if q.charts[i].announced then (q, 1)
      else
        var (r, fate) := SendingHello(q, i, fates);
        (r, match fate case Accepted => 0 case Refused => -2 case Raised => -3)
  }

  ghost function InitChart(
    p: Pub, endpoint: Option<string>, id: Option<Ident>, connectable: bool, sid: int,
    inbox: Inbox, fates: Fates): (Pub, int)
  {
    if endpoint.None? || id.None? then (p, -4)
    else if !p.connected && !connectable then (p, -3)
    else if p.connected && p.endpoint != endpoint.value then (p, -8)
    else
      var q := if p.connected then p else Connected(p, endpoint.value, sid);
      var d := Drained(q, inbox, fates);
      if !inbox.readable then (d, -9) else Initialised(d, id.value, fates)
  }

  /** One point under a fresh number. */
  function SendingPoint(p: Pub, id: Ident, fates: Fates): (r: (Pub, int))
    ensures |r.0.charts| == |p.charts|
  {
    var (q, fits) := Formatting(Reserved(p, id.symbol), fates);
    if !fits then (q, -4)
    else
      var (r, fate) := SendingPair(q, id.symbol, Point(id, NumberOf(q, id.symbol), q.sid), fates);
      (r, if fate == Accepted then 0 else -2)
  }

  /** The latch on a registered chart, and the answer, for a point the socket took. */
  function Noted(p: Pub, i: nat, heard: bool): (Pub, int)
    requires i < |p.charts|
  {
    if !heard && p.charts[i].voidReported then (p, 0)
    else (p.(charts := p.charts[i := p.charts[i].(voidReported := !heard)]), if heard then 0 else -10)
  }

  /** EL_Publish once the drain is done. */
  ghost function Published(p: Pub, id: Ident, fates: Fates): (Pub, int) {
    var heard := Heard(p.subs, id.symbol);
    var i := FindChart(p.charts, id);
    var known := i < |p.charts|;
    var (r, rc) := SendingPoint(if known then Bumped(p, i) else p, id, fates);
    if rc != 0 then (r, rc)
    else if !known then (r, if heard then 0 else -10)
    else Noted(r, i, heard)
  }

  ghost function Publish(p: Pub, id: Option<Ident>, narrow: bool, inbox: Inbox, fates: Fates): (Pub, int) {
    if id.None? || !narrow then (p, -4)
    else if !p.connected then (p, -1)
    else Published(Drained(p, inbox, fates), id.value, fates)
  }

  function Shutdown(p: Pub): Pub {
    p.(connected := false, endpoint := "", sid := 0, numbers := map[], charts := [], subs := {},
       open := [], log := [])
  }

  // ----- The process as an object -------------------------------------------

  class Bridge {
    const fates: Fates
    var connected: bool
    var endpoint: string
    var sid: int
    var numbers: map<string, nat>
    var charts: seq<Chart>
    var useTick: nat
    var subs: set<string>
    var open: seq<Frame>
    ghost var log: seq<Event>
    var tick: nat

    ghost function State(): Pub
      reads this
    {
      Pub(connected, endpoint, sid, numbers, charts, useTick, subs, open, log, tick)
    }

    constructor (fates: Fates)
      ensures State() == COLD && this.fates == fates
    {
      this.fates := fates;
      connected, endpoint, sid, numbers := false, "", 0, map[];
      charts, useTick, subs, open, log, tick := [], 0, {}, [], [], 0;
    }

    method ReserveSeq(topic: string) returns (n: nat)
      modifies this
      ensures State() == Reserved(old(State()), topic)
      ensures n == NumberOf(State(), topic)
    {
      n := (if topic in numbers then numbers[topic] else 0) + 1;
      numbers := numbers[topic := n];
    }

    /** A linear scan of the attached subscriptions. */
    method SymbolSubscribed(topic: string) returns (b: bool)
      ensures b == Heard(subs, topic)
    {
      var rest := subs;
      while rest != {}
        invariant rest <= subs
        invariant forall s :: s in subs - rest ==> !Covers(s, topic)
        decreases rest
      {
        var s :| s in rest;
        if Covers(s, topic) {
          return true;
        }
        rest := rest - {s};
      }
      return false;
    }

    method Find(id: Ident) returns (i: nat)
      ensures i == FindChart(charts, id)
    {
      i := 0;
      while i < |charts|
        invariant i <= |charts|
        invariant FindChart(charts, id) == FindChart(charts, id, i)
      {
        if charts[i].id == id {
          return;
        }
        i := i + 1;
      }
    }

    method EvictLeastRecent()
      requires charts != []
      modifies this`charts
      ensures charts == Without(old(charts), Victim(old(charts), |old(charts)|))
    {
      var victim := 0;
      for j := 1 to |charts|
        invariant victim == Victim(charts, j)
      {
        if charts[j].lastUsed < charts[victim].lastUsed {
          victim := j;
        }
      }
      charts := charts[..victim] + charts[victim + 1..];
    }

    method RegisterChart(id: Ident) returns (i: nat)
      modifies this
      ensures State() == Registered(old(State()), id)
      ensures i == |charts| - 1
    {
      if |charts| >= MAX_CHARTS {
        EvictLeastRecent();
      }
      useTick := useTick + 1;
      charts := charts + [Chart(id, false, false, useTick)];
      i := |charts| - 1;
    }

    method Send(f: Frame, more: bool) returns (fate: Fate)
      modifies this
      ensures (State(), fate) == Sending(old(State()), f, more, fates)
    {
      fate := fates(tick);
      tick := tick + 1;
      if fate == Accepted {
        if more {
          open := open + [f];
        } else {
          log := log + [Sent(open + [f])];
          open := [];
        }
      }
    }

    method CloseAbandonedMessage()
      modifies this
      ensures State() == Closing(old(State()), fates)
    {
      var fate := Send(Empty, false);
      if fate != Accepted {
        log := log + [CloseFailed];
      }
    }

    method SendPair(topic: string, body: Frame) returns (fate: Fate)
      modifies this
      ensures (State(), fate) == SendingPair(old(State()), topic, body, fates)
    {
      fate := Send(Topic(topic), true);
      if fate != Accepted {
        return;
      }
      fate := Send(body, false);
      if fate != Accepted {
        CloseAbandonedMessage();
      }
    }

    method SendHello(i: nat) returns (fate: Fate)
      requires i < |charts|
      modifies this
      ensures (State(), fate) == SendingHello(old(State()), i, fates)
    {
      var n := ReserveSeq(CONTROL_TOPIC);
      fate := fates(tick);
      tick := tick + 1;
      if fate != Accepted {
        return Refused;
      }
      fate := SendPair(CONTROL_TOPIC, Hello(charts[i].id, n, sid));
      if fate == Accepted {
        charts := charts[i := charts[i].(announced := true)];
      }
    }

    method ForgetAnnouncements()
      modifies this`charts
      ensures charts == Unannounced(old(charts))
    {
      for i := 0 to |charts|
        invariant |charts| == |old(charts)|
        invariant charts[i..] == old(charts)[i..]
        invariant forall j :: 0 <= j < i ==> charts[j] == old(charts)[j].(announced := false)
      {
        charts := charts[i := charts[i].(announced := false)];
      }
    }

    method DrainMonitor(events: seq<bool>)
      modifies this
      ensures State() == Monitored(old(State()), events)
    {
      for i := 0 to |events|
        invariant State() == Monitored(old(State()), events[..i])
      {
        assert events[..i + 1][..i] == events[..i];
        if events[i] {
          subs := {};
          ForgetAnnouncements();
          log := log + [HubLost];
        }
      }
      assert events[..|events|] == events;
    }

    method ReadSubscription(m: string)
      modifies this
      ensures State() == Notified(old(State()), m)
    {
      if |m| < 1 {
        return;
      }
      var topic := m[1..];
      if m[0] == UNSUB {
        subs := subs - {topic};
        log := log + [Unsubscribed(topic)];
        return;
      }
      if m[0] != SUB {
        return;
      }
      subs := subs + {topic};
      log := log + [Subscribed(topic)];
      if Covers(topic, CONTROL_TOPIC) {
        ForgetAnnouncements();
      }
    }

    method DrainSubscriptions(inbox: Inbox) returns (drained: bool)
      modifies this
      ensures State() == Drained(old(State()), inbox, fates)
      ensures drained == (!old(connected) || inbox.readable)
    {
      if !connected {
        return true;
      }
      drained := inbox.readable;
      for i := 0 to |inbox.messages|
        invariant State() == AllNotified(old(State()), inbox.messages[..i])
      {
        assert inbox.messages[..i + 1][..i] == inbox.messages[..i];
        ReadSubscription(inbox.messages[i]);
      }
      assert inbox.messages[..|inbox.messages|] == inbox.messages;
      DrainMonitor(inbox.monitor);
      var covered := SymbolSubscribed(CONTROL_TOPIC);
      if !covered {
        return;
      }
      ghost var before := State();
      for i := 0 to |charts|
        invariant |charts| == |before.charts|
        invariant State() == Swept(before, i, fates)
      {
        if !charts[i].announced {
          var _ := SendHello(i);
        }
      }
    }

    /** The part of EL_InitChart behind its drain. */
    method InitialiseChart(id: Ident) returns (rc: int)
      modifies this
      ensures (State(), rc) == Initialised(old(State()), id, fates)
    {
      var covered := SymbolSubscribed(CONTROL_TOPIC);
      if !covered {
        return -7;
      }
      var i := Find(id);
      if i == |charts| {
        i := RegisterChart(id);
      }
      var announcedBefore := charts[i].announced;
      if !announcedBefore {
        var fate := SendHello(i);
        if fate == Refused {
          return -2;
        }
        if fate == Raised {
          return -3;
        }
      }
      return if announcedBefore then 1 else 0;
    }

    method ELInitChart(endpointName: Option<string>, id: Option<Ident>, connectable: bool, newSid: int, inbox: Inbox)
      returns (rc: int)
      modifies this
      ensures (State(), rc) == InitChart(old(State()), endpointName, id, connectable, newSid, inbox, fates)
    {
      if endpointName.None? || id.None? {
        return -4;
      }
      if !connected {
        if !connectable {
          return -3;
        }
        connected, endpoint, sid := true, endpointName.value, newSid;
        numbers, charts, subs, open, log := map[], [], {}, [], [];
      } else if endpoint != endpointName.value {
        return -8;
      }
      var drained := DrainSubscriptions(inbox);
      if !drained {
        return -9;
      }
      rc := InitialiseChart(id.value);
    }

    method Bump(i: nat)
      requires i < |charts|
      modifies this`charts, this`useTick
      ensures State() == Bumped(old(State()), i)
    {
      useTick := useTick + 1;
      charts := charts[i := charts[i].(lastUsed := useTick)];
    }

    method SendPoint(id: Ident) returns (rc: int)
      modifies this
      ensures (State(), rc) == SendingPoint(old(State()), id, fates)
    {
      var n := ReserveSeq(id.symbol);
      var fits := fates(tick);
      tick := tick + 1;
      if fits != Accepted {
        return -4;
      }
      var fate := SendPair(id.symbol, Point(id, n, sid));
      return if fate == Accepted then 0 else -2;
    }

    /** The part of EL_Publish behind its drain. */
    method PublishPoint(id: Ident) returns (rc: int)
      modifies this
      ensures (State(), rc) == Published(old(State()), id, fates)
    {
      var heard := SymbolSubscribed(id.symbol);
      var i := Find(id);
      var known := i != |charts|;
      if known {
        Bump(i);
      }
      rc := SendPoint(id);
      if rc != 0 {
        return;
      }
      if !known {
        return if heard then 0 else -10;
      }
      rc := NoteAudience(i, heard);
    }

    /** The end of EL_Publish, for a registered chart: one report per episode. */
    method NoteAudience(i: nat, heard: bool) returns (rc: int)
      requires i < |charts|
      modifies this`charts
      ensures (State(), rc) == Noted(old(State()), i, heard)
    {
      if heard {
        charts := charts[i := charts[i].(voidReported := false)];
        return 0;
      }
      if charts[i].voidReported {
        return 0;
      }
      charts := charts[i := charts[i].(voidReported := true)];
      return -10;
    }

    method ELPublish(id: Option<Ident>, narrow: bool, inbox: Inbox) returns (rc: int)
      modifies this
      ensures (State(), rc) == Publish(old(State()), id, narrow, inbox, fates)
    {
      if id.None? || !narrow {
        return -4;
      }
      if !connected {
        return -1;
      }
      var _ := DrainSubscriptions(inbox);
      rc := PublishPoint(id.value);
    }

    method ELShutdown() returns (rc: int)
      modifies this
      ensures State() == Shutdown(old(State())) && rc == 0
    {
      connected, endpoint, sid := false, "", 0;
      numbers, charts, subs, open, log := map[], [], {}, [], [];
      return 0;
    }
  }
}
