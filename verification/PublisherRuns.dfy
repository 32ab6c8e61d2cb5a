/** Runs of the publisher: what holds of the registry, the wire and the announcements
    after any sequence of exported calls, whatever the socket does. The invariant is kept
    piece by piece: registry, framing, announcements, numbers, session id; then call by
    call. */
module PublisherRuns {
  import opened Prelude
  import opened Publisher

  datatype Call =
    | InitCall(endpoint: Option<string>, id: Option<Ident>, connectable: bool, sid: int, inbox: Inbox)
    | PublishCall(point: Option<Ident>, narrow: bool, queued: Inbox)
    | ShutdownCall

  ghost function Exec(p: Pub, c: Call, fates: Fates): (Pub, int) {
    match c
    case InitCall(endpoint, id, connectable, sid, inbox) => InitChart(p, endpoint, id, connectable, sid, inbox, fates)
    case PublishCall(id, narrow, inbox) => Publish(p, id, narrow, inbox, fates)
    case ShutdownCall => (Shutdown(p), 0)
  }

  ghost function Run(p: Pub, calls: seq<Call>, fates: Fates): Pub {
    if calls == [] then p else Exec(Run(p, calls[..|calls| - 1], fates), calls[|calls| - 1], fates).0
  }

  // ----- The invariant ------------------------------------------------------

  ghost predicate RegistryOk(charts: seq<Chart>, useTick: nat) {
    && |charts| <= MAX_CHARTS
    && (forall i, j :: 0 <= i < j < |charts| ==> charts[i].id != charts[j].id)
    && (forall i, j :: 0 <= i < j < |charts| ==> charts[i].lastUsed != charts[j].lastUsed)
    && (forall i :: 0 <= i < |charts| ==> charts[i].lastUsed <= useTick)
  }

  /** A body belongs under the topic it is sent on. */
  predicate BodyFor(topic: string, body: Frame) {
    match body
    case Hello(_, _, _) => topic == CONTROL_TOPIC
    case Point(id, _, _) => topic == id.symbol
    case Empty => true
    case Topic(_) => false
  }

  /** Two frames, the first being the intended topic. */
  predicate WellFramed(frames: seq<Frame>) {
    |frames| == 2 && EndsInPair(frames)
  }

  /** The last two frames are a topic and a body that belongs under it. */
  predicate EndsInPair(frames: seq<Frame>) {
    var n := |frames|;
    n >= 2 && frames[n - 2].Topic? && BodyFor(frames[n - 2].topic, frames[n - 1])
  }

  ghost predicate AllWellFramed(log: seq<Event>) {
    forall e :: e in log && e.Sent? ==> WellFramed(e.frames)
  }

  /** The terminating frames that have failed since the last message that ended. */
  function Stuck(log: seq<Event>): nat {
    if log == [] then 0
    else match log[|log| - 1]
      case Sent(_) => 0
      case CloseFailed => Stuck(log[..|log| - 1]) + 1
      case _ => Stuck(log[..|log| - 1])
  }

  /** Every message is a topic and its body behind exactly one stray topic for each
      terminating frame that failed since the message before it. */
  predicate FramedExactly(log: seq<Event>) {
    if log == [] then true
    else
      var rest, e := log[..|log| - 1], log[|log| - 1];
      FramedExactly(rest) && (e.Sent? ==> EndsInPair(e.frames) && |e.frames| == Stuck(rest) + 2)
  }

  predicate FramingOk(p: Pub) {
    |p.open| == Stuck(p.log) && FramedExactly(p.log)
  }

  predicate IsHello(frames: seq<Frame>, id: Ident) {
    |frames| == 2 && EndsInHello(frames, id)
  }

  predicate EndsInHello(frames: seq<Frame>, id: Ident) {
    var n := |frames|;
    n >= 2 && frames[n - 2] == Topic(CONTROL_TOPIC) && frames[n - 1].Hello? && frames[n - 1].hello == id
  }

  /** An event after which an earlier hello no longer counts: a subscribe that would
      receive hellos, or the loss of the hub. */
  predicate Unsays(e: Event) {
    e.HubLost? || (e.Subscribed? && Covers(e.topic, CONTROL_TOPIC))
  }

  /** A message ending in the hello of `id` has gone out since the last such event. */
  predicate HelloEndedSince(log: seq<Event>, id: Ident) {
    if log == [] then false
    else
      var rest, e := log[..|log| - 1], log[|log| - 1];
      (e.Sent? && EndsInHello(e.frames, id)) || (HelloEndedSince(rest, id) && !Unsays(e))
  }

  /** A complete hello of `id`, two frames and no more, has. */
  predicate HelloSince(log: seq<Event>, id: Ident) {
    if log == [] then false
    else
      var rest, e := log[..|log| - 1], log[|log| - 1];
      (e.Sent? && IsHello(e.frames, id)) || (HelloSince(rest, id) && !Unsays(e))
  }

  ghost predicate AnnouncedOk(p: Pub) {
    forall i :: 0 <= i < |p.charts| && p.charts[i].announced ==> HelloEndedSince(p.log, p.charts[i].id)
  }

  /** The sequence number a receiver of this message reads off `topic`, if any. */
  function NumberOn(frames: seq<Frame>, topic: string): Option<nat> {
    if |frames| != 2 || frames[0] != Topic(topic) then None
    else match frames[1]
      case Hello(_, n, _) => Some(n)
      case Point(_, n, _) => Some(n)
      case _ => None
  }

  function BodySid(body: Frame): Option<int> {
    match body
    case Hello(_, _, sid) => Some(sid)
    case Point(_, _, sid) => Some(sid)
    case _ => None
  }

  /** The numbers put on the wire for one topic, in order. */
  function WireNumbers(log: seq<Event>, topic: string): seq<nat> {
    if log == [] then []
    else
      var r := WireNumbers(log[..|log| - 1], topic);
      var e := log[|log| - 1];
      if e.Sent? && NumberOn(e.frames, topic).Some? then r + [NumberOn(e.frames, topic).value] else r
  }

  predicate Increasing(ns: seq<int>) {
    forall i, j :: 0 <= i < j < |ns| ==> ns[i] < ns[j]
  }

  predicate UpTo(ns: seq<nat>, bound: int) {
    Increasing(ns) && forall i :: 0 <= i < |ns| ==> 1 <= ns[i] <= bound
  }

  ghost predicate NumbersOk(p: Pub) {
    forall topic :: UpTo(WireNumbers(p.log, topic), NumberOf(p, topic))
  }

  ghost predicate SidOk(p: Pub) {
    forall e :: e in p.log && e.Sent? && |e.frames| == 2 && BodySid(e.frames[1]).Some? ==>
      BodySid(e.frames[1]).value == p.sid
  }

  ghost predicate Inv(p: Pub) {
    && RegistryOk(p.charts, p.useTick)
    && FramingOk(p)
    && AnnouncedOk(p)
    && NumbersOk(p)
    && SidOk(p)
  }

  // ----- Every step keeps it ------------------------------------------------

  /** What a two-frame send can do to the wire. */
  lemma PairOutcome(p: Pub, topic: string, body: Frame, fates: Fates)
    ensures var (r, fate) := SendingPair(p, topic, body, fates);
            && r == p.(open := r.open, log := r.log, tick := r.tick)
            && (|| (fate == Accepted && r.open == [] && r.log == p.log + [Sent(p.open + [Topic(topic), body])])
                || (fate != Accepted && r.open == p.open && r.log == p.log)
                || (fate != Accepted && r.open == [] && r.log == p.log + [Sent(p.open + [Topic(topic), Empty])])
                || (fate != Accepted && r.open == p.open + [Topic(topic)] && r.log == p.log + [CloseFailed]))
  {
    assert p.open + [Topic(topic)] + [body] == p.open + [Topic(topic), body];
    assert p.open + [Topic(topic)] + [Empty] == p.open + [Topic(topic), Empty];
  }

  lemma ReservedInv(p: Pub, topic: string)
    requires Inv(p)
    ensures Inv(Reserved(p, topic))
    ensures UpTo(WireNumbers(p.log, topic), NumberOf(Reserved(p, topic), topic) - 1)
  {
    var q := Reserved(p, topic);
    forall t ensures UpTo(WireNumbers(q.log, t), NumberOf(q, t)) {
      assert UpTo(WireNumbers(p.log, t), NumberOf(p, t));
    }
  }

  /** A send of `body` under a freshly reserved number. */
  ghost predicate Ready(p: Pub, topic: string, body: Frame) {
    && BodyFor(topic, body)
    && NumberOf(p, topic) >= 1
    && UpTo(WireNumbers(p.log, topic), NumberOf(p, topic) - 1)
    && (body.Hello? || body.Point?)
    && NumberOn([Topic(topic), body], topic) == Some(NumberOf(p, topic))
    && BodySid(body) == Some(p.sid)
  }

  lemma LogExtend(log: seq<Event>, e: Event, topic: string)
    ensures WireNumbers(log + [e], topic) ==
            WireNumbers(log, topic) +
            if e.Sent? && NumberOn(e.frames, topic).Some? then [NumberOn(e.frames, topic).value] else []
  {
    assert (log + [e])[..|log|] == log;
  }

  lemma HelloExtend(log: seq<Event>, e: Event, id: Ident)
    ensures HelloEndedSince(log + [e], id) <==>
            (e.Sent? && EndsInHello(e.frames, id)) || (HelloEndedSince(log, id) && !Unsays(e))
  {
    assert (log + [e])[..|log|] == log;
  }

  lemma FramingExtend(log: seq<Event>, e: Event)
    ensures FramedExactly(log + [e]) <==>
            FramedExactly(log) && (e.Sent? ==> EndsInPair(e.frames) && |e.frames| == Stuck(log) + 2)
    ensures Stuck(log + [e]) == if e.Sent? then 0 else if e.CloseFailed? then Stuck(log) + 1 else Stuck(log)
  {
    assert (log + [e])[..|log|] == log;
  }

  lemma PairFraming(p: Pub, topic: string, body: Frame, fates: Fates)
    requires FramingOk(p) && BodyFor(topic, body)
    ensures FramingOk(SendingPair(p, topic, body, fates).0)
  {
    PairOutcome(p, topic, body, fates);
    var r := SendingPair(p, topic, body, fates).0;
    if r.log != p.log {
      FramingExtend(p.log, r.log[|p.log|]);
    }
  }

  lemma PairNumbers(p: Pub, topic: string, body: Frame, fates: Fates)
    requires NumbersOk(p) && Ready(p, topic, body)
    ensures NumbersOk(SendingPair(p, topic, body, fates).0)
  {
    PairOutcome(p, topic, body, fates);
    var r := SendingPair(p, topic, body, fates).0;
    forall t ensures UpTo(WireNumbers(r.log, t), NumberOf(r, t)) {
      assert UpTo(WireNumbers(p.log, t), NumberOf(p, t));
      if r.log != p.log {
        var e := r.log[|p.log|];
        LogExtend(p.log, e, t);
        if e.Sent? && NumberOn(e.frames, t).Some? {
          assert p.open == [] && e.frames == [Topic(topic), body] && t == topic;
        }
      }
    }
  }

  lemma PairAnnounced(p: Pub, topic: string, body: Frame, fates: Fates)
    requires AnnouncedOk(p)
    ensures AnnouncedOk(SendingPair(p, topic, body, fates).0)
    ensures var (r, fate) := SendingPair(p, topic, body, fates);
            fate == Accepted && topic == CONTROL_TOPIC && body.Hello? ==> HelloEndedSince(r.log, body.hello)
  {
    PairOutcome(p, topic, body, fates);
    var r := SendingPair(p, topic, body, fates).0;
    if r.log != p.log {
      forall id ensures HelloEndedSince(p.log, id) ==> HelloEndedSince(r.log, id) {
        HelloExtend(p.log, r.log[|p.log|], id);
      }
      if body.Hello? {
        HelloExtend(p.log, r.log[|p.log|], body.hello);
      }
    }
  }

  lemma PairSid(p: Pub, topic: string, body: Frame, fates: Fates)
    requires SidOk(p) && BodySid(body) == Some(p.sid)
    ensures SidOk(SendingPair(p, topic, body, fates).0)
  {
    PairOutcome(p, topic, body, fates);
    var r := SendingPair(p, topic, body, fates).0;
    if r.log != p.log {
      var e := r.log[|p.log|];
      assert forall x :: x in r.log <==> x in p.log || x == e;
      if e.Sent? && |e.frames| == 2 {
        assert e.frames[1] == body || e.frames[1] == Empty;
      }
    }
  }

  lemma PairInv(p: Pub, topic: string, body: Frame, fates: Fates)
    requires Inv(p) && Ready(p, topic, body)
    ensures Inv(SendingPair(p, topic, body, fates).0)
  {
    PairOutcome(p, topic, body, fates);
    PairFraming(p, topic, body, fates);
    PairNumbers(p, topic, body, fates);
    PairAnnounced(p, topic, body, fates);
    PairSid(p, topic, body, fates);
  }

  /** The registry as its members see it: everything but the announce flags. */
  ghost predicate SameMembers(p: Pub, q: Pub) {
    && |p.charts| == |q.charts|
    && p.useTick == q.useTick
    && (forall i :: 0 <= i < |p.charts| ==> q.charts[i] == p.charts[i].(announced := q.charts[i].announced))
  }

  /** A chart may be marked announced once its hello is the latest word on the wire. */
  lemma MarkInv(p: Pub, i: nat)
    requires Inv(p) && i < |p.charts|
    requires HelloEndedSince(p.log, p.charts[i].id)
    ensures Inv(p.(charts := p.charts[i := p.charts[i].(announced := true)]))
  {
  }

  lemma HelloInv(p: Pub, i: nat, fates: Fates)
    requires Inv(p) && i < |p.charts|
    ensures Inv(SendingHello(p, i, fates).0)
  {
    ReservedInv(p, CONTROL_TOPIC);
    var (p1, fits) := Formatting(Reserved(p, CONTROL_TOPIC), fates);
    assert Inv(p1);
    if fits {
      var body := HelloFrame(p1, i);
      PairInv(p1, CONTROL_TOPIC, body, fates);
      PairAnnounced(p1, CONTROL_TOPIC, body, fates);
      PairOutcome(p1, CONTROL_TOPIC, body, fates);
      var (p2, fate) := SendingPair(p1, CONTROL_TOPIC, body, fates);
      if fate == Accepted {
        MarkInv(p2, i);
      }
    }
  }

  lemma HelloMembers(p: Pub, i: nat, fates: Fates)
    requires i < |p.charts|
    ensures SameMembers(p, SendingHello(p, i, fates).0)
    ensures var (q, fate) := SendingHello(p, i, fates);
            q.charts == if fate == Accepted then p.charts[i := p.charts[i].(announced := true)] else p.charts
    ensures SendingHello(p, i, fates).0.subs == p.subs
  {
    var (p1, fits) := Formatting(Reserved(p, CONTROL_TOPIC), fates);
    PairOutcome(p1, CONTROL_TOPIC, HelloFrame(p1, i), fates);
  }

  /** An event that sends nothing adds nothing to the wire, and unsays a hello only if it
      is one that does. */
  lemma EventLogged(p: Pub, e: Event)
    requires NumbersOk(p) && SidOk(p) && FramingOk(p) && (e.Subscribed? || e.Unsubscribed? || e.HubLost?)
    ensures var q := p.(log := p.log + [e]); NumbersOk(q) && SidOk(q) && FramingOk(q)
    ensures forall id :: HelloEndedSince(p.log + [e], id) <==> HelloEndedSince(p.log, id) && !Unsays(e)
  {
    assert forall x :: x in p.log + [e] <==> x in p.log || x == e;
    FramingExtend(p.log, e);
    forall t ensures UpTo(WireNumbers(p.log + [e], t), NumberOf(p, t)) {
      LogExtend(p.log, e, t);
      assert UpTo(WireNumbers(p.log, t), NumberOf(p, t));
    }
    forall id ensures HelloEndedSince(p.log + [e], id) <==> HelloEndedSince(p.log, id) && !Unsays(e) {
      HelloExtend(p.log, e, id);
    }
  }

  lemma NotifiedInv(p: Pub, m: string)
    requires Inv(p)
    ensures Inv(Notified(p, m)) && SameMembers(p, Notified(p, m))
  {
    if m != "" && m[0] == UNSUB {
      EventLogged(p, Unsubscribed(m[1..]));
    } else if m != "" && m[0] == SUB {
      SubscribedInv(p, m[1..]);
    }
  }

  lemma SubscribedInv(p: Pub, topic: string)
    requires Inv(p)
    ensures Inv(p.(subs := p.subs + {topic}, log := p.log + [Subscribed(topic)],
                   charts := if Covers(topic, CONTROL_TOPIC) then Unannounced(p.charts) else p.charts))
  {
    EventLogged(p, Subscribed(topic));
  }

  lemma {:induction false} AllNotifiedInv(p: Pub, ms: seq<string>)
    requires Inv(p)
    ensures Inv(AllNotified(p, ms)) && SameMembers(p, AllNotified(p, ms))
  {
    if ms != [] {
      AllNotifiedInv(p, ms[..|ms| - 1]);
      NotifiedInv(AllNotified(p, ms[..|ms| - 1]), ms[|ms| - 1]);
    }
  }

  lemma HubLostInv(p: Pub)
    requires Inv(p)
    ensures Inv(p.(subs := {}, charts := Unannounced(p.charts), log := p.log + [HubLost]))
  {
    EventLogged(p, HubLost);
  }

  lemma {:induction false} MonitoredInv(p: Pub, events: seq<bool>)
    requires Inv(p)
    ensures Inv(Monitored(p, events)) && SameMembers(p, Monitored(p, events))
  {
    if events != [] {
      MonitoredInv(p, events[..|events| - 1]);
      if events[|events| - 1] {
        HubLostInv(Monitored(p, events[..|events| - 1]));
      }
    }
  }

  lemma {:induction false} SweptInv(p: Pub, n: nat, fates: Fates)
    requires Inv(p) && n <= |p.charts|
    ensures Inv(Swept(p, n, fates))
  {
    if n > 0 {
      var q := Swept(p, n - 1, fates);
      SweptInv(p, n - 1, fates);
      AnnouncingInv(q, n - 1, fates);
      assert Swept(p, n, fates) == Announcing(q, n - 1, fates);
    }
  }

  lemma AnnouncingInv(p: Pub, i: nat, fates: Fates)
    requires Inv(p) && i < |p.charts|
    ensures Inv(Announcing(p, i, fates))
  {
    HelloInv(p, i, fates);
  }

  lemma {:induction false} SweptMembers(p: Pub, n: nat, fates: Fates)
    requires n <= |p.charts|
    ensures SameMembers(p, Swept(p, n, fates))
  {
    if n > 0 {
      SweptMembers(p, n - 1, fates);
      AnnouncingMembers(Swept(p, n - 1, fates), n - 1, fates);
      SameMembersTwice(p, Swept(p, n - 1, fates), Swept(p, n, fates));
    }
  }

  lemma SameMembersTwice(p: Pub, q: Pub, r: Pub)
    requires SameMembers(p, q) && SameMembers(q, r)
    ensures SameMembers(p, r)
  {
  }

  lemma AnnouncingMembers(p: Pub, i: nat, fates: Fates)
    requires i < |p.charts|
    ensures SameMembers(p, Announcing(p, i, fates))
  {
    HelloMembers(p, i, fates);
  }

  lemma DrainedInv(p: Pub, inbox: Inbox, fates: Fates)
    requires Inv(p)
    ensures Inv(Drained(p, inbox, fates)) && SameMembers(p, Drained(p, inbox, fates))
  {
    if p.connected {
      AllNotifiedInv(p, inbox.messages);
      var a := AllNotified(p, inbox.messages);
      MonitoredInv(a, inbox.monitor);
      var q := Monitored(a, inbox.monitor);
      if Heard(q.subs, CONTROL_TOPIC) {
        SweptInv(q, |q.charts|, fates);
        SweptMembers(q, |q.charts|, fates);
      }
    }
  }

  lemma RegistryGrows(charts: seq<Chart>, useTick: nat, c: Chart)
    requires RegistryOk(charts, useTick) && |charts| < MAX_CHARTS
    requires FindChart(charts, c.id) == |charts| && c.lastUsed == useTick + 1
    ensures RegistryOk(charts + [c], useTick + 1)
  {
  }

  lemma RegistryShrinks(charts: seq<Chart>, useTick: nat, v: nat)
    requires RegistryOk(charts, useTick) && v < |charts|
    ensures RegistryOk(Without(charts, v), useTick)
    ensures forall c :: c in Without(charts, v) <==> c in charts && c != charts[v]
  {
    var w := Without(charts, v);
    assert forall i :: 0 <= i < |w| ==> w[i] == charts[if i < v then i else i + 1];
    forall c | c in charts && c != charts[v] ensures c in w {
      var i :| 0 <= i < |charts| && charts[i] == c;
      assert w[if i < v then i else i - 1] == c;
    }
  }

  lemma RegisteredRegistry(p: Pub, id: Ident)
    requires RegistryOk(p.charts, p.useTick) && FindChart(p.charts, id) == |p.charts|
    ensures RegistryOk(Registered(p, id).charts, p.useTick + 1)
    ensures forall c :: c in Registered(p, id).charts && c.announced ==> c in p.charts
  {
    var kept := p.charts;
    if |p.charts| >= MAX_CHARTS {
      var v := Victim(p.charts, |p.charts|);
      kept := Without(p.charts, v);
      RegistryShrinks(p.charts, p.useTick, v);
      var i := FindChart(kept, id);
      assert i < |kept| ==> kept[i] in p.charts;
    }
    RegistryGrows(kept, p.useTick, Chart(id, false, false, p.useTick + 1));
  }

  lemma RegisteredInv(p: Pub, id: Ident)
    requires Inv(p) && FindChart(p.charts, id) == |p.charts|
    ensures Inv(Registered(p, id))
  {
    RegisteredRegistry(p, id);
    var q := Registered(p, id);
    forall i | 0 <= i < |q.charts| && q.charts[i].announced
      ensures HelloEndedSince(q.log, q.charts[i].id)
    {
      var j :| 0 <= j < |p.charts| && p.charts[j] == q.charts[i];
    }
  }

  lemma PlacedInv(p: Pub, id: Ident)
    requires Inv(p)
    ensures Inv(Placed(p, id).0)
  {
    if FindChart(p.charts, id) == |p.charts| {
      RegisteredInv(p, id);
    }
  }

  lemma InitialisedInv(p: Pub, id: Ident, fates: Fates)
    requires Inv(p)
    ensures Inv(Initialised(p, id, fates).0)
  {
    PlacedInv(p, id);
    var (q, i) := Placed(p, id);
    HelloInv(q, i, fates);
  }

  lemma FreshSocketInv(p: Pub, endpoint: string, sid: int)
    ensures Inv(Connected(p, endpoint, sid))
    ensures Inv(Shutdown(p))
  {
  }

  lemma BumpedInv(p: Pub, i: nat)
    requires Inv(p) && i < |p.charts|
    ensures Inv(Bumped(p, i))
  {
  }

  lemma VoidedInv(p: Pub, i: nat, v: bool)
    requires Inv(p) && i < |p.charts|
    ensures Inv(p.(charts := p.charts[i := p.charts[i].(voidReported := v)]))
  {
  }

  /** The state in which EL_Publish hands its two frames to the socket. */
  function Prepared(p: Pub, id: Ident): (r: Pub)
    ensures |r.charts| == |p.charts|
  {
    var i := FindChart(p.charts, id);
    var q := Reserved(if i < |p.charts| then Bumped(p, i) else p, id.symbol);
    q.(tick := q.tick + 1)
  }

  function PointFrame(p: Pub, id: Ident): Frame {
    Point(id, NumberOf(p, id.symbol), p.sid)
  }

  lemma TickedInv(p: Pub)
    requires Inv(p)
    ensures Inv(p.(tick := p.tick + 1))
  {
    var q := p.(tick := p.tick + 1);
    assert forall t :: NumberOf(q, t) == NumberOf(p, t);
  }

  lemma ReservedReady(p: Pub, id: Ident)
    requires Inv(p)
    ensures var q := Reserved(p, id.symbol).(tick := p.tick + 1);
            Ready(q, id.symbol, PointFrame(q, id))
  {
    ReservedInv(p, id.symbol);
    var q := Reserved(p, id.symbol).(tick := p.tick + 1);
    assert NumberOf(q, id.symbol) == NumberOf(Reserved(p, id.symbol), id.symbol);
  }

  lemma PreparedInv(p: Pub, id: Ident)
    requires Inv(p)
    ensures Inv(Prepared(p, id))
    ensures Ready(Prepared(p, id), id.symbol, PointFrame(Prepared(p, id), id))
  {
    var i := FindChart(p.charts, id);
    var b := if i < |p.charts| then Bumped(p, i) else p;
    if i < |p.charts| {
      BumpedInv(p, i);
    }
    ReservedInv(b, id.symbol);
    ReservedReady(b, id);
    TickedInv(Reserved(b, id.symbol));
  }

  lemma PublishedInv(p: Pub, id: Ident, fates: Fates)
    requires Inv(p)
    ensures Inv(Published(p, id, fates).0)
  {
    var i := FindChart(p.charts, id);
    var q := Prepared(p, id);
    PreparedInv(p, id);
    PairInv(q, id.symbol, PointFrame(q, id), fates);
    PairOutcome(q, id.symbol, PointFrame(q, id), fates);
    var r := SendingPair(q, id.symbol, PointFrame(q, id), fates).0;
    if i < |p.charts| {
      VoidedInv(r, i, !Heard(p.subs, id.symbol));
    }
  }

  lemma ExecInv(p: Pub, c: Call, fates: Fates)
    requires Inv(p)
    ensures Inv(Exec(p, c, fates).0)
  {
    match c
    case InitCall(endpoint, id, connectable, sid, inbox) =>
      if endpoint.Some? && id.Some? {
        var q := if p.connected then p else Connected(p, endpoint.value, sid);
        FreshSocketInv(p, endpoint.value, sid);
        DrainedInv(q, inbox, fates);
        InitialisedInv(Drained(q, inbox, fates), id.value, fates);
      }
    case PublishCall(id, narrow, inbox) =>
      if id.Some? {
        DrainedInv(p, inbox, fates);
        PublishedInv(Drained(p, inbox, fates), id.value, fates);
      }
    case ShutdownCall => FreshSocketInv(p, "", 0);
  }

  /** In every reachable state the invariant holds. */
  lemma {:induction false} RunInv(p: Pub, calls: seq<Call>, fates: Fates)
    requires Inv(p)
    ensures Inv(Run(p, calls, fates))
  {
    if calls != [] {
      RunInv(p, calls[..|calls| - 1], fates);
      ExecInv(Run(p, calls[..|calls| - 1], fates), calls[|calls| - 1], fates);
    }
  }
}
