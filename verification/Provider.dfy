/** The subscriber's receive path: which frames reach the sequence tracker, which are
    refused, and in which order the two happen. */
module Provider {
  import opened Prelude
  import opened Bars
  import SequenceTracking

  const PROTO_VERSION := 2

  datatype ChartKey = ChartKey(symbol: string, barType: int, barInterval: int)

  /** The `seq` key of a payload: missing, JSON null, or a number. */
  datatype Number = Absent | Null | Seq(n: int)

  /** A payload as far as it can be decoded. `Unreadable` is malformed JSON, or a
      sequence field that cannot be read as an integer; `body` is None when a
      required field of a point or of a hello is missing or cannot be read. */
  datatype Payload =
    | Unreadable
    | Decoded(number: Number, sid: int, proto: Option<int>, body: Option<Body>)
  datatype Body = Point(bar: Bar) | Hello(chart: ChartKey, category: int)
  datatype Frame = Frame(topic: string, payload: Payload)

  /** One frame of a received message, as far as it can be read as a topic and as a
      payload. A message has as many frames as were sent, not always two. */
  datatype Part = Part(text: string, payload: Payload)
  type Message = seq<Part>

  /** Every message unpacks into a topic and a payload. */
  predicate Unpackable(ms: seq<Message>) {
    forall i :: 0 <= i < |ms| ==> |ms[i]| == 2
  }

  /** How many messages there are before the first that does not. */
  function Leading(ms: seq<Message>): (n: nat)
    ensures n <= |ms| && Unpackable(ms[..n])
    ensures n < |ms| ==> |ms[n]| != 2
  {
    if ms == [] || |ms[0]| != 2 then 0 else 1 + Leading(ms[1..])
  }

  function FramesOf(ms: seq<Message>): (fs: seq<Frame>)
    requires Unpackable(ms)
    ensures |fs| == |ms| && forall i :: 0 <= i < |fs| ==> fs[i] == Frame(ms[i][0].text, ms[i][1].payload)
  {
    seq(|ms|, i requires 0 <= i < |ms| => Frame(ms[i][0].text, ms[i][1].payload))
  }

  datatype Link = Link(
    tracker: SequenceTracking.Tracker,
    received: nat,
    refused: nat,
    announced: map<ChartKey, int>,
    chartSids: map<ChartKey, set<int>>)

  const IDLE := Link(SequenceTracking.FRESH, 0, 0, map[], map[])

  predicate Accepted(p: Payload) {
    p.Decoded? && p.proto == Some(PROTO_VERSION)
  }

  function Tracked(l: Link, topic: string, p: Payload): Link {
    if p.Decoded? && p.number.Seq? then
      l.(tracker := SequenceTracking.Observed(
           l.tracker, SequenceTracking.Obs(SequenceTracking.Stream(p.sid, topic), p.number.n)))
    else l
  }

  function Announced(l: Link, key: ChartKey, category: int, sid: int): Link {
    l.(announced := l.announced[key := category],
       chartSids := l.chartSids[key := (if key in l.chartSids then l.chartSids[key] else {}) + {sid}])
  }

  /** A chart announcing itself: never an event, refused only if it cannot be read. */
  function HelloHandled(l: Link, p: Payload): Link {
    var t := Tracked(l, CONTROL_TOPIC, p);
    if p.Unreadable? then t.(refused := t.refused + 1)
    else if !Accepted(p) then t
    else if !WellFormedHello(p) then t.(refused := t.refused + 1)
    else Announced(t, p.body.value.chart, p.body.value.category, p.sid)
  }

  predicate WellFormedHello(p: Payload) {
    p.Decoded? && p.body.Some? && p.body.value.Hello? && p.body.value.chart.symbol != ""
  }

  predicate WellFormedPoint(p: Payload) {
    Accepted(p) && !p.number.Absent? && p.body.Some? && p.body.value.Point?
  }

  /** One frame taken off the socket: the new state, and the point it yields, if any. */
  function Handled(subscribed: set<string>, before: Link, f: Frame): (Link, Option<Bar>) {
    var l := before.(received := before.received + 1);
    var p := f.payload;
    if f.topic == CONTROL_TOPIC then (HelloHandled(l, p), None)
    else if f.topic !in subscribed then (l, None)
    else
      var t := Tracked(l, f.topic, p);
      if WellFormedPoint(p) then (t, Some(p.body.value.bar.(symbol := f.topic)))
      else (t.(refused := t.refused + 1), None)
  }

  function RunFrom(subscribed: set<string>, l: Link, fs: seq<Frame>): Link {
    if fs == [] then l
    else Handled(subscribed, RunFrom(subscribed, l, fs[..|fs| - 1]), fs[|fs| - 1]).0
  }

  function RunLink(subscribed: set<string>, fs: seq<Frame>): Link {
    RunFrom(subscribed, IDLE, fs)
  }

  function Yielded(subscribed: set<string>, fs: seq<Frame>): seq<Bar> {
    if fs == [] then []
    else
      var y := Yielded(subscribed, fs[..|fs| - 1]);
      var e := Handled(subscribed, RunLink(subscribed, fs[..|fs| - 1]), fs[|fs| - 1]).1;
      if e.Some? then y + [e.value] else y
  }

  class TradeStationProvider {
    const tracker: SequenceTracking.SequenceTracker
    const subscribed: set<string>
    var framesReceived: nat
    var framesRefused: nat
    var announcedCharts: map<ChartKey, int>
    var chartSids: map<ChartKey, set<int>>

    ghost function State(): Link
      reads this, tracker
    {
      Link(tracker.State(), framesReceived, framesRefused, announcedCharts, chartSids)
    }

    constructor (symbols: set<string>)
      ensures State() == IDLE && subscribed == symbols
      ensures fresh(tracker)
    {
      tracker := new SequenceTracking.SequenceTracker();
      subscribed := symbols;
      framesReceived, framesRefused := 0, 0;
      announcedCharts, chartSids := map[], map[];
    }

    /** None means that loss cannot be detected yet, which is not the answer 0. */
    function MessagesLost(): (r: Option<int>)
      reads this, tracker
      ensures r.None? <==> State().tracker.sids == map[]
      ensures r.Some? ==> r.value == State().tracker.lost
    {
      if tracker.GapDetectionAvailable() then Some(tracker.messagesLost) else None
    }

    method OnFrame(f: Frame) returns (event: Option<Bar>)
      modifies this, tracker
      ensures (State(), event) == Handled(subscribed, old(State()), f)
    {
      event := None;
      framesReceived := framesReceived + 1;
      if f.topic == CONTROL_TOPIC {
        HandleHello(f.payload);
        return;
      }
      if f.topic !in subscribed {
        return;
      }
      event := ParsePayload(f.topic, f.payload);
      if event.None? {
        framesRefused := framesRefused + 1;
      }
    }

    method HandleHello(p: Payload)
      modifies this, tracker
      ensures State() == HelloHandled(old(State()), p)
    {
      if p.Unreadable? {
        framesRefused := framesRefused + 1;
        return;
      }
      if p.number.Seq? {
        tracker.Observe(CONTROL_TOPIC, p.number.n, p.sid);
      }
      if p.proto != Some(PROTO_VERSION) {
        return;
      }
      if !WellFormedHello(p) {
        framesRefused := framesRefused + 1;
        return;
      }
      var key := p.body.value.chart;
      announcedCharts := announcedCharts[key := p.body.value.category];
      if key !in chartSids {
        chartSids := chartSids[key := {}];
      }
      chartSids := chartSids[key := chartSids[key] + {p.sid}];
    }

    /** None is the parser raising: the caller counts the frame as refused. The number
        is accounted before the protocol version is looked at. */
    method ParsePayload(topic: string, p: Payload) returns (event: Option<Bar>)
      modifies tracker
      ensures State() == Tracked(old(State()), topic, p)
      ensures event == if WellFormedPoint(p) then Some(p.body.value.bar.(symbol := topic)) else None
    {
      if p.Unreadable? {
        return None;
      }
      if p.number.Seq? {
        tracker.Observe(topic, p.number.n, p.sid);
      }
      if p.proto != Some(PROTO_VERSION) || p.number.Absent? || p.body.None? || !p.body.value.Point? {
        return None;
      }
      return Some(p.body.value.bar.(symbol := topic));
    }

    /** The receive loop, over the messages that arrive before close(). One that does not
        unpack into two frames raises out of the loop, and nothing after it is received. */
    method Events(messages: seq<Message>) returns (out: seq<Bar>, raised: bool)
      modifies this, tracker
      ensures raised == !Unpackable(messages)
      ensures var frames := FramesOf(messages[..Leading(messages)]);
              State() == RunFrom(subscribed, old(State()), frames) && out == Yielded(subscribed, frames)
    {
      out, raised := [], false;
      for i := 0 to |messages|
        invariant Unpackable(messages[..i])
        invariant State() == RunFrom(subscribed, old(State()), FramesOf(messages[..i]))
        invariant out == Yielded(subscribed, FramesOf(messages[..i]))
      {
        LeadingIs(messages, i);
        if |messages[i]| != 2 {
          return out, true;
        }
        OneMoreFrame(messages, i);
        var event := OnFrame(Frame(messages[i][0].text, messages[i][1].payload));
        if event.Some? {
          out := out + [event.value];
        }
      }
      LeadingIs(messages, |messages|);
    }
  }

  lemma LeadingIs(ms: seq<Message>, i: nat)
    requires i <= |ms| && Unpackable(ms[..i])
    ensures i == |ms| ==> Unpackable(ms)
    ensures i == |ms| || |ms[i]| != 2 ==> Leading(ms) == i
  {
    var n := Leading(ms);
    assert forall j :: 0 <= j < i ==> ms[..i][j] == ms[j];
    assert forall j :: 0 <= j < n ==> ms[..n][j] == ms[j];
  }

  lemma OneMoreFrame(ms: seq<Message>, i: nat)
    requires i < |ms| && Unpackable(ms[..i]) && |ms[i]| == 2
    ensures Unpackable(ms[..i + 1])
    ensures var fs := FramesOf(ms[..i + 1]);
            fs[..i] == FramesOf(ms[..i]) && fs[i] == Frame(ms[i][0].text, ms[i][1].payload)
  {
    assert ms[..i + 1][..i] == ms[..i];
    assert forall j :: 0 <= j < i + 1 ==> ms[..i + 1][j] == ms[j];
    assert forall j :: 0 <= j < i ==> ms[..i][j] == ms[j];
  }

  // ----- What the receive path promises -------------------------------------

  /** The numbers that came off the socket on the topics this consumer listens to. */
  function Numbers(subscribed: set<string>, fs: seq<Frame>): seq<SequenceTracking.Obs> {
    if fs == [] then []
    else
      var r, f := Numbers(subscribed, fs[..|fs| - 1]), fs[|fs| - 1];
      if (f.topic == "__ts2py__" || f.topic in subscribed) && f.payload.Decoded? && f.payload.number.Seq?
      then r + [SequenceTracking.Obs(SequenceTracking.Stream(f.payload.sid, f.topic), f.payload.number.n)]
      else r
  }

  /** Loss accounting sees every readable number, accepted or refused: neither the
      protocol version nor the content of a frame can create or hide a gap. */
  lemma {:induction false} RefusalNeverAffectsLoss(subscribed: set<string>, fs: seq<Frame>)
    ensures RunLink(subscribed, fs).tracker == SequenceTracking.Run(Numbers(subscribed, fs))
  {
    if fs != [] {
      RefusalNeverAffectsLoss(subscribed, fs[..|fs| - 1]);
      var r, n := Numbers(subscribed, fs[..|fs| - 1]), Numbers(subscribed, fs);
      assert n != r ==> n[..|n| - 1] == r;
    }
  }

  predicate Foreign(subscribed: set<string>, f: Frame) {
    f.topic != CONTROL_TOPIC && f.topic !in subscribed
  }

  /** A hello frame that is not counted as refused: recorded, or silently skipped for
      declaring another protocol version. */
  predicate QuietHello(f: Frame) {
    f.topic == CONTROL_TOPIC && f.payload.Decoded? && (Accepted(f.payload) ==> WellFormedHello(f.payload))
  }

  function Count(fs: seq<Frame>, p: Frame -> bool): nat {
    if fs == [] then 0 else Count(fs[..|fs| - 1], p) + if p(fs[|fs| - 1]) then 1 else 0
  }

  /** Every frame off the socket is accounted for exactly once. */
  lemma {:induction false} FramesConserved(subscribed: set<string>, fs: seq<Frame>)
    ensures RunLink(subscribed, fs).received == |fs|
    ensures |fs| == |Yielded(subscribed, fs)| + RunLink(subscribed, fs).refused
                    + Count(fs, f => Foreign(subscribed, f)) + Count(fs, QuietHello)
  {
    if fs != [] {
      FramesConserved(subscribed, fs[..|fs| - 1]);
    }
  }

  /** A hello that this consumer takes as an announcement of `key`. */
  predicate Announces(f: Frame, key: ChartKey) {
    && f.topic == "__ts2py__"
    && f.payload.Decoded? && f.payload.proto == Some(2) && f.payload.body.Some? && f.payload.body.value.Hello?
    && f.payload.body.value.chart == key && key.symbol != ""
  }

  ghost predicate EverAnnounced(fs: seq<Frame>, key: ChartKey) {
    exists f :: f in fs && Announces(f, key)
  }

  ghost predicate EverAnnouncedBy(fs: seq<Frame>, key: ChartKey, sid: int) {
    exists f :: f in fs && Announces(f, key) && f.payload.sid == sid
  }

  lemma EverExtend(gs: seq<Frame>, f: Frame, key: ChartKey, sid: int)
    ensures EverAnnounced(gs + [f], key) <==> EverAnnounced(gs, key) || Announces(f, key)
    ensures EverAnnouncedBy(gs + [f], key, sid) <==>
            EverAnnouncedBy(gs, key, sid) || (Announces(f, key) && f.payload.sid == sid)
  {
    assert forall g :: g in gs + [f] <==> g in gs || g == f;
  }

  /** The category the latest announcement of this chart gave it. */
  function LastCategory(fs: seq<Frame>, key: ChartKey): Option<int> {
    if fs == [] then None
    else if Announces(fs[|fs| - 1], key) then Some(fs[|fs| - 1].payload.body.value.category)
    else LastCategory(fs[..|fs| - 1], key)
  }

  lemma AnnouncementsStep(subscribed: set<string>, l: Link, f: Frame, key: ChartKey, sid: int)
    ensures var r := Handled(subscribed, l, f).0;
            && (key in r.announced <==> key in l.announced || Announces(f, key))
            && (key in r.chartSids <==> key in l.chartSids || Announces(f, key))
            && ((key in r.chartSids && sid in r.chartSids[key]) <==>
                (key in l.chartSids && sid in l.chartSids[key]) || (Announces(f, key) && f.payload.sid == sid))
            && (key in r.announced ==>
                  r.announced[key] == if Announces(f, key) then f.payload.body.value.category
                                      else if key in l.announced then l.announced[key] else 0)
  {
  }

  /** The charts on record are exactly those announced, each under exactly the
      sessions that announced it and the category it was last given, and nothing but a
      hello changes them. */
  lemma {:induction false} AnnouncementsExact(subscribed: set<string>, fs: seq<Frame>, key: ChartKey, sid: int)
    ensures var l := RunLink(subscribed, fs);
            && (key in l.announced <==> EverAnnounced(fs, key))
            && (key in l.announced <==> key in l.chartSids)
            && ((key in l.chartSids && sid in l.chartSids[key]) <==> EverAnnouncedBy(fs, key, sid))
            && (if key in l.announced then Some(l.announced[key]) else None) == LastCategory(fs, key)
  {
    if fs != [] {
      var gs, f := fs[..|fs| - 1], fs[|fs| - 1];
      assert fs == gs + [f];
      AnnouncementsExact(subscribed, gs, key, sid);
      EverExtend(gs, f, key, sid);
      AnnouncementsStep(subscribed, RunLink(subscribed, gs), f, key, sid);
    }
  }

  /** A point that is yielded escapes loss accounting exactly if its `seq` is null. */
  lemma YieldedUntracked(subscribed: set<string>, fs: seq<Frame>, f: Frame)
    requires Handled(subscribed, RunLink(subscribed, fs), f).1.Some?
    ensures Numbers(subscribed, fs + [f]) == Numbers(subscribed, fs) <==> f.payload.number.Null?
    ensures f.payload.number.Null? ==>
              RunLink(subscribed, fs + [f]).tracker == RunLink(subscribed, fs).tracker
  {
    assert (fs + [f])[..|fs|] == fs;
    if !f.payload.number.Null? {
      assert |Numbers(subscribed, fs + [f])| == |Numbers(subscribed, fs)| + 1;
    }
  }

  /** Such a point, yielded while loss still cannot be detected at all. */
  lemma NullPointYielded(bar: Bar)
    ensures var f := Frame("S", Decoded(Null, 1, Some(PROTO_VERSION), Some(Point(bar))));
            && Yielded({"S"}, [f]) == [bar.(symbol := "S")]
            && RunLink({"S"}, [f]).tracker == SequenceTracking.FRESH
  {
    var f := Frame("S", Decoded(Null, 1, Some(PROTO_VERSION), Some(Point(bar))));
    assert [f][..0] == [];
    assert "S"[0] != CONTROL_TOPIC[0];
  }

  /** Exactly which frames count as refused: a point unless it is well formed; a hello only
      if it cannot be read, or is of this version and malformed. One of another version is
      thrown away uncounted. */
  lemma RefusedExactly(subscribed: set<string>, l: Link, f: Frame)
    ensures var p := f.payload;
            var current := p.Decoded? && p.proto == Some(2) && p.body.Some?;
            var refused :=
              if f.topic == "__ts2py__"
              then p.Unreadable? || (p.proto == Some(2) &&
                                     !(current && p.body.value.Hello? && p.body.value.chart.symbol != ""))
              else f.topic in subscribed && !(current && !p.number.Absent? && p.body.value.Point?);
            Handled(subscribed, l, f).0.refused == l.refused + if refused then 1 else 0
  {
  }

  /** Exactly what is yielded: a point of this version on a topic asked for, with a `seq`
      key, under the symbol it was published on. */
  lemma YieldedExactly(subscribed: set<string>, l: Link, f: Frame)
    ensures var p, event := f.payload, Handled(subscribed, l, f).1;
            && (event.Some? <==>
                  && f.topic != "__ts2py__" && f.topic in subscribed
                  && p.Decoded? && p.proto == Some(2) && !p.number.Absent? && p.body.Some? && p.body.value.Point?)
            && (event.Some? ==> event.value == p.body.value.bar.(symbol := f.topic))
  {
  }

  /** One payload of version 1: refused as a point, not as a hello. */
  lemma OldVersionCountsOnce(l: Link)
    ensures var old1 := Decoded(Seq(1), 1, Some(1), None);
            && Handled({"S"}, l, Frame("S", old1)).0.refused == l.refused + 1
            && Handled({"S"}, l, Frame(CONTROL_TOPIC, old1)).0.refused == l.refused
  {
    assert "S"[0] != CONTROL_TOPIC[0];
    RefusedExactly({"S"}, l, Frame("S", Decoded(Seq(1), 1, Some(1), None)));
  }
}
