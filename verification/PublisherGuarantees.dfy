/** What the publisher guarantees its charts and its subscribers. */
module PublisherGuarantees {
  import opened Prelude
  import opened Publisher
  import opened PublisherRuns

  /** Everything the run invariant says of any process, after any calls, whatever the
      socket has done to it. */
  lemma Reachable(calls: seq<Call>, fates: Fates)
    ensures var p := Run(COLD, calls, fates);
            && RegistryOk(p.charts, p.useTick) && |p.charts| <= 24
            && |p.open| == Stuck(p.log) && FramedExactly(p.log)
            && (forall c :: c in p.charts && c.announced ==> HelloEndedSince(p.log, c.id))
            && (forall topic :: UpTo(WireNumbers(p.log, topic), NumberOf(p, topic)))
            && SidOk(p)
  {
    assert Inv(COLD);
    RunInv(COLD, calls, fates);
  }

  // ----- Subscriptions ------------------------------------------------------

  /** The effect of raw subscription messages on a set of topics. */
  function Applied(subs: set<string>, ms: seq<string>): set<string> {
    if ms == [] then subs
    else
      var s, m := Applied(subs, ms[..|ms| - 1]), ms[|ms| - 1];
      if m == "" then s
      else if m[0] == UNSUB then s - {m[1..]}
      else if m[0] == SUB then s + {m[1..]}
      else s
  }

  lemma {:induction false} NotifiedSubs(p: Pub, ms: seq<string>)
    ensures AllNotified(p, ms).subs == Applied(p.subs, ms)
  {
    if ms != [] {
      NotifiedSubs(p, ms[..|ms| - 1]);
    }
  }

  lemma {:induction false} MonitoredSubs(p: Pub, events: seq<bool>)
    ensures Monitored(p, events).subs == if true in events then {} else p.subs
    ensures true !in events ==> Monitored(p, events) == p
  {
    if events != [] {
      MonitoredSubs(p, events[..|events| - 1]);
      assert events == events[..|events| - 1] + [events[|events| - 1]];
    }
  }

  lemma {:induction false} SweptSubs(p: Pub, n: nat, fates: Fates)
    requires n <= |p.charts|
    ensures Swept(p, n, fates).subs == p.subs
  {
    if n > 0 {
      SweptSubs(p, n - 1, fates);
      HelloMembers(Swept(p, n - 1, fates), n - 1, fates);
    }
  }

  /** A drain reads the subscriptions first and the monitor second: one that sees the
      hub go ends with no subscription at all, even one received in the same drain. */
  lemma DrainedSubs(p: Pub, inbox: Inbox, fates: Fates)
    requires p.connected
    ensures Drained(p, inbox, fates).subs ==
            if true in inbox.monitor then {} else Applied(p.subs, inbox.messages)
  {
    NotifiedSubs(p, inbox.messages);
    var a := AllNotified(p, inbox.messages);
    MonitoredSubs(a, inbox.monitor);
    var q := Monitored(a, inbox.monitor);
    SweptSubs(q, |q.charts|, fates);
  }

  // ----- Announcements ------------------------------------------------------

  /** One more chart swept: it ends announced exactly when it already was or its own
      hello went out, and no other chart is touched. */
  lemma SweptStep(p: Pub, n: nat, fates: Fates)
    requires n < |p.charts|
    ensures var q := Swept(p, n, fates);
            && Swept(p, n + 1, fates).charts ==
               q.charts[n := q.charts[n].(announced := q.charts[n].announced || SendingHello(q, n, fates).1 == Accepted)]
            && Swept(p, n + 1, fates).tick >= q.tick
  {
    HelloMembers(Swept(p, n, fates), n, fates);
  }

  /** One chart's failed hello does not stop the sweep: each chart ends announced
      exactly when it already was or its own hello went out. */
  lemma SweepIsPerChart(p: Pub, n: nat, i: nat, fates: Fates)
    requires i < n <= |p.charts|
    ensures Swept(p, n, fates).charts[i].announced <==>
            p.charts[i].announced || SendingHello(Swept(p, i, fates), i, fates).1 == Accepted
  {
    SweptSettled(p, n, i, fates);
    SweptItself(p, i, fates);
  }

  lemma {:induction false} SweptSettled(p: Pub, n: nat, i: nat, fates: Fates)
    requires i < n <= |p.charts|
    ensures Swept(p, n, fates).charts[i] == Swept(p, i + 1, fates).charts[i]
  {
    if i < n - 1 {
      SweptSettled(p, n - 1, i, fates);
      SweptOther(p, n - 1, i, fates);
    }
  }

  lemma SweptOther(p: Pub, n: nat, i: nat, fates: Fates)
    requires i < n < |p.charts|
    ensures Swept(p, n + 1, fates).charts[i] == Swept(p, n, fates).charts[i]
  {
    SweptStep(p, n, fates);
  }

  lemma SweptItself(p: Pub, i: nat, fates: Fates)
    requires i < |p.charts|
    ensures Swept(p, i + 1, fates).charts[i].announced <==>
            p.charts[i].announced || SendingHello(Swept(p, i, fates), i, fates).1 == Accepted
  {
    SweptStep(p, i, fates);
    SweptUntouched(p, i, fates);
  }

  lemma {:induction false} SweptUntouched(p: Pub, n: nat, fates: Fates)
    requires n <= |p.charts|
    ensures forall j :: n <= j < |p.charts| ==> Swept(p, n, fates).charts[j] == p.charts[j]
  {
    if n > 0 {
      SweptUntouched(p, n - 1, fates);
      SweptStep(p, n - 1, fates);
    }
  }

  /** Every attempt in this stretch succeeds. */
  ghost predicate FaultFree(fates: Fates, from: nat, to: nat) {
    forall t: nat :: from <= t < to ==> fates(t) == Accepted
  }

  lemma HelloTicks(p: Pub, i: nat, fates: Fates)
    requires i < |p.charts|
    ensures p.tick < SendingHello(p, i, fates).0.tick
    ensures FaultFree(fates, p.tick, SendingHello(p, i, fates).0.tick) ==> SendingHello(p, i, fates).1 == Accepted
  {
  }

  lemma SweepTicks(p: Pub, n: nat, fates: Fates)
    requires n < |p.charts|
    ensures Swept(p, n, fates).tick <= Swept(p, n + 1, fates).tick
  {
    HelloTicks(Swept(p, n, fates), n, fates);
  }

  lemma {:induction false} TicksGrow(p: Pub, m: nat, n: nat, fates: Fates)
    requires m <= n <= |p.charts|
    ensures Swept(p, m, fates).tick <= Swept(p, n, fates).tick
    decreases n
  {
    if m < n {
      TicksGrow(p, m, n - 1, fates);
      SweepTicks(p, n - 1, fates);
    }
  }

  lemma FaultFreeHello(p: Pub, i: nat, fates: Fates, from: nat, to: nat)
    requires i < |p.charts| && FaultFree(fates, from, to)
    requires from <= p.tick && SendingHello(p, i, fates).0.tick <= to
    ensures SendingHello(p, i, fates).1 == Accepted
  {
    HelloTicks(p, i, fates);
  }

  lemma FaultFreeTurn(p: Pub, i: nat, fates: Fates, from: nat, to: nat)
    requires i < |p.charts| && FaultFree(fates, from, to)
    requires from <= Swept(p, i, fates).tick && Swept(p, i + 1, fates).tick <= to
    ensures Swept(p, i + 1, fates).charts[i].announced
  {
    var q := Swept(p, i, fates);
    if !q.charts[i].announced {
      FaultFreeHello(q, i, fates, from, to);
    }
    SweptStep(p, i, fates);
  }

  lemma {:induction false} FaultFreeSweep(p: Pub, n: nat, fates: Fates, from: nat, to: nat)
    requires n <= |p.charts| && FaultFree(fates, from, to)
    requires from <= p.tick && Swept(p, n, fates).tick <= to
    ensures forall i :: 0 <= i < n ==> Swept(p, n, fates).charts[i].announced
  {
    if n > 0 {
      SweepTicks(p, n - 1, fates);
      FaultFreeSweep(p, n - 1, fates, from, to);
      TicksGrow(p, 0, n - 1, fates);
      AnnouncedSoFar(p, n - 1, fates, from, to);
    }
  }

  lemma AnnouncedSoFar(p: Pub, n: nat, fates: Fates, from: nat, to: nat)
    requires n < |p.charts| && FaultFree(fates, from, to)
    requires from <= Swept(p, n, fates).tick && Swept(p, n + 1, fates).tick <= to
    requires forall i :: 0 <= i < n ==> Swept(p, n, fates).charts[i].announced
    ensures var r := Swept(p, n + 1, fates); forall i :: 0 <= i < n + 1 ==> r.charts[i].announced
  {
    FaultFreeTurn(p, n, fates, from, to);
    SweptEarlier(p, n, fates);
  }

  /** A turn of the sweep leaves the charts before it as they were. */
  lemma SweptEarlier(p: Pub, n: nat, fates: Fates)
    requires n < |p.charts|
    ensures forall i :: 0 <= i < n ==> Swept(p, n + 1, fates).charts[i] == Swept(p, n, fates).charts[i]
  {
    SweptStep(p, n, fates);
  }

  /** A drain that meets no fault and ends with the control topic covered leaves every
      registered chart announced, whatever failed before it or fails after it. */
  lemma FaultFreeDrainAnnouncesAll(p: Pub, inbox: Inbox, fates: Fates)
    requires p.connected && FaultFree(fates, p.tick, Drained(p, inbox, fates).tick)
    requires Heard(Drained(p, inbox, fates).subs, CONTROL_TOPIC)
    ensures forall c :: c in Drained(p, inbox, fates).charts ==> c.announced
  {
    var q := Monitored(AllNotified(p, inbox.messages), inbox.monitor);
    QuietTicks(p, inbox.messages);
    QuietMonitorTicks(AllNotified(p, inbox.messages), inbox.monitor);
    DrainedSubs(p, inbox, fates);
    NotifiedSubs(p, inbox.messages);
    MonitoredSubs(AllNotified(p, inbox.messages), inbox.monitor);
    var r := Swept(q, |q.charts|, fates);
    FaultFreeSweep(q, |q.charts|, fates, p.tick, Drained(p, inbox, fates).tick);
  }

  lemma {:induction false} QuietTicks(p: Pub, ms: seq<string>)
    ensures AllNotified(p, ms).tick == p.tick
  {
    if ms != [] {
      QuietTicks(p, ms[..|ms| - 1]);
    }
  }

  lemma {:induction false} QuietMonitorTicks(p: Pub, events: seq<bool>)
    ensures Monitored(p, events).tick == p.tick
  {
    if events != [] {
      QuietMonitorTicks(p, events[..|events| - 1]);
    }
  }

  /** A non-negative answer from EL_InitChart: the chart is registered and announced,
      and someone is attached who receives announcements. */
  lemma InitSucceeds(p: Pub, endpoint: string, id: Ident, connectable: bool, sid: int, inbox: Inbox, fates: Fates)
    ensures var (r, rc) := InitChart(p, Some(endpoint), Some(id), connectable, sid, inbox, fates);
            rc >= 0 ==>
              && r.connected && r.endpoint == endpoint
              && Heard(r.subs, CONTROL_TOPIC)
              && exists c :: c in r.charts && c.id == id && c.announced
  {
    var (r, rc) := InitChart(p, Some(endpoint), Some(id), connectable, sid, inbox, fates);
    if rc >= 0 {
      var q := if p.connected then p else Connected(p, endpoint, sid);
      var d := Drained(q, inbox, fates);
      DrainedEndpoint(q, inbox, fates);
      var (s, i) := Placed(d, id);
      HelloMembers(s, i, fates);
      PairOutcome(Formatting(Reserved(s, CONTROL_TOPIC), fates).0, CONTROL_TOPIC,
                  HelloFrame(Formatting(Reserved(s, CONTROL_TOPIC), fates).0, i), fates);
      assert r.charts[i].id == id && r.charts[i].announced;
      assert r.charts[i] in r.charts;
    }
  }

  lemma DrainedEndpoint(p: Pub, inbox: Inbox, fates: Fates)
    ensures var d := Drained(p, inbox, fates);
            d.connected == p.connected && d.endpoint == p.endpoint && d.sid == p.sid && d.useTick == p.useTick
  {
    if p.connected {
      NotifiedEndpoint(p, inbox.messages);
      var a := AllNotified(p, inbox.messages);
      MonitoredEndpoint(a, inbox.monitor);
      var q := Monitored(a, inbox.monitor);
      SweptEndpoint(q, |q.charts|, fates);
    }
  }

  ghost predicate SameSession(p: Pub, q: Pub) {
    q.connected == p.connected && q.endpoint == p.endpoint && q.sid == p.sid && q.useTick == p.useTick
  }

  lemma {:induction false} NotifiedEndpoint(p: Pub, ms: seq<string>)
    ensures SameSession(p, AllNotified(p, ms)) && AllNotified(p, ms).numbers == p.numbers
  {
    if ms != [] {
      NotifiedEndpoint(p, ms[..|ms| - 1]);
    }
  }

  lemma {:induction false} MonitoredEndpoint(p: Pub, events: seq<bool>)
    ensures SameSession(p, Monitored(p, events)) && Monitored(p, events).numbers == p.numbers
  {
    if events != [] {
      MonitoredEndpoint(p, events[..|events| - 1]);
    }
  }

  lemma HelloSession(p: Pub, i: nat, fates: Fates)
    requires i < |p.charts|
    ensures SameSession(p, SendingHello(p, i, fates).0)
    ensures forall t :: t != CONTROL_TOPIC ==> NumberOf(SendingHello(p, i, fates).0, t) == NumberOf(p, t)
  {
    var p1 := Formatting(Reserved(p, CONTROL_TOPIC), fates).0;
    PairOutcome(p1, CONTROL_TOPIC, HelloFrame(p1, i), fates);
  }

  lemma {:induction false} SweptEndpoint(p: Pub, n: nat, fates: Fates)
    requires n <= |p.charts|
    ensures SameSession(p, Swept(p, n, fates))
    ensures forall t :: t != CONTROL_TOPIC ==> NumberOf(Swept(p, n, fates), t) == NumberOf(p, t)
  {
    if n > 0 {
      SweptEndpoint(p, n - 1, fates);
      HelloSession(Swept(p, n - 1, fates), n - 1, fates);
    }
  }

  // ----- The registry -------------------------------------------------------

  /** The charts used more recently than `c`. */
  ghost function Newer(charts: seq<Chart>, c: Chart): set<int> {
    set i | 0 <= i < |charts| && charts[i].lastUsed > c.lastUsed
  }

  /** Exactly one chart, if the registry is full, has every other used more recently. */
  lemma NewerCount(charts: seq<Chart>, useTick: nat, i: nat)
    requires RegistryOk(charts, useTick) && i < |charts|
    ensures |Newer(charts, charts[i])| == |charts| - 1 <==> i == Victim(charts, |charts|)
    ensures |Newer(charts, charts[i])| <= |charts| - 1
  {
    var newer, others := Newer(charts, charts[i]), Range(0, |charts|) - {i};
    RangeSize(0, |charts|);
    assert newer <= others;
    SubsetSize(newer, others);
    var v := Victim(charts, |charts|);
    if i == v {
      assert newer == others;
    } else {
      assert newer <= others - {v};
      SubsetSize(newer, others - {v});
    }
  }

  lemma RegisteredMembers(p: Pub, id: Ident, i: nat)
    requires RegistryOk(p.charts, p.useTick) && i < |p.charts|
    ensures p.charts[i] !in Registered(p, id).charts <==>
            |p.charts| == 24 && i == Victim(p.charts, |p.charts|)
  {
    var c := p.charts[i];
    if |p.charts| >= MAX_CHARTS {
      var v := Victim(p.charts, |p.charts|);
      RegistryShrinks(p.charts, p.useTick, v);
      assert c == p.charts[v] <==> i == v;
    }
  }

  /** Registering a new chart evicts nothing below the cap; at the cap it evicts exactly
      the one chart that 23 others have been used more recently than. */
  lemma EvictionIsLeastRecent(p: Pub, id: Ident, c: Chart)
    requires RegistryOk(p.charts, p.useTick) && FindChart(p.charts, id) == |p.charts|
    requires c in p.charts
    ensures c !in Registered(p, id).charts <==> |Newer(p.charts, c)| == 23
  {
    var i :| 0 <= i < |p.charts| && p.charts[i] == c;
    NewerCount(p.charts, p.useTick, i);
    RegisteredMembers(p, id, i);
  }

  lemma SubsetSize(a: set<int>, b: set<int>)
    requires a <= b
    ensures |a| <= |b|
  {
    assert b == a + (b - a);
  }

  /** A registered chart survives EL_InitChart unless 23 others have been used since. */
  lemma InitKeepsRecentCharts(
    p: Pub, endpoint: Option<string>, id: Option<Ident>, connectable: bool, sid: int, inbox: Inbox,
    fates: Fates, i: nat)
    requires Inv(p) && p.connected && i < |p.charts|
    requires |Newer(p.charts, p.charts[i])| < 23
    ensures exists c :: c in InitChart(p, endpoint, id, connectable, sid, inbox, fates).0.charts && c.id == p.charts[i].id
  {
    var (r, rc) := InitChart(p, endpoint, id, connectable, sid, inbox, fates);
    if endpoint.Some? && id.Some? && p.endpoint == endpoint.value {
      var d := Drained(p, inbox, fates);
      DrainedInv(p, inbox, fates);
      assert Newer(d.charts, d.charts[i]) == Newer(p.charts, p.charts[i]);
      if inbox.readable {
        InitialisedKeeps(d, id.value, fates, i);
      } else {
        assert d.charts[i] in r.charts;
      }
    } else {
      assert p.charts[i] in r.charts;
    }
  }

  lemma PlacedKeeps(d: Pub, id: Ident, c: Chart)
    requires RegistryOk(d.charts, d.useTick) && c in d.charts
    requires |Newer(d.charts, c)| < 23
    ensures c in Placed(d, id).0.charts
  {
    if FindChart(d.charts, id) == |d.charts| {
      EvictionIsLeastRecent(d, id, c);
    }
  }

  lemma InitialisedKeeps(d: Pub, id: Ident, fates: Fates, i: nat)
    requires RegistryOk(d.charts, d.useTick) && i < |d.charts|
    requires |Newer(d.charts, d.charts[i])| < 23
    ensures exists c :: c in Initialised(d, id, fates).0.charts && c.id == d.charts[i].id
  {
    PlacedKeeps(d, id, d.charts[i]);
    var (q, k) := Placed(d, id);
    HelloMembers(q, k, fates);
    var r := Initialised(d, id, fates).0;
    if r != d {
      var j :| 0 <= j < |q.charts| && q.charts[j] == d.charts[i];
      assert r.charts[j].id == d.charts[i].id;
      assert r.charts[j] in r.charts;
    } else {
      assert d.charts[i] in r.charts;
    }
  }

  /** Publishing makes its chart the most recently used one. */
  lemma PublishRefreshes(p: Pub, id: Ident, fates: Fates)
    requires RegistryOk(p.charts, p.useTick) && FindChart(p.charts, id) < |p.charts|
    ensures var i, r := FindChart(p.charts, id), Published(p, id, fates).0;
            && |r.charts| == |p.charts| && r.charts[i].id == id
            && Newer(r.charts, r.charts[i]) == {}
            && r.useTick == p.useTick + 1 && r.charts[i].lastUsed == r.useTick
            && forall j :: 0 <= j < |r.charts| && j != i ==> r.charts[j] == p.charts[j]
  {
    var q := Prepared(p, id);
    PairOutcome(q, id.symbol, PointFrame(q, id), fates);
  }

  // ----- One report per episode ---------------------------------------------

  ghost predicate Known(p: Pub, id: Ident) {
    FindChart(p.charts, id) < |p.charts|
  }

  ghost predicate VoidReported(p: Pub, id: Ident) {
    Known(p, id) && p.charts[FindChart(p.charts, id)].voidReported
  }

  /** This call publishes a point of `id`, and finds a subscriber for it. */
  ghost predicate FindsSubscriber(p: Pub, c: Call, id: Ident, fates: Fates) {
    && c.PublishCall? && c.point == Some(id) && c.narrow && p.connected
    && Heard(Drained(p, c.queued, fates).subs, id.symbol)
  }

  lemma FindSame(p: seq<Chart>, q: seq<Chart>, id: Ident, from: nat)
    requires |p| == |q| && from <= |p| && forall i :: 0 <= i < |p| ==> p[i].id == q[i].id
    ensures FindChart(p, id, from) == FindChart(q, id, from)
    decreases |p| - from
  {
    if from < |p| {
      FindSame(p, q, id, from + 1);
    }
  }

  lemma DrainedVoid(p: Pub, inbox: Inbox, fates: Fates, id: Ident)
    requires Inv(p)
    ensures Known(Drained(p, inbox, fates), id) == Known(p, id)
    ensures VoidReported(Drained(p, inbox, fates), id) == VoidReported(p, id)
  {
    DrainedInv(p, inbox, fates);
    FindSame(p.charts, Drained(p, inbox, fates).charts, id, 0);
  }

  lemma PublishedKnows(d: Pub, of: Ident, fates: Fates, id: Ident)
    ensures var r := Published(d, of, fates).0;
            && |r.charts| == |d.charts| && FindChart(r.charts, id) == FindChart(d.charts, id)
            && forall i :: 0 <= i < |r.charts| && i != FindChart(d.charts, of) ==> r.charts[i] == d.charts[i]
  {
    var q := Prepared(d, of);
    PairOutcome(q, of.symbol, PointFrame(q, of), fates);
    FindSame(d.charts, Published(d, of, fates).0.charts, id, 0);
  }

  lemma PublishedVoid(d: Pub, of: Ident, fates: Fates, id: Ident)
    requires Known(d, id)
    ensures var (r, rc) := Published(d, of, fates);
            var out, heard := rc == 0 || rc == -10, Heard(d.subs, id.symbol);
            && Known(r, id)
            && (of != id ==> VoidReported(r, id) == VoidReported(d, id))
            && (of == id ==> (rc == -10 <==> out && !heard && !VoidReported(d, id)))
            && (of == id ==> (VoidReported(r, id) <==> rc == -10 || (VoidReported(d, id) && !(out && heard))))
  {
    PublishedKnows(d, of, fates, id);
    if of == id {
      PublishedOwnVoid(d, id, fates);
    }
  }

  lemma PointKeepsCharts(p: Pub, id: Ident, fates: Fates)
    ensures var (r, rc) := SendingPoint(p, id, fates);
            r.charts == p.charts && (rc == 0 || rc == -2 || rc == -4)
  {
    var q := Formatting(Reserved(p, id.symbol), fates).0;
    PairOutcome(q, id.symbol, PointFrame(q, id), fates);
  }

  lemma PublishedOwnVoid(d: Pub, id: Ident, fates: Fates)
    requires Known(d, id)
    ensures var (r, rc) := Published(d, id, fates);
            var i := FindChart(d.charts, id);
            var out, heard, said := rc == 0 || rc == -10, Heard(d.subs, id.symbol), d.charts[i].voidReported;
            && |r.charts| == |d.charts|
            && (rc == -10 <==> out && !heard && !said)
            && (r.charts[i].voidReported <==> rc == -10 || (said && !(out && heard)))
  {
    var b := Bumped(d, FindChart(d.charts, id));
    PointKeepsCharts(b, id, fates);
    var (q, rc) := SendingPoint(b, id, fates);
    assert Published(d, id, fates) ==
      if rc != 0 then (q, rc) else Noted(q, FindChart(d.charts, id), Heard(d.subs, id.symbol));
  }

  lemma InitialisedVoid(d: Pub, of: Ident, fates: Fates, id: Ident)
    requires Inv(d) && Known(d, id) && Known(Initialised(d, of, fates).0, id)
    ensures VoidReported(Initialised(d, of, fates).0, id) == VoidReported(d, id)
  {
    var (q, k) := Placed(d, of);
    HelloMembers(q, k, fates);
    var r := Initialised(d, of, fates).0;
    if !Heard(d.subs, CONTROL_TOPIC) {
      return;
    }
    FindSame(q.charts, r.charts, id, 0);
    if FindChart(d.charts, of) == |d.charts| {
      assert id != of;
      RegisteredRegistry(d, of);
      RegisteredKeepsCharts(d, of);
      var i, j := FindChart(q.charts, id), FindChart(d.charts, id);
      assert q.charts[i] in d.charts && d.charts[j] in d.charts;
    }
  }

  lemma RegisteredKeepsCharts(p: Pub, id: Ident)
    requires RegistryOk(p.charts, p.useTick)
    ensures forall c :: c in Registered(p, id).charts ==> c in p.charts || c.id == id
  {
    if |p.charts| >= MAX_CHARTS {
      RegistryShrinks(p.charts, p.useTick, Victim(p.charts, |p.charts|));
    }
  }

  /** The exact life of a chart's report while the chart stays registered: a point
      the socket takes unheard is reported unless that was already said, and only a
      point it takes with a subscriber attached re-arms the report. */
  lemma VoidLatch(p: Pub, c: Call, id: Ident, fates: Fates)
    requires Inv(p) && p.connected && Known(p, id) && Known(Exec(p, c, fates).0, id)
    ensures VoidReported(Exec(p, c, fates).0, id) <==>
            Reports(p, c, id, fates) || (VoidReported(p, id) && !Quiets(p, c, id, fates))
    ensures Reports(p, c, id, fates) <==>
            Taken(p, c, id, fates) && !FindsSubscriber(p, c, id, fates) && !VoidReported(p, id)
  {
    match c
    case InitCall(endpoint, of, connectable, sid, inbox) =>
      if endpoint.Some? && of.Some? {
        DrainedVoid(p, inbox, fates, id);
        DrainedInv(p, inbox, fates);
        if inbox.readable && p.endpoint == endpoint.value {
          InitialisedVoid(Drained(p, inbox, fates), of.value, fates, id);
        }
      }
    case PublishCall(of, narrow, inbox) =>
      if of.Some? {
        DrainedVoid(p, inbox, fates, id);
        DrainedInv(p, inbox, fates);
        PublishedVoid(Drained(p, inbox, fates), of.value, fates, id);
      }
    case ShutdownCall =>
  }

  /** The socket takes both frames of a point of `id`. */
  ghost predicate Taken(p: Pub, c: Call, id: Ident, fates: Fates) {
    c.PublishCall? && c.point == Some(id) && (Exec(p, c, fates).1 == 0 || Exec(p, c, fates).1 == -10)
  }

  /** And a subscriber is attached for it. */
  ghost predicate Quiets(p: Pub, c: Call, id: Ident, fates: Fates) {
    Taken(p, c, id, fates) && FindsSubscriber(p, c, id, fates)
  }

  /** This call publishes a point of `id` and answers -10. */
  ghost predicate Reports(p: Pub, c: Call, id: Ident, fates: Fates) {
    c.PublishCall? && c.point == Some(id) && Exec(p, c, fates).1 == -10
  }

  /** Without a socket there is no registry. */
  lemma {:induction false} NoSocketNoCharts(calls: seq<Call>, fates: Fates)
    ensures !Run(COLD, calls, fates).connected ==> Run(COLD, calls, fates).charts == []
  {
    if calls != [] {
      NoSocketNoCharts(calls[..|calls| - 1], fates);
      var p := Run(COLD, calls[..|calls| - 1], fates);
      match calls[|calls| - 1]
      case InitCall(endpoint, id, connectable, sid, inbox) =>
        if endpoint.Some? && id.Some? {
          var q := if p.connected then p else Connected(p, endpoint.value, sid);
          DrainedEndpoint(q, inbox, fates);
          InitialisedSession(Drained(q, inbox, fates), id.value, fates);
        }
      case PublishCall(id, narrow, inbox) =>
        if id.Some? && p.connected {
          DrainedEndpoint(p, inbox, fates);
          PublishedSession(Drained(p, inbox, fates), id.value, fates);
        }
      case ShutdownCall =>
    }
  }

  lemma InitialisedSession(p: Pub, id: Ident, fates: Fates)
    ensures Initialised(p, id, fates).0.connected == p.connected
  {
    var (q, i) := Placed(p, id);
    HelloSession(q, i, fates);
  }

  lemma PublishedSession(p: Pub, id: Ident, fates: Fates)
    ensures Published(p, id, fates).0.connected == p.connected
  {
    var q := Prepared(p, id);
    PairOutcome(q, id.symbol, PointFrame(q, id), fates);
  }

  /** One step of a run, for a chart that is registered before and after it. */
  lemma LatchStep(calls: seq<Call>, fates: Fates, id: Ident, k: nat)
    requires k < |calls|
    requires Known(Run(COLD, calls[..k], fates), id) && Known(Run(COLD, calls[..k + 1], fates), id)
    ensures var p, c := Run(COLD, calls[..k], fates), calls[k];
            && (VoidReported(Run(COLD, calls[..k + 1], fates), id) <==>
                Reports(p, c, id, fates) || (VoidReported(p, id) && !Quiets(p, c, id, fates)))
            && (Reports(p, c, id, fates) <==>
                Taken(p, c, id, fates) && !FindsSubscriber(p, c, id, fates) && !VoidReported(p, id))
  {
    assert calls[..k + 1][..k] == calls[..k];
    RunInv(COLD, calls[..k], fates);
    NoSocketNoCharts(calls[..k], fates);
    VoidLatch(Run(COLD, calls[..k], fates), calls[k], id, fates);
  }

  /** While no point of `id` is taken for a subscriber, a report once made stays made. */
  lemma {:induction false} LatchHolds(calls: seq<Call>, fates: Fates, id: Ident, from: nat, to: nat)
    requires from <= to <= |calls|
    requires forall k :: from <= k <= to ==> Known(Run(COLD, calls[..k], fates), id)
    requires VoidReported(Run(COLD, calls[..from], fates), id)
    requires forall k :: from <= k < to ==> !Quiets(Run(COLD, calls[..k], fates), calls[k], id, fates)
    ensures VoidReported(Run(COLD, calls[..to], fates), id)
  {
    if from < to {
      LatchHolds(calls, fates, id, from, to - 1);
      LatchKept(calls, fates, id, to - 1);
    }
  }

  lemma LatchKept(calls: seq<Call>, fates: Fates, id: Ident, k: nat)
    requires k < |calls|
    requires Known(Run(COLD, calls[..k + 1], fates), id) && VoidReported(Run(COLD, calls[..k], fates), id)
    requires !Quiets(Run(COLD, calls[..k], fates), calls[k], id, fates)
    ensures VoidReported(Run(COLD, calls[..k + 1], fates), id)
  {
    LatchStep(calls, fates, id, k);
  }

  /** While nothing is reported, a chart not yet reported stays so. */
  lemma {:induction false} ArmedHolds(calls: seq<Call>, fates: Fates, id: Ident, from: nat, to: nat)
    requires from <= to <= |calls|
    requires forall k :: from <= k <= to ==> Known(Run(COLD, calls[..k], fates), id)
    requires !VoidReported(Run(COLD, calls[..from], fates), id)
    requires forall k :: from <= k < to ==> !Reports(Run(COLD, calls[..k], fates), calls[k], id, fates)
    ensures !VoidReported(Run(COLD, calls[..to], fates), id)
  {
    if from < to {
      ArmedHolds(calls, fates, id, from, to - 1);
      ArmedKept(calls, fates, id, to - 1);
    }
  }

  lemma ArmedKept(calls: seq<Call>, fates: Fates, id: Ident, k: nat)
    requires k < |calls|
    requires Known(Run(COLD, calls[..k], fates), id) && Known(Run(COLD, calls[..k + 1], fates), id)
    requires !VoidReported(Run(COLD, calls[..k], fates), id)
    requires !Reports(Run(COLD, calls[..k], fates), calls[k], id, fates)
    ensures !VoidReported(Run(COLD, calls[..k + 1], fates), id)
  {
    LatchStep(calls, fates, id, k);
  }

  /** Between two -10 answers for a chart that stays registered, some point of
      that chart was taken for a subscriber: at most one report per episode, in every
      run. */
  lemma OneReportPerEpisode(calls: seq<Call>, fates: Fates, id: Ident, first: nat, second: nat)
    requires first < second < |calls|
    requires forall k :: first <= k <= second + 1 ==> Known(Run(COLD, calls[..k], fates), id)
    requires Reports(Run(COLD, calls[..first], fates), calls[first], id, fates)
    requires Reports(Run(COLD, calls[..second], fates), calls[second], id, fates)
    ensures exists k :: first < k < second && Quiets(Run(COLD, calls[..k], fates), calls[k], id, fates)
  {
    if forall k :: first < k < second ==> !Quiets(Run(COLD, calls[..k], fates), calls[k], id, fates) {
      LatchStep(calls, fates, id, first);
      LatchHolds(calls, fates, id, first + 1, second);
      LatchStep(calls, fates, id, second);
      assert false;
    }
  }

  /** And never none: after a point taken for a subscriber, the chart staying registered,
      a point that is taken and finds nobody answers -10 unless one since then already
      has. */
  lemma SilenceIsReported(calls: seq<Call>, fates: Fates, id: Ident, from: nat, to: nat)
    requires from < to < |calls|
    requires forall k :: from <= k <= to + 1 ==> Known(Run(COLD, calls[..k], fates), id)
    requires Quiets(Run(COLD, calls[..from], fates), calls[from], id, fates)
    requires Taken(Run(COLD, calls[..to], fates), calls[to], id, fates)
    requires !FindsSubscriber(Run(COLD, calls[..to], fates), calls[to], id, fates)
    ensures exists k :: from < k <= to && Reports(Run(COLD, calls[..k], fates), calls[k], id, fates)
  {
    if forall k :: from < k < to ==> !Reports(Run(COLD, calls[..k], fates), calls[k], id, fates) {
      LatchStep(calls, fates, id, from);
      ArmedHolds(calls, fates, id, from + 1, to);
      LatchStep(calls, fates, id, to);
    }
  }
}
