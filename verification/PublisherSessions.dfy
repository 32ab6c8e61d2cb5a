/** What a registration and a session begin with, and the answers that refuse a call. */
module PublisherSessions {
  import opened Prelude
  import opened Publisher
  import opened PublisherRuns
  import opened PublisherGuarantees

  // ----- Registration -------------------------------------------------------

  /** A chart is registered unannounced, with nothing reported, and as the most recently
      used; whatever else is in the registry was there before, unchanged. */
  lemma RegisteredFresh(p: Pub, id: Ident)
    requires RegistryOk(p.charts, p.useTick) && FindChart(p.charts, id) == |p.charts|
    ensures var r := Registered(p, id);
            && r == p.(charts := r.charts, useTick := r.useTick)
            && r.charts != []
            && var c := r.charts[|r.charts| - 1];
               && c.id == id && !c.announced && !c.voidReported && Newer(r.charts, c) == {}
               && forall d :: d in r.charts ==> d == c || d in p.charts
  {
    if |p.charts| >= MAX_CHARTS {
      RegistryShrinks(p.charts, p.useTick, Victim(p.charts, |p.charts|));
    }
    var r := Registered(p, id);
    assert forall i :: 0 <= i < |r.charts| - 1 ==> r.charts[i] in p.charts;
  }

  lemma PlacedFresh(d: Pub, of: Ident, id: Ident)
    requires RegistryOk(d.charts, d.useTick) && !Known(d, id)
    ensures Known(Placed(d, of).0, id) ==> !VoidReported(Placed(d, of).0, id)
  {
    if FindChart(d.charts, of) == |d.charts| {
      RegisteredFresh(d, of);
      var r := Registered(d, of);
      var i := FindChart(r.charts, id);
      if i < |r.charts| {
        assert r.charts[i] in r.charts;
        assert forall j :: 0 <= j < |d.charts| ==> d.charts[j].id != id;
        assert r.charts[i] !in d.charts;
      }
    }
  }

  lemma InitialisedFresh(d: Pub, of: Ident, fates: Fates, id: Ident)
    requires Inv(d) && !Known(d, id)
    ensures Known(Initialised(d, of, fates).0, id) ==> !VoidReported(Initialised(d, of, fates).0, id)
  {
    PlacedFresh(d, of, id);
    var (q, i) := Placed(d, of);
    HelloMembers(q, i, fates);
    FindSame(q.charts, SendingHello(q, i, fates).0.charts, id, 0);
  }

  /** Whatever call registers a chart, nothing has been reported for it. */
  lemma NewlyKnown(p: Pub, c: Call, id: Ident, fates: Fates)
    requires Inv(p) && !Known(p, id) && Known(Exec(p, c, fates).0, id)
    ensures !VoidReported(Exec(p, c, fates).0, id)
  {
    match c
    case InitCall(endpoint, of, connectable, sid, inbox) =>
      if endpoint.Some? && of.Some? {
        var q := if p.connected then p else Connected(p, endpoint.value, sid);
        FreshSocketInv(p, endpoint.value, sid);
        DrainedVoid(q, inbox, fates, id);
        DrainedInv(q, inbox, fates);
        InitialisedFresh(Drained(q, inbox, fates), of.value, fates, id);
      }
    case PublishCall(of, narrow, inbox) =>
      if of.Some? && p.connected {
        DrainedVoid(p, inbox, fates, id);
        PublishedKnows(Drained(p, inbox, fates), of.value, fates, id);
      }
    case ShutdownCall =>
  }

  /** The first silence after registration is reported like any other: a point that is
      taken and finds nobody answers -10 unless one since the chart was registered has. */
  lemma FirstSilenceIsReported(calls: seq<Call>, fates: Fates, id: Ident, from: nat, to: nat)
    requires from < to < |calls|
    requires !Known(Run(COLD, calls[..from], fates), id)
    requires forall k :: from < k <= to + 1 ==> Known(Run(COLD, calls[..k], fates), id)
    requires Taken(Run(COLD, calls[..to], fates), calls[to], id, fates)
    requires !FindsSubscriber(Run(COLD, calls[..to], fates), calls[to], id, fates)
    ensures exists k :: from < k <= to && Reports(Run(COLD, calls[..k], fates), calls[k], id, fates)
  {
    if forall k :: from < k < to ==> !Reports(Run(COLD, calls[..k], fates), calls[k], id, fates) {
      RegisteredBy(calls, fates, id, from);
      ArmedHolds(calls, fates, id, from + 1, to);
      LatchStep(calls, fates, id, to);
    }
  }

  lemma RegisteredBy(calls: seq<Call>, fates: Fates, id: Ident, from: nat)
    requires from < |calls|
    requires !Known(Run(COLD, calls[..from], fates), id) && Known(Run(COLD, calls[..from + 1], fates), id)
    ensures !VoidReported(Run(COLD, calls[..from + 1], fates), id)
  {
    assert calls[..from + 1][..from] == calls[..from];
    RunInv(COLD, calls[..from], fates);
    NewlyKnown(Run(COLD, calls[..from], fates), calls[from], id, fates);
  }

  // ----- Sessions -----------------------------------------------------------

  /** A session remembers nothing of the one before but the use tick: after a shutdown, or
      before any init, the call that connects does just what it would do in a new process,
      and the first number of every topic is 1. */
  lemma SessionsForget(
    p: Pub, endpoint: string, id: Option<Ident>, sid: int, inbox: Inbox, fates: Fates)
    ensures var q := Shutdown(p);
            && InitChart(q, Some(endpoint), id, true, sid, inbox, fates) ==
               InitChart(COLD.(useTick := p.useTick, tick := p.tick), Some(endpoint), id, true, sid, inbox, fates)
            && !q.connected && q.charts == [] && q.subs == {}
    ensures var s := Connected(p, endpoint, sid);
            && s.connected && s.endpoint == endpoint && s.sid == sid
            && s.charts == [] && s.subs == {} && s.open == [] && s.log == []
            && forall topic :: NumberOf(Reserved(s, topic), topic) == 1
  {
    assert Connected(Shutdown(p), endpoint, sid) ==
           Connected(COLD.(useTick := p.useTick, tick := p.tick), endpoint, sid);
  }

  // ----- Refusals -----------------------------------------------------------

  /** The answers of EL_InitChart in front of its drain and right behind it: -4 without an
      endpoint or a symbol; -8 exactly when the socket in use names another endpoint; -9
      exactly when the call gets past that and the queue cannot be read to its end. The
      first two, and -3 without a socket, leave the process as it was. */
  lemma InitRefusals(
    p: Pub, endpoint: Option<string>, id: Option<Ident>, connectable: bool, sid: int, inbox: Inbox, fates: Fates)
    ensures var (r, rc) := InitChart(p, endpoint, id, connectable, sid, inbox, fates);
            var given := endpoint.Some? && id.Some?;
            && (rc == -4 <==> !given)
            && (rc == -8 <==> given && p.connected && p.endpoint != endpoint.value)
            && (rc == -9 <==> given && !inbox.readable &&
                              (if p.connected then p.endpoint == endpoint.value else connectable))
            && (rc == -4 || rc == -8 || (rc == -3 && !r.connected) ==> r == p)
  {
    if endpoint.Some? && id.Some? && (p.connected || connectable) {
      var q := if p.connected then p else Connected(p, endpoint.value, sid);
      DrainedEndpoint(q, inbox, fates);
      InitialisedSession(Drained(q, inbox, fates), id.value, fates);
      InitialisedAnswers(Drained(q, inbox, fates), id.value, fates);
    }
  }

  lemma InitialisedAnswers(p: Pub, id: Ident, fates: Fates)
    ensures Initialised(p, id, fates).1 in {-7, -3, -2, 0, 1}
  {
  }
}
