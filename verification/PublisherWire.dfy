/** What the publisher's answers say about the wire, for every socket behaviour: a
    message left open by a failed terminating frame included. */
module PublisherWire {
  import opened Prelude
  import opened Publisher
  import opened PublisherRuns
  import opened PublisherGuarantees

  // ----- Framing ------------------------------------------------------------

  /** A message that ended is a topic and its body alone exactly if no terminating frame
      failed since the message before it; else it carries one stray topic for each. */
  lemma {:induction false} MessageExact(log: seq<Event>, j: nat)
    requires FramedExactly(log) && j < |log| && log[j].Sent?
    ensures EndsInPair(log[j].frames) && |log[j].frames| == Stuck(log[..j]) + 2
    ensures WellFramed(log[j].frames) <==> Stuck(log[..j]) == 0
  {
    var rest := log[..|log| - 1];
    if j < |rest| {
      MessageExact(rest, j);
      assert rest[..j] == log[..j];
    }
  }

  lemma {:induction false} NeverStuck(log: seq<Event>)
    requires CloseFailed !in log
    ensures Stuck(log) == 0
  {
    if log != [] {
      NeverStuck(log[..|log| - 1]);
    }
  }

  lemma {:induction false} StuckLeavesTrace(log: seq<Event>)
    requires FramedExactly(log) && Stuck(log) == 0 && AllWellFramed(log)
    ensures CloseFailed !in log
  {
    if log != [] {
      var rest, e := log[..|log| - 1], log[|log| - 1];
      assert log == rest + [e];
      assert e.Sent? ==> WellFramed(e.frames);
      StuckLeavesTrace(rest);
    }
  }

  /** Over a whole session: on a message boundary with nothing mis-framed ever sent,
      exactly if no terminating frame has ever failed. */
  lemma BoundaryExact(log: seq<Event>)
    requires FramedExactly(log)
    ensures CloseFailed !in log <==> Stuck(log) == 0 && AllWellFramed(log)
  {
    if CloseFailed !in log {
      NeverStuck(log);
      forall e | e in log && e.Sent? ensures WellFramed(e.frames) {
        var j :| 0 <= j < |log| && log[j] == e;
        NeverStuck(log[..j]);
        MessageExact(log, j);
      }
    } else if Stuck(log) == 0 && AllWellFramed(log) {
      StuckLeavesTrace(log);
    }
  }

  // ----- Announcements ------------------------------------------------------

  /** The message at `j` ends in the hello of `id`, and nothing since unsays it. */
  ghost predicate Stands(log: seq<Event>, j: int, id: Ident) {
    && 0 <= j < |log| && log[j].Sent? && EndsInHello(log[j].frames, id)
    && forall i :: j < i < |log| ==> !Unsays(log[i])
  }

  ghost predicate StandsWhole(log: seq<Event>, j: int, id: Ident) {
    Stands(log, j, id) && Stuck(log[..j]) == 0
  }

  lemma StandsExtend(rest: seq<Event>, e: Event, j: int, id: Ident)
    requires j < |rest|
    ensures Stands(rest + [e], j, id) <==> Stands(rest, j, id) && !Unsays(e)
    ensures StandsWhole(rest + [e], j, id) <==> StandsWhole(rest, j, id) && !Unsays(e)
  {
    var log := rest + [e];
    assert log[|rest|] == e;
    assert forall i :: 0 <= i < |rest| ==> log[i] == rest[i];
    if 0 <= j {
      assert log[..j] == rest[..j];
    }
  }

  lemma {:induction false} HelloEndedExact(log: seq<Event>, id: Ident)
    ensures HelloEndedSince(log, id) <==> exists j :: Stands(log, j, id)
  {
    if log != [] {
      var rest, e := log[..|log| - 1], log[|log| - 1];
      assert log == rest + [e];
      HelloEndedExact(rest, id);
      forall j | j < |rest| ensures Stands(log, j, id) <==> Stands(rest, j, id) && !Unsays(e) {
        StandsExtend(rest, e, j, id);
      }
      assert Stands(log, |rest|, id) <==> e.Sent? && EndsInHello(e.frames, id);
    }
  }

  /** The exact condition for a complete hello: one that stands, with no terminating
      frame having failed between it and the message before it. */
  lemma {:induction false} CompleteHelloExact(log: seq<Event>, id: Ident)
    requires FramedExactly(log)
    ensures HelloSince(log, id) <==> exists j :: StandsWhole(log, j, id)
  {
    if log != [] {
      var rest, e := log[..|log| - 1], log[|log| - 1];
      assert log == rest + [e];
      CompleteHelloExact(rest, id);
      forall j | j < |rest| ensures StandsWhole(log, j, id) <==> StandsWhole(rest, j, id) && !Unsays(e) {
        StandsExtend(rest, e, j, id);
      }
      assert StandsWhole(log, |rest|, id) <==> e.Sent? && IsHello(e.frames, id);
    }
  }

  /** In a session whose terminating frames have all gone out, every announced chart has
      had a complete hello since the last covering subscribe or hub loss. */
  lemma AnnouncedMeansComplete(calls: seq<Call>, fates: Fates, c: Chart)
    requires var p := Run(COLD, calls, fates); CloseFailed !in p.log && c in p.charts && c.announced
    ensures HelloSince(Run(COLD, calls, fates).log, c.id)
  {
    Reachable(calls, fates);
    var log := Run(COLD, calls, fates).log;
    HelloEndedExact(log, c.id);
    CompleteHelloExact(log, c.id);
    var j :| Stands(log, j, c.id);
    NeverStuck(log[..j]);
    assert StandsWhole(log, j, c.id);
  }

  /** Sending a hello that is accepted completes one exactly if the socket was on a
      message boundary, or a complete one stood already. */
  lemma HelloCompletes(p: Pub, i: nat, fates: Fates)
    requires i < |p.charts|
    ensures var (r, fate) := SendingHello(p, i, fates);
            fate == Accepted ==>
              && r.log == p.log + [Sent(p.open + [Topic(CONTROL_TOPIC), HelloFrame(Reserved(p, CONTROL_TOPIC), i)])]
              && HelloEndedSince(r.log, p.charts[i].id)
              && (HelloSince(r.log, p.charts[i].id) <==> p.open == [] || HelloSince(p.log, p.charts[i].id))
  {
    var p1 := Formatting(Reserved(p, CONTROL_TOPIC), fates).0;
    PairOutcome(p1, CONTROL_TOPIC, HelloFrame(p1, i), fates);
    var frames := p.open + [Topic(CONTROL_TOPIC), HelloFrame(p1, i)];
    assert EndsInHello(frames, p.charts[i].id);
    assert (p.log + [Sent(frames)])[..|p.log|] == p.log;
  }

  // ----- Answers ------------------------------------------------------------

  /** The fate of a two-frame send whose first attempt is number `t`. */
  function PairFate(fates: Fates, t: nat): Fate {
    if fates(t) != Accepted then fates(t) else fates(t + 1)
  }

  /** The fate of a hello whose formatting is attempt `t`: one that does not fit counts
      as refused. */
  function HelloFate(fates: Fates, t: nat): Fate {
    if fates(t) != Accepted then Refused else PairFate(fates, t + 1)
  }

  lemma HelloFateIs(p: Pub, i: nat, fates: Fates)
    requires i < |p.charts|
    ensures SendingHello(p, i, fates).1 == HelloFate(fates, p.tick)
  {
  }

  predicate Announced(p: Pub, id: Ident) {
    var i := FindChart(p.charts, id);
    i < |p.charts| && p.charts[i].announced
  }

  /** Behind its drain EL_InitChart sends a hello: someone would receive it, and the
      chart is not announced. */
  ghost predicate HelloDue(p: Pub, id: Ident) {
    Heard(p.subs, CONTROL_TOPIC) && !Announced(p, id)
  }

  /** Each answer behind the drain, and what it says of the wire: -7 and 1 send nothing
      and change nothing, 0 put this chart's hello on the wire, last. */
  lemma InitAnswers(p: Pub, id: Ident, fates: Fates)
    ensures var (r, rc) := Initialised(p, id, fates);
            && (rc == -7 <==> !Heard(p.subs, CONTROL_TOPIC))
            && (rc == 1 <==> Heard(p.subs, CONTROL_TOPIC) && Announced(p, id))
            && (rc == 0 <==> HelloDue(p, id) && HelloFate(fates, p.tick) == Accepted)
            && (rc == -2 <==> HelloDue(p, id) && HelloFate(fates, p.tick) == Refused)
            && (rc == -3 <==> HelloDue(p, id) && HelloFate(fates, p.tick) == Raised)
            && (rc == -7 || rc == 1 ==> r == p)
            && (rc == 0 ==> r.log == p.log + [Sent(p.open + [Topic(CONTROL_TOPIC),
                                                             Hello(id, NumberOf(r, CONTROL_TOPIC), p.sid)])])
  {
    var (q, i) := Placed(p, id);
    HelloFateIs(q, i, fates);
    HelloCompletes(q, i, fates);
    SendKeepsNumbers(q, i, fates);
  }

  lemma SendKeepsNumbers(p: Pub, i: nat, fates: Fates)
    requires i < |p.charts|
    ensures SendingHello(p, i, fates).0.numbers == Reserved(p, CONTROL_TOPIC).numbers
  {
    var p1 := Formatting(Reserved(p, CONTROL_TOPIC), fates).0;
    PairOutcome(p1, CONTROL_TOPIC, HelloFrame(p1, i), fates);
  }

  /** What EL_InitChart finds behind its drain. */
  ghost function Behind(p: Pub, endpoint: string, sid: int, inbox: Inbox, fates: Fates): Pub {
    Drained(if p.connected then p else Connected(p, endpoint, sid), inbox, fates)
  }

  /** The call gets as far as sending a hello of its own. */
  ghost predicate SendsHello(
    p: Pub, endpoint: string, id: Ident, connectable: bool, sid: int, inbox: Inbox, fates: Fates)
  {
    && (if p.connected then p.endpoint == endpoint else connectable)
    && inbox.readable && HelloDue(Behind(p, endpoint, sid, inbox, fates), id)
  }

  /** -3 is the answer to a socket that cannot be made and, against the published table,
      to a hello that raises on one that has been; -2 is the answer to a hello that is
      refused and, again against the table, to one that does not fit. -4 is neither. */
  lemma InitFailures(
    p: Pub, endpoint: string, id: Ident, connectable: bool, sid: int, inbox: Inbox, fates: Fates)
    ensures var rc := InitChart(p, Some(endpoint), Some(id), connectable, sid, inbox, fates).1;
            var sends := SendsHello(p, endpoint, id, connectable, sid, inbox, fates);
            var t := Behind(p, endpoint, sid, inbox, fates).tick;
            && (rc == -3 <==> (!p.connected && !connectable) || (sends && HelloFate(fates, t) == Raised))
            && (rc == -2 <==> sends && HelloFate(fates, t) == Refused)
            && rc != -4
  {
    InitAnswers(Behind(p, endpoint, sid, inbox, fates), id, fates);
  }

  /** The code's answers and the table's, for a hello: the same unless it raises or does
      not fit. */
  lemma InitAgainstTable(
    p: Pub, endpoint: string, id: Ident, connectable: bool, sid: int, inbox: Inbox, fates: Fates)
    requires SendsHello(p, endpoint, id, connectable, sid, inbox, fates)
    ensures var t := Behind(p, endpoint, sid, inbox, fates).tick;
            var table := if fates(t) != Accepted then -4 else if PairFate(fates, t + 1) != Accepted then -2 else 0;
            InitChart(p, Some(endpoint), Some(id), connectable, sid, inbox, fates).1 == table
            <==> fates(t) == Accepted && PairFate(fates, t + 1) != Raised
  {
    InitAnswers(Behind(p, endpoint, sid, inbox, fates), id, fates);
  }

  /** Each answer of EL_Publish behind its drain. Without a registry entry there is no
      latch, and every point taken unheard answers -10. */
  lemma PublishAnswers(p: Pub, id: Ident, fates: Fates)
    ensures var rc := Published(p, id, fates).1;
            var taken := fates(p.tick) == Accepted && PairFate(fates, p.tick + 1) == Accepted;
            && (rc == -4 <==> fates(p.tick) != Accepted)
            && (rc == -2 <==> fates(p.tick) == Accepted && PairFate(fates, p.tick + 1) != Accepted)
            && (rc == -10 <==> taken && !Heard(p.subs, id.symbol) && !VoidReported(p, id))
            && (rc == 0 <==> taken && (Heard(p.subs, id.symbol) || VoidReported(p, id)))
  {
    var q := Prepared(p, id);
    PairOutcome(q, id.symbol, PointFrame(q, id), fates);
    assert SendingPair(q, id.symbol, PointFrame(q, id), fates).1 == PairFate(fates, q.tick);
  }

  // ----- Numbers ------------------------------------------------------------

  /** What one publish does to numbers and wire. */
  lemma PublishedLog(p: Pub, id: Ident, fates: Fates)
    ensures var (r, rc) := Published(p, id, fates);
            var body := Point(id, NumberOf(r, id.symbol), p.sid);
            && NumberOf(r, id.symbol) == NumberOf(p, id.symbol) + 1
            && (forall t :: t != id.symbol ==> NumberOf(r, t) == NumberOf(p, t))
            && (if rc == 0 || rc == -10 then r.log == p.log + [Sent(p.open + [Topic(id.symbol), body])]
                else (r.log == p.log || r.log == p.log + [Sent(p.open + [Topic(id.symbol), Empty])]
                      || r.log == p.log + [CloseFailed]))
  {
    var q := Prepared(p, id);
    PairOutcome(q, id.symbol, PointFrame(q, id), fates);
  }

  lemma StrayTopics(open: seq<Frame>, topic: string, body: Frame, t: string)
    ensures NumberOn(open + [Topic(topic), body], t) ==
            if open == [] then NumberOn([Topic(topic), body], t) else None
  {
    if open == [] {
      assert open + [Topic(topic), body] == [Topic(topic), body];
    }
  }

  /** A publish that gets as far as its number consumes exactly one, sent or not. The
      number is on the wire exactly if the call answers 0 or -10 and the socket was on a
      message boundary; off one, the answer is the same and a receiver finds no number. */
  lemma PublishConsumesOneNumber(p: Pub, id: Ident, fates: Fates)
    ensures var (r, rc) := Published(p, id, fates);
            && NumberOf(r, id.symbol) == NumberOf(p, id.symbol) + 1
            && (forall t :: t != id.symbol ==> NumberOf(r, t) == NumberOf(p, t))
            && WireNumbers(r.log, id.symbol) ==
               WireNumbers(p.log, id.symbol) +
               if (rc == 0 || rc == -10) && p.open == [] then [NumberOf(r, id.symbol)] else []
  {
    PublishedLog(p, id, fates);
    var r := Published(p, id, fates).0;
    StrayTopics(p.open, id.symbol, Point(id, NumberOf(r, id.symbol), p.sid), id.symbol);
    StrayTopics(p.open, id.symbol, Empty, id.symbol);
    if r.log != p.log {
      LogExtend(p.log, r.log[|p.log|], id.symbol);
    }
  }

  lemma {:induction false} SweepNumbers(p: Pub, n: nat, fates: Fates)
    requires n <= |p.charts|
    ensures forall t :: NumberOf(Swept(p, n, fates), t) >= NumberOf(p, t)
  {
    if n > 0 {
      var q := Swept(p, n - 1, fates);
      SweepNumbers(p, n - 1, fates);
      SendKeepsNumbers(q, n - 1, fates);
      assert forall t :: NumberOf(Reserved(q, CONTROL_TOPIC), t) >= NumberOf(q, t);
    }
  }

  lemma DrainNumbers(p: Pub, inbox: Inbox, fates: Fates)
    ensures forall t :: NumberOf(Drained(p, inbox, fates), t) >= NumberOf(p, t)
  {
    if p.connected {
      NotifiedEndpoint(p, inbox.messages);
      var a := AllNotified(p, inbox.messages);
      MonitoredEndpoint(a, inbox.monitor);
      var q := Monitored(a, inbox.monitor);
      SweepNumbers(q, |q.charts|, fates);
    }
  }

  /** -4 says the arguments were rejected, or the payload did not fit. A rejected argument
      changes nothing at all; a payload that does not fit has consumed its number. */
  lemma RejectionsAndNumbers(p: Pub, id: Ident, narrow: bool, inbox: Inbox, fates: Fates)
    ensures var (r, rc) := Publish(p, Some(id), narrow, inbox, fates);
            && (rc == -4 <==> !narrow || (p.connected && fates(Drained(p, inbox, fates).tick) != Accepted))
            && (!narrow || !p.connected ==> r == p)
            && (rc == -1 <==> narrow && !p.connected)
            && (rc == -4 ==> (NumberOf(r, id.symbol) > NumberOf(p, id.symbol) <==> narrow))
    ensures Publish(p, None, narrow, inbox, fates) == (p, -4)
  {
    var d := Drained(p, inbox, fates);
    DrainNumbers(p, inbox, fates);
    PublishAnswers(d, id, fates);
    PublishedLog(d, id, fates);
  }

  // ----- One point of an episode --------------------------------------------

  /** The point's two frames are a message of their own. */
  ghost predicate GoesOut(p: Pub, c: Call, id: Ident, fates: Fates) {
    Taken(p, c, id, fates) && Drained(p, c.queued, fates).open == []
  }

  /** A subscriber is attached for it. */
  ghost predicate Delivers(p: Pub, c: Call, id: Ident, fates: Fates) {
    GoesOut(p, c, id, fates) && FindsSubscriber(p, c, id, fates)
  }

  /** A point taken is a message of its own, and its number on the wire, exactly if no
      terminating frame failed since the last message that ended. */
  lemma TakenGoesOut(p: Pub, c: Call, id: Ident, fates: Fates)
    requires Inv(p) && Taken(p, c, id, fates)
    ensures var d, r := Drained(p, c.queued, fates), Exec(p, c, fates).0;
            && (GoesOut(p, c, id, fates) <==> Stuck(d.log) == 0)
            && (GoesOut(p, c, id, fates) <==>
                r.log == d.log + [Sent([Topic(id.symbol), Point(id, NumberOf(r, id.symbol), d.sid)])])
            && (Quiets(p, c, id, fates) ==> (Delivers(p, c, id, fates) <==> Stuck(d.log) == 0))
  {
    var d := Drained(p, c.queued, fates);
    DrainedInv(p, c.queued, fates);
    PublishedLog(d, id, fates);
    var body := Point(id, NumberOf(Published(d, id, fates).0, id.symbol), d.sid);
    var whole := [Topic(id.symbol), body];
    if d.open == [] {
      assert d.open + whole == whole;
    } else {
      assert |d.open + whole| > 2;
      assert (d.log + [Sent(d.open + whole)])[|d.log|] != (d.log + [Sent(whole)])[|d.log|];
    }
  }
}
