/** Runs from a cold start that show why the conditions of the wire theorems are there:
    one terminating frame fails, and the next message is framed onto the abandoned one. */
module PublisherCases {
  import opened Prelude
  import opened Publisher
  import opened PublisherRuns
  import opened PublisherGuarantees
  import opened PublisherWire

  const CHART := Ident("S", 0, 1, 1)
  const QUIET := Inbox([], true, [])

  /** Someone subscribes to announcements and to the symbol. */
  const ATTACHED := Inbox([[SUB] + CONTROL_TOPIC, [SUB] + "S"], true, [])

  /** The announcements' subscriber goes away. */
  const HALF_GONE := Inbox([[UNSUB] + CONTROL_TOPIC], true, [])

  function InitWith(inbox: Inbox): Call {
    InitCall(Some("hub"), Some(CHART), true, 7, inbox)
  }

  /** Attempts 2 and 3, the body of the first hello and the frame that closes it. */
  function ClosingFails(t: nat): Fate {
    if t == 2 || t == 3 then Refused else Accepted
  }

  /** The socket as it is after the first drain of a new session. */
  const LISTENING := Connected(COLD, "hub", 7).(
    subs := {CONTROL_TOPIC, "S"},
    log := [Subscribed(CONTROL_TOPIC), Subscribed("S")])

  lemma FirstDrain(fates: Fates)
    ensures Drained(Connected(COLD, "hub", 7), ATTACHED, fates) == LISTENING
  {
    var p, m, n := Connected(COLD, "hub", 7), [SUB] + CONTROL_TOPIC, [SUB] + "S";
    assert m[1..] == CONTROL_TOPIC && n[1..] == "S";
    var ms := [m, n];
    var one := [m];
    assert ms[..1] == one && one[..0] == [];
    assert Unannounced([]) == [];
    assert AllNotified(p, [m]) == p.(subs := {CONTROL_TOPIC}, log := [Subscribed(CONTROL_TOPIC)]);
    assert AllNotified(p, ms) == LISTENING;
    assert Monitored(LISTENING, []) == LISTENING;
  }

  /** After the first EL_InitChart: -2, and the abandoned hello is still open. */
  const STUCK := LISTENING.(
    charts := [Chart(CHART, false, false, 1)], useTick := 1, numbers := map[CONTROL_TOPIC := 1],
    open := [Topic(CONTROL_TOPIC)], tick := 4,
    log := [Subscribed(CONTROL_TOPIC), Subscribed("S"), CloseFailed])

  lemma FirstInit()
    ensures Exec(COLD, InitWith(ATTACHED), ClosingFails) == (STUCK, -2)
  {
    FirstDrain(ClosingFails);
    assert Covers(CONTROL_TOPIC, CONTROL_TOPIC) && CONTROL_TOPIC in LISTENING.subs;
    var r := Registered(LISTENING, CHART);
    assert Placed(LISTENING, CHART) == (r, 0);
    var q := Formatting(Reserved(r, CONTROL_TOPIC), ClosingFails).0;
    var (s, fate) := SendingPair(q, CONTROL_TOPIC, HelloFrame(q, 0), ClosingFails);
    assert fate == Refused && s == STUCK;
  }

  /** A chart announced whose hello no receiver can read: the drain of the next call sends
      it behind the stray topic, and EL_InitChart answers 1. */
  lemma AnnouncedButNotComplete()
    ensures var calls := [InitWith(ATTACHED), InitWith(QUIET)];
            var p := Run(COLD, calls, ClosingFails);
            && p.charts == [Chart(CHART, true, false, 1)]
            && Exec(Run(COLD, calls[..1], ClosingFails), calls[1], ClosingFails).1 == 1
            && HelloEndedSince(p.log, CHART) && !HelloSince(p.log, CHART)
  {
    var calls := [InitWith(ATTACHED), InitWith(QUIET)];
    OneCallRun(calls);
    var stray := STUCK.(
      charts := [Chart(CHART, true, false, 1)], numbers := map[CONTROL_TOPIC := 2], open := [], tick := 7,
      log := STUCK.log + [Sent([Topic(CONTROL_TOPIC), Topic(CONTROL_TOPIC), Hello(CHART, 2, 7)])]);
    StrayHello(stray);
    assert calls[1] == InitWith(QUIET);
    assert Exec(STUCK, InitWith(QUIET), ClosingFails) == (stray, 1);
    StrayLog(stray.log[3]);
  }

  lemma OneCallRun(calls: seq<Call>)
    requires |calls| == 2 && calls[0] == InitWith(ATTACHED)
    ensures Run(COLD, calls[..1], ClosingFails) == STUCK
    ensures Run(COLD, calls, ClosingFails) == Exec(STUCK, calls[1], ClosingFails).0
  {
    FirstInit();
    assert calls[..1][..0] == [];
    assert Run(COLD, calls[..1][..0], ClosingFails) == COLD;
    assert calls[..1][0] == InitWith(ATTACHED);
  }

  lemma StrayHello(stray: Pub)
    requires stray == STUCK.(
      charts := [Chart(CHART, true, false, 1)], numbers := map[CONTROL_TOPIC := 2], open := [], tick := 7,
      log := STUCK.log + [Sent([Topic(CONTROL_TOPIC), Topic(CONTROL_TOPIC), Hello(CHART, 2, 7)])])
    ensures Drained(STUCK, QUIET, ClosingFails) == stray
  {
    assert CONTROL_TOPIC in STUCK.subs;
    assert Monitored(AllNotified(STUCK, []), []) == STUCK;
    var q := Formatting(Reserved(STUCK, CONTROL_TOPIC), ClosingFails).0;
    PairOutcome(q, CONTROL_TOPIC, HelloFrame(q, 0), ClosingFails);
    assert [Topic(CONTROL_TOPIC)] + [Topic(CONTROL_TOPIC), HelloFrame(q, 0)] ==
           [Topic(CONTROL_TOPIC), Topic(CONTROL_TOPIC), Hello(CHART, 2, 7)];
    assert Swept(STUCK, 0, ClosingFails) == STUCK;
    assert Announcing(STUCK, 0, ClosingFails) == stray;
    assert Swept(STUCK, 1, ClosingFails) == stray;
  }

  lemma StrayLog(e: Event)
    requires e == Sent([Topic(CONTROL_TOPIC), Topic(CONTROL_TOPIC), Hello(CHART, 2, 7)])
    ensures var log := STUCK.log + [e]; HelloEndedSince(log, CHART) && !HelloSince(log, CHART)
  {
    var log := STUCK.log + [e];
    assert log[..3] == STUCK.log && log[..2] == log[..3][..2] && log[..1] == log[..2][..1] && log[..0] == log[..1][..0];
    assert !HelloSince(log[..0], CHART);
    assert !HelloSince(log[..1], CHART);
    assert !HelloSince(log[..2], CHART);
    assert !HelloSince(log[..3], CHART);
  }

  /** A point answered 0, a subscriber attached for it, that no receiver can read: its
      number is consumed and not on the wire, and the report is re-armed all the same. */
  lemma AnsweredButNotDelivered()
    ensures var calls := [InitWith(ATTACHED), PublishCall(Some(CHART), true, HALF_GONE)];
            var p, r := Run(COLD, calls[..1], ClosingFails), Run(COLD, calls, ClosingFails);
            && Exec(p, calls[1], ClosingFails).1 == 0
            && Quiets(p, calls[1], CHART, ClosingFails) && !Delivers(p, calls[1], CHART, ClosingFails)
            && NumberOf(r, "S") == 1 && WireNumbers(r.log, "S") == []
  {
    var calls := [InitWith(ATTACHED), PublishCall(Some(CHART), true, HALF_GONE)];
    OneCallRun(calls);
    var d := STUCK.(subs := {"S"}, log := STUCK.log + [Unsubscribed(CONTROL_TOPIC)]);
    HalfGone(d);
    assert calls[1] == PublishCall(Some(CHART), true, HALF_GONE);
    assert Covers("S", "S") && Heard(d.subs, "S");
    PublishAnswers(d, CHART, ClosingFails);
    PublishConsumesOneNumber(d, CHART, ClosingFails);
    NothingOnWire(d.log);
  }

  lemma HalfGone(d: Pub)
    requires d == STUCK.(subs := {"S"}, log := STUCK.log + [Unsubscribed(CONTROL_TOPIC)])
    ensures Drained(STUCK, HALF_GONE, ClosingFails) == d
  {
    var m := [UNSUB] + CONTROL_TOPIC;
    assert m[1..] == CONTROL_TOPIC;
    var one := [m];
    assert one[..0] == [];
    assert {CONTROL_TOPIC, "S"} - {CONTROL_TOPIC} == {"S"} by {
      assert CONTROL_TOPIC != "S";
    }
    assert AllNotified(STUCK, [m]) == d;
    assert "S"[0] != CONTROL_TOPIC[0];
    assert !Covers("S", CONTROL_TOPIC);
    assert !Heard(d.subs, CONTROL_TOPIC);
  }

  lemma NothingOnWire(log: seq<Event>)
    requires log == STUCK.log + [Unsubscribed(CONTROL_TOPIC)]
    ensures WireNumbers(log, "S") == []
  {
    assert log[..3] == STUCK.log && log[..2] == log[..3][..2] && log[..1] == log[..2][..1] && log[..0] == log[..1][..0];
    assert WireNumbers(log[..0], "S") == [];
    assert WireNumbers(log[..1], "S") == [];
    assert WireNumbers(log[..2], "S") == [];
    assert WireNumbers(log[..3], "S") == [];
  }

  // ----- Answers that the published table has otherwise ---------------------

  /** Attempt `n` does not succeed. */
  function FailsAt(n: nat, how: Fate): Fates {
    t => if t == n then how else Accepted
  }

  /** A hello that raises on a socket that was made answers -3, the table says -2; one that
      does not fit answers -2, the table says -4. */
  lemma HelloAgainstTable()
    ensures var call := InitWith(ATTACHED);
            && Exec(COLD, call, FailsAt(1, Raised)).1 == -3 && Exec(COLD, call, FailsAt(1, Raised)).0.connected
            && Exec(COLD, call, FailsAt(0, Refused)).1 == -2
  {
    assert CONTROL_TOPIC in LISTENING.subs && Covers(CONTROL_TOPIC, CONTROL_TOPIC);
    FirstDrain(FailsAt(1, Raised));
    InitAnswers(LISTENING, CHART, FailsAt(1, Raised));
    InitialisedSession(LISTENING, CHART, FailsAt(1, Raised));
    FirstDrain(FailsAt(0, Refused));
    InitAnswers(LISTENING, CHART, FailsAt(0, Refused));
  }

  /** A payload that does not fit answers -4 like a rejected argument, and leaves the gap
      a rejected argument must not. */
  lemma TooLongLeavesGap()
    ensures var calls, fates := [InitWith(QUIET), PublishCall(Some(CHART), true, QUIET)], FailsAt(0, Refused);
            var p := Run(COLD, calls[..1], fates);
            && NumberOf(p, "S") == 0
            && Exec(p, calls[1], fates).1 == -4
            && NumberOf(Run(COLD, calls, fates), "S") == 1
  {
    var calls, fates := [InitWith(QUIET), PublishCall(Some(CHART), true, QUIET)], FailsAt(0, Refused);
    var p := Connected(COLD, "hub", 7);
    QuietInit(p, fates);
    assert calls[..1][..0] == [];
    assert Run(COLD, calls[..1][..0], fates) == COLD;
    assert calls[..1][0] == InitWith(QUIET);
    assert Run(COLD, calls[..1], fates) == p;
    assert calls[1] == PublishCall(Some(CHART), true, QUIET);
    PublishAnswers(p, CHART, fates);
    PublishConsumesOneNumber(p, CHART, fates);
  }

  lemma QuietInit(p: Pub, fates: Fates)
    requires p == Connected(COLD, "hub", 7)
    ensures Drained(p, QUIET, fates) == p
    ensures Exec(COLD, InitWith(QUIET), fates) == (p, -7)
  {
    assert Monitored(AllNotified(p, []), []) == p;
    assert !Heard(p.subs, CONTROL_TOPIC);
  }

  // ----- A hub lost and found in one drain ----------------------------------

  /** The first call of a process finds a subscribe queued that would receive hellos, and
      a disconnect: whatever the socket does, it ends with no subscription and answers -7
      as if nobody were listening. */
  lemma HubLossDropsFreshSubscribe(fates: Fates)
    ensures var inbox := Inbox([[SUB] + CONTROL_TOPIC], true, [true]);
            var (p, rc) := Exec(COLD, InitWith(inbox), fates);
            && rc == -7 && p.subs == {}
            && Applied({}, inbox.messages) == {CONTROL_TOPIC}
  {
    var m := [SUB] + CONTROL_TOPIC;
    var inbox := Inbox([m], true, [true]);
    var q := Connected(COLD, "hub", 7);
    assert m[1..] == CONTROL_TOPIC;
    var one := [m];
    assert one[..0] == [];
    assert Applied({}, one) == {CONTROL_TOPIC};
    DrainedSubs(q, inbox, fates);
    InitAnswers(Drained(q, inbox, fates), CHART, fates);
  }
}
