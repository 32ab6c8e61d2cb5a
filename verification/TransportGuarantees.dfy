/** What consumers and publishers can rely on in every run. */
module TransportGuarantees {
  import opened Prelude
  import opened Publisher
  import opened PublisherRuns
  import opened PublisherGuarantees
  import opened Hub
  import opened Transport
  import opened TransportRuns

  // ----- Consequences -------------------------------------------------------

  /** Some live consumer's subscription delivers this topic. */
  ghost predicate Wanted(n: Net, topic: string) {
    exists c, t :: t in n.holders && c in n.holders[t] && t <= topic
  }

  /** With nothing in flight, each publisher's set is exactly the set of topics some
      live consumer holds. */
  lemma QuiescentAgreement(steps: seq<Step>, fates: int -> Fates, l: int)
    requires var n := RunNet(QUIET, steps, fates);
             n.toHub == [] && l in n.ends && n.ends[l].inbox == [] && n.ends[l].stranded == []
    ensures var n := RunNet(QUIET, steps, fates);
            && n.refs == n.hub.counts
            && n.ends[l].pub.subs == n.holders.Keys
            && forall t :: t in n.holders ==> n.holders[t] != {}
  {
    RunOk(QUIET, steps, fates);
  }

  lemma HeldMeansWanted(n: Net, topic: string)
    requires NetOk(n)
    ensures Heard(n.holders.Keys, topic) <==> Wanted(n, topic)
  {
    if Heard(n.holders.Keys, topic) {
      var t :| t in n.holders.Keys && Covers(t, topic);
      var c := Someone(n.holders[t]);
    }
  }

  /** The publisher's view after a drain that reads all there is, at a moment when
      nothing else is in flight: exact, unless the drain also saw the hub go while some
      consumer still held something. */
  lemma AgreementAfterDrain(n: Net, l: int, readable: bool, monitor: seq<bool>, fates: Fates)
    requires NetOk(n) && l in n.ends && n.toHub == [] && n.ends[l].stranded == []
    ensures Drained(n.ends[l].pub, Inbox(n.ends[l].inbox, readable, monitor), fates).subs == n.holders.Keys
            <==> (true !in monitor || n.holders == map[])
  {
    var e := n.ends[l];
    DrainedSubs(e.pub, Inbox(e.inbox, readable, monitor), fates);
    assert e.inbox + e.stranded == e.inbox;
    assert n.holders.Keys == {} <==> n.holders == map[];
  }

  /** -10 is honest: with the queues drained, a publish finds a subscriber exactly when
      some live consumer's subscription delivers the symbol, so it answers -10 only if
      none does. */
  lemma VoidIsReal(steps: seq<Step>, fates: int -> Fates, l: int, c: Call)
    requires var n := RunNet(QUIET, steps, fates);
             && l in n.ends && n.toHub == [] && n.ends[l].stranded == []
             && Enabled(n, PublisherCall(l, c, |n.ends[l].inbox|))
    requires c.PublishCall? && c.point.Some? && c.narrow
    ensures var n := RunNet(QUIET, steps, fates);
            && (FindsSubscriber(n.ends[l].pub, c, c.point.value, fates(l)) <==> Wanted(n, c.point.value.symbol))
            && (Exec(n.ends[l].pub, c, fates(l)).1 == -10 ==> !Wanted(n, c.point.value.symbol))
  {
    var n := RunNet(QUIET, steps, fates);
    RunOk(QUIET, steps, fates);
    var e := n.ends[l];
    var inbox := InboxOf(c);
    assert inbox == Inbox(e.inbox, inbox.readable, inbox.monitor);
    AgreementAfterDrain(n, l, inbox.readable, inbox.monitor, fates(l));
    HeldMeansWanted(n, c.point.value.symbol);
    var d := Drained(e.pub, inbox, fates(l));
    PublishedRc(d, c.point.value, fates(l));
  }

  lemma PublishedRc(p: Pub, id: Ident, fates: Fates)
    ensures Published(p, id, fates).1 == -10 ==> !Heard(p.subs, id.symbol)
  {
    var q := Prepared(p, id);
    PairOutcome(q, id.symbol, PointFrame(q, id), fates);
  }

  /** -7 is honest too: with the queues drained and readable, EL_InitChart answers it
      exactly when no live consumer would receive an announcement. */
  lemma WaitingIsReal(steps: seq<Step>, fates: int -> Fates, l: int, c: Call)
    requires var n := RunNet(QUIET, steps, fates);
             && l in n.ends && n.toHub == [] && n.ends[l].stranded == []
             && Enabled(n, PublisherCall(l, c, |n.ends[l].inbox|))
             && c.InitCall? && Drains(n.ends[l].pub, c) && c.inbox.readable
    ensures var n := RunNet(QUIET, steps, fates);
            Exec(n.ends[l].pub, c, fates(l)).1 == -7 <==> !Wanted(n, CONTROL_TOPIC)
  {
    var n := RunNet(QUIET, steps, fates);
    RunOk(QUIET, steps, fates);
    var e := n.ends[l];
    assert c.inbox == Inbox(e.inbox, true, c.inbox.monitor);
    AgreementAfterDrain(n, l, true, c.inbox.monitor, fates(l));
    HeldMeansWanted(n, CONTROL_TOPIC);
  }

  // ----- Wakes --------------------------------------------------------------

  /** An entry not yet reached by a turn's clock is still due after any step. */
  lemma EntryKept(m: Net, s: Step, fates: int -> Fates, x: int)
    requires NetOk(m) && x in m.hub.due
    requires s.HubTurn? ==> s.now < x
    ensures x in Stepped(m, s, fates).hub.due
  {
    if Enabled(m, s) {
      match s
      case ConsumerGone(c, held) => LeavingHub(m, c, held);
      case HubTurn(_, _, _, _, _) => TurnOk(m, s);
      case _ =>
    }
  }

  lemma {:induction false} LeavingHub(n: Net, c: int, held: seq<string>)
    ensures Leaving(n, c, held).hub == n.hub
    decreases |held|
  {
    if held != [] {
      LeavingHub(Unsubscribing(n, c, held[0]), c, held[1..]);
    }
  }

  /** A turn that handles an attach event makes the shortest delay due. */
  lemma AttachSchedules(n: Net, s: Step)
    requires NetOk(n) && s.HubTurn? && s.attached
    ensures var x := s.attachedAt + 50;
            x in DueIn(n, s) && (s.now < x ==> x in HubTurning(n, s).hub.due)
  {
    TurnOk(n, s);
    var o := Offsets(FOLLOW_UP_DELAYS, s.attachedAt);
    assert o[0] == s.attachedAt + 50;
    assert o[0] in o;
  }

  /** The turn that reaches a due entry leaves nothing stranded. */
  lemma ReachedIsReleased(n: Net, s: Step, x: int)
    requires NetOk(n) && s.HubTurn? && x in DueIn(n, s) && x <= s.now
    ensures forall l :: l in HubTurning(n, s).ends ==> HubTurning(n, s).ends[l].stranded == []
  {
    RemainingShrinks(DueIn(n, s), s.now);
    TurnOk(n, s);
  }

  lemma AttachFirst(n: Net, s: Step, fates: int -> Fates, x: int)
    requires NetOk(n) && s.HubTurn? && s.attached
    requires x == s.attachedAt + 50 && s.now < x
    ensures x in Stepped(n, s, fates).hub.due
  {
    AttachSchedules(n, s);
  }

  lemma LastStep(n: Net, steps: seq<Step>, fates: int -> Fates)
    requires steps != []
    ensures RunNet(n, steps, fates) == Stepped(RunNet(n, steps[..|steps| - 1], fates), steps[|steps| - 1], fates)
    ensures |steps| == 1 ==> RunNet(n, steps, fates) == Stepped(n, steps[0], fates)
  {
    if |steps| == 1 {
      assert steps[..0] == [];
    }
  }

  lemma {:induction false} AttachRemembered(n: Net, steps: seq<Step>, fates: int -> Fates, x: int)
    requires NetOk(n) && steps != [] && steps[0].HubTurn? && steps[0].attached
    requires x == steps[0].attachedAt + 50
    requires forall i :: 0 <= i < |steps| && steps[i].HubTurn? ==> steps[i].now < x
    ensures x in RunNet(n, steps, fates).hub.due
  {
    LastStep(n, steps, fates);
    var rest, s := steps[..|steps| - 1], steps[|steps| - 1];
    if rest == [] {
      AttachFirst(n, s, fates, x);
    } else {
      assert rest[0] == steps[0];
      AttachRemembered(n, rest, fates, x);
      RunOk(n, rest, fates);
      EntryKept(RunNet(n, rest, fates), s, fates, x);
    }
  }

  /** Attach-event to release: the first turn whose clock reaches the attach event plus
      the shortest delay leaves no publisher attached by then with anything stranded,
      whatever happened in between. */
  lemma AttachIsReleased(n: Net, steps: seq<Step>, fates: int -> Fates)
    requires NetOk(n) && steps != []
    requires steps[0].HubTurn? && steps[0].attached
    requires var last := steps[|steps| - 1];
             last.HubTurn? && last.now >= steps[0].attachedAt + 50
    requires forall i :: 0 <= i < |steps| - 1 && steps[i].HubTurn? ==>
               steps[i].now < steps[0].attachedAt + 50
    ensures var r := RunNet(n, steps, fates);
            forall l :: l in r.ends ==> r.ends[l].stranded == []
  {
    var x := steps[0].attachedAt + 50;
    var before, last := steps[..|steps| - 1], steps[|steps| - 1];
    RunOk(n, before, fates);
    if |steps| == 1 {
      AttachSchedules(n, last);
    } else {
      assert before[0] == steps[0];
      AttachRemembered(n, before, fates, x);
    }
    ReachedIsReleased(RunNet(n, before, fates), last, x);
  }
}
