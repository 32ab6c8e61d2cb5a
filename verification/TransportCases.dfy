/** A run of the transport that shows why agreement after a drain has its condition. */
module TransportCases {
  import opened Prelude
  import opened Publisher
  import opened PublisherRuns
  import opened PublisherGuarantees
  import opened Hub
  import opened Transport
  import opened TransportRuns
  import opened TransportGuarantees

  const SESSION := Connected(COLD, "hub", 7)

  /** A publisher attaches, a consumer subscribes, and the hub forwards it. */
  const SUBSCRIBED: seq<Step> := [
    Attach(0, SESSION, []),
    Subscribe(1, CONTROL_TOPIC),
    HubTurn(true, false, 0, 0, 0)]

  lemma Forwarded(fates: int -> Fates)
    ensures var n := RunNet(QUIET, SUBSCRIBED, fates);
            && n.holders == map[CONTROL_TOPIC := {1}] && n.toHub == []
            && 0 in n.ends && n.ends[0] == End(SESSION, [SubFrame(CONTROL_TOPIC)], [])
  {
    var steps := SUBSCRIBED;
    assert steps[..2][..1] == steps[..1] && steps[..1][..0] == [];
    var n1 := QUIET.(ends := map[0 := End(SESSION, [], [])]);
    assert SubFrames([]) == [];
    assert Stepped(QUIET, steps[0], fates) == n1;
    assert RunNet(QUIET, steps[..1][..0], fates) == QUIET;
    assert RunNet(QUIET, steps[..1], fates) == n1;
    var n2 := n1.(holders := map[CONTROL_TOPIC := {1}], toHub := [SubFrame(CONTROL_TOPIC)]);
    assert Stepped(n1, steps[1], fates) == n2 by {
      assert {} + {1} == {1};
    }
    assert RunNet(QUIET, steps[..2], fates) == n2;
    assert RunNet(QUIET, steps, fates) == HubTurning(n2, steps[2]);
    OneTurn(n2, steps[2]);
  }

  lemma OneTurn(n: Net, s: Step)
    requires s == HubTurn(true, false, 0, 0, 0)
    requires n == QUIET.(ends := map[0 := End(SESSION, [], [])],
                         holders := map[CONTROL_TOPIC := {1}], toHub := [SubFrame(CONTROL_TOPIC)])
    ensures var r := HubTurning(n, s);
            && r.holders == n.holders && r.toHub == []
            && 0 in r.ends && r.ends[0] == End(SESSION, [SubFrame(CONTROL_TOPIC)], [])
  {
    var m := SubFrame(CONTROL_TOPIC);
    assert m[1..] == CONTROL_TOPIC && m[0] == SUB && m != "";
    var due := [] + Offsets(FOLLOW_UP_DELAYS, 0);
    RemainingShrinks(due, 0);
    assert forall i :: 0 <= i < |due| ==> due[i] > 0;
    var (hub, frames) := Turned(n.hub, FOLLOW_UP_DELAYS, TurnOf(n, s));
    assert frames == [m];
    var q := n.(hub := hub, toHub := n.toHub[1..]);
    assert AllWritten(q, [m]) == AllWritten(Written(q, m), []);
    assert [] + [] + [m] == [m];
  }

  /** The subscribe and a disconnect reach the publisher in one drain: a consumer still
      holds the topic, nothing is in flight, and the publisher knows of no subscription. */
  lemma FreshSubscribeDropped(fates: int -> Fates)
    ensures var n := RunNet(QUIET, SUBSCRIBED, fates);
            && n.toHub == [] && 0 in n.ends && n.ends[0].stranded == [] && n.holders.Keys == {CONTROL_TOPIC}
            && Drained(n.ends[0].pub, Inbox(n.ends[0].inbox, true, [true]), fates(0)).subs == {}
  {
    Forwarded(fates);
    var e := RunNet(QUIET, SUBSCRIBED, fates).ends[0];
    DrainedSubs(e.pub, Inbox(e.inbox, true, [true]), fates(0));
  }
}
