/** Runs of the transport: what every step keeps, with messages in flight. */
module TransportRuns {
  import opened Prelude
  import opened Publisher
  import opened PublisherRuns
  import opened PublisherGuarantees
  import opened Hub
  import opened Transport

  // ----- The invariant ------------------------------------------------------

  /** Each publisher's set, with what is still in its pipe applied, is the XSUB's. */
  ghost predicate EndsAgree(ends: map<int, End>, topics: set<string>) {
    forall l :: l in ends ==>
      ends[l].pub.connected && Applied(ends[l].pub.subs, ends[l].inbox + ends[l].stranded) == topics
  }

  ghost predicate NetOk(n: Net) {
    && n.refs == n.hub.counts
    && (forall t :: t in n.refs ==> n.refs[t] >= 1)
    && (forall t :: t in n.holders ==> n.holders[t] != {})
    && Applied(n.refs.Keys, n.toHub) == n.holders.Keys
    && EndsAgree(n.ends, n.refs.Keys)
  }

  lemma {:induction false} AppliedConcat(s: set<string>, a: seq<string>, b: seq<string>)
    ensures Applied(s, a + b) == Applied(Applied(s, a), b)
  {
    if b == [] {
      assert a + b == a;
    } else {
      AppliedConcat(s, a, b[..|b| - 1]);
      assert (a + b)[..|a + b| - 1] == a + b[..|b| - 1];
    }
  }

  lemma AppliedOne(s: set<string>, topic: string)
    ensures Applied(s, [SubFrame(topic)]) == s + {topic}
    ensures Applied(s, [UnsubFrame(topic)]) == s - {topic}
  {
    assert [SubFrame(topic)][..0] == [] && [UnsubFrame(topic)][..0] == [];
    assert SubFrame(topic)[1..] == topic && UnsubFrame(topic)[1..] == topic;
  }

  lemma AppliedHead(s: set<string>, ms: seq<string>)
    requires ms != []
    ensures Applied(s, ms) == Applied(Applied(s, [ms[0]]), ms[1..])
  {
    assert ms == [ms[0]] + ms[1..];
    AppliedConcat(s, [ms[0]], ms[1..]);
  }

  lemma {:induction false} AppliedReplay(topics: seq<string>)
    ensures forall t :: t in Applied({}, SubFrames(topics)) <==> t in topics
  {
    if topics != [] {
      var ts, t := topics[..|topics| - 1], topics[|topics| - 1];
      AppliedReplay(ts);
      AppliedConcat({}, SubFrames(ts), [SubFrame(t)]);
      AppliedOne(Applied({}, SubFrames(ts)), t);
      assert topics == ts + [t];
    }
  }

  lemma BroadcastAgrees(ends: map<int, End>, topics: set<string>, m: string)
    requires EndsAgree(ends, topics)
    ensures EndsAgree(Broadcast(ends, m), Applied(topics, [m]))
  {
    forall l | l in ends
      ensures Applied(ends[l].pub.subs, ends[l].inbox + ends[l].stranded + [m]) == Applied(topics, [m])
    {
      AppliedConcat(ends[l].pub.subs, ends[l].inbox + ends[l].stranded, [m]);
    }
    forall l | l in ends
      ensures var e := Broadcast(ends, m)[l]; e.inbox + e.stranded == ends[l].inbox + ends[l].stranded + [m]
    {
    }
  }

  // ----- Writes keep it -----------------------------------------------------

  lemma SubWritten(n: Net, topic: string)
    requires EndsAgree(n.ends, n.refs.Keys)
    ensures var r := Written(n, SubFrame(topic));
            && r == n.(refs := n.refs[topic := CountOf(n.refs, topic) + 1], ends := Broadcast(n.ends, SubFrame(topic)))
            && EndsAgree(r.ends, r.refs.Keys)
  {
    assert SubFrame(topic)[1..] == topic;
    BroadcastAgrees(n.ends, n.refs.Keys, SubFrame(topic));
    AppliedOne(n.refs.Keys, topic);
    assert n.refs[topic := CountOf(n.refs, topic) + 1].Keys == n.refs.Keys + {topic};
  }

  /** As many unsubscribes as the count holds: the last one, and only it, goes out. */
  lemma {:induction false} UnsubsWritten(n: Net, topic: string, k: nat)
    requires k == Max(CountOf(n.refs, topic), 1) && (topic in n.refs ==> n.refs[topic] >= 1)
    ensures AllWritten(n, seq(k, _ => UnsubFrame(topic))) ==
            if topic in n.refs
            then n.(refs := n.refs - {topic}, ends := Broadcast(n.ends, UnsubFrame(topic)))
            else n
    decreases k
  {
    var frames := seq(k, _ => UnsubFrame(topic));
    assert UnsubFrame(topic)[1..] == topic;
    if k == 1 {
      assert frames[1..] == [];
    } else {
      assert frames[1..] == seq(k - 1, _ => UnsubFrame(topic));
      var m := Written(n, frames[0]);
      UnsubsWritten(m, topic, k - 1);
      assert m.refs - {topic} == n.refs - {topic};
    }
  }

  lemma UnsubsAgree(n: Net, topic: string)
    requires EndsAgree(n.ends, n.refs.Keys) && topic in n.refs
    ensures EndsAgree(Broadcast(n.ends, UnsubFrame(topic)), (n.refs - {topic}).Keys)
  {
    BroadcastAgrees(n.ends, n.refs.Keys, UnsubFrame(topic));
    AppliedOne(n.refs.Keys, topic);
    assert (n.refs - {topic}).Keys == n.refs.Keys - {topic};
  }

  ghost predicate UpstreamOk(n: Net) {
    && (forall t :: t in n.refs ==> n.refs[t] >= 1)
    && EndsAgree(n.ends, n.refs.Keys)
  }

  /** After forwarding one backend message the XSUB's counts are the mirror's, and its set
      of topics has changed as that one message says. */
  ghost predicate Follows(n: Net, message: string) {
    var (counts, frames) := Decided(n.refs, message);
    var r := AllWritten(n, frames);
    && r == n.(refs := counts, ends := r.ends)
    && UpstreamOk(r)
    && r.ends.Keys == n.ends.Keys
    && counts.Keys == Applied(n.refs.Keys, [message])
  }

  lemma SubscribeFollowed(n: Net, topic: string)
    requires UpstreamOk(n)
    ensures Follows(n, SubFrame(topic))
  {
    var m := SubFrame(topic);
    assert m[1..] == topic && m != "";
    SubWritten(n, topic);
    var frames := [m];
    assert frames[1..] == [] && frames[..0] == [];
    assert AllWritten(n, frames) == AllWritten(Written(n, m), []);
  }

  lemma UnsubscribeFollowed(n: Net, topic: string)
    requires UpstreamOk(n)
    ensures Follows(n, UnsubFrame(topic))
  {
    var m := UnsubFrame(topic);
    assert m[1..] == topic && m != "";
    var one := [m];
    assert one[..0] == [];
    UnsubsWritten(n, topic, Max(CountOf(n.refs, topic), 1));
    if topic in n.refs {
      UnsubsAgree(n, topic);
    } else {
      assert n.refs - {topic} == n.refs;
    }
  }

  /** Forwarding one backend message: the XSUB follows the mirror exactly, whatever the
      message is. */
  lemma DecisionWritten(n: Net, message: string)
    requires UpstreamOk(n)
    ensures Follows(n, message)
  {
    assert [message][..0] == [];
    if message != "" && message[0] == SUB {
      assert message == SubFrame(message[1..]);
      SubscribeFollowed(n, message[1..]);
    } else if message != "" && message[0] == UNSUB {
      assert message == UnsubFrame(message[1..]);
      UnsubscribeFollowed(n, message[1..]);
    }
  }

  /** A wake leaves every count as it was, and every pipe without stranded messages. */
  lemma WakeWritten(n: Net)
    requires UpstreamOk(n)
    ensures var r := AllWritten(n, [SubFrame(WAKE_TOPIC), UnsubFrame(WAKE_TOPIC)]);
            && r == n.(ends := r.ends)
            && UpstreamOk(r)
            && r.ends.Keys == n.ends.Keys
            && forall l :: l in r.ends ==> r.ends[l].stranded == []
  {
    var frames := [SubFrame(WAKE_TOPIC), UnsubFrame(WAKE_TOPIC)];
    var a := Written(n, frames[0]);
    SubWritten(n, WAKE_TOPIC);
    assert frames[1..] == [UnsubFrame(WAKE_TOPIC)] && frames[1..][1..] == [];
    var b := Written(a, frames[1]);
    assert AllWritten(n, frames) == AllWritten(a, frames[1..]) == AllWritten(b, []) == b;
    assert UnsubFrame(WAKE_TOPIC)[1..] == WAKE_TOPIC;
    if WAKE_TOPIC in n.refs {
      assert b.refs == n.refs;
      assert a.refs.Keys == n.refs.Keys;
    } else {
      UnsubsAgree(a, WAKE_TOPIC);
      assert b.refs == n.refs;
    }
  }

  lemma {:induction false} AllWrittenConcat(n: Net, a: seq<string>, b: seq<string>)
    ensures AllWritten(n, a + b) == AllWritten(AllWritten(n, a), b)
    decreases |a|
  {
    if a == [] {
      assert a + b == b;
    } else {
      assert (a + b)[0] == a[0] && (a + b)[1..] == a[1..] + b;
      AllWrittenConcat(Written(n, a[0]), a[1..], b);
    }
  }

  // ----- Every step keeps it ------------------------------------------------

  lemma SubscribingOk(n: Net, c: int, topic: string)
    requires NetOk(n)
    ensures NetOk(Subscribing(n, c, topic))
  {
    AppliedConcat(n.refs.Keys, n.toHub, [SubFrame(topic)]);
    AppliedOne(n.holders.Keys, topic);
    assert Subscribing(n, c, topic).holders.Keys == n.holders.Keys + {topic};
  }

  lemma UnsubscribingOk(n: Net, c: int, topic: string)
    requires NetOk(n)
    ensures NetOk(Unsubscribing(n, c, topic))
  {
    AppliedConcat(n.refs.Keys, n.toHub, [UnsubFrame(topic)]);
    AppliedOne(n.holders.Keys, topic);
    if topic in n.holders && c in n.holders[topic] && n.holders[topic] != {c} {
      var r := Unsubscribing(n, c, topic);
      assert r.holders.Keys == n.holders.Keys;
      assert r.holders[topic] != {};
    }
  }

  lemma {:induction false} LeavingOk(n: Net, c: int, held: seq<string>)
    requires NetOk(n)
    ensures NetOk(Leaving(n, c, held))
    decreases |held|
  {
    if held != [] {
      UnsubscribingOk(n, c, held[0]);
      LeavingOk(Unsubscribing(n, c, held[0]), c, held[1..]);
    }
  }

  /** Once its pipe is gone a consumer holds nothing. */
  lemma {:induction false} LeavingForgets(n: Net, c: int, held: seq<string>)
    requires forall t :: t in n.holders && c in n.holders[t] ==> t in held
    ensures forall t :: t in Leaving(n, c, held).holders ==> c !in Leaving(n, c, held).holders[t]
    decreases |held|
  {
    if held != [] {
      var m := Unsubscribing(n, c, held[0]);
      forall t | t in m.holders && c in m.holders[t] ensures t in held[1..] {
        assert t in n.holders && c in n.holders[t];
        assert t != held[0];
        assert held == [held[0]] + held[1..];
      }
      LeavingForgets(m, c, held[1..]);
    }
  }

  lemma AttachOk(n: Net, l: int, process: Pub, replay: seq<string>)
    requires NetOk(n) && forall t :: t in replay <==> t in n.refs
    requires Deaf(process) && process.connected
    ensures NetOk(n.(ends := n.ends[l := End(process, [], SubFrames(replay))]))
  {
    AppliedReplay(replay);
    EndsAgreeExtend(n.ends, n.refs.Keys, l, End(process, [], SubFrames(replay)));
  }

  lemma EndsAgreeExtend(ends: map<int, End>, topics: set<string>, l: int, e: End)
    requires EndsAgree(ends, topics) && e.pub.connected && e.inbox == []
    requires Applied(e.pub.subs, e.stranded) == topics
    ensures EndsAgree(ends[l := e], topics)
  {
    assert e.inbox + e.stranded == e.stranded;
  }

  /** One turn of the hub: mirror and counts stay equal through the forwarded message
      and the wake, and a turn whose wake fires leaves nothing stranded. */
  lemma TurnOk(n: Net, s: Step)
    requires NetOk(n) && s.HubTurn?
    ensures NetOk(HubTurning(n, s))
    ensures HubTurning(n, s).hub == Turned(n.hub, FOLLOW_UP_DELAYS, TurnOf(n, s)).0
    ensures HubTurning(n, s).ends.Keys == n.ends.Keys
    ensures HubTurning(n, s).holders == n.holders
    ensures HubTurning(n, s).toHub == if s.take && n.toHub != [] then n.toHub[1..] else n.toHub
    ensures Fires(n, s) ==> forall l :: l in HubTurning(n, s).ends ==> HubTurning(n, s).ends[l].stranded == []
  {
    var t := TurnOf(n, s);
    var (hub, written) := Turned(n.hub, FOLLOW_UP_DELAYS, t);
    var frames := if t.message.Some? then Decided(n.hub.counts, t.message.value).1 else [];
    var m := n.(hub := hub, toHub := if t.message.Some? then n.toHub[1..] else n.toHub);
    if t.message.Some? {
      DecisionWritten(m, t.message.value);
      AppliedHead(n.refs.Keys, n.toHub);
    }
    var a := AllWritten(m, frames);
    assert NetOk(a);
    if Fires(n, s) {
      AllWrittenConcat(m, frames, [SubFrame(WAKE_TOPIC), UnsubFrame(WAKE_TOPIC)]);
      WakeWritten(a);
    }
  }

  /** The entries due in a turn, before its pop. */
  function DueIn(n: Net, s: Step): seq<int>
    requires s.HubTurn?
  {
    var due := if TurnOf(n, s).message.Some? then n.hub.due + Offsets(FOLLOW_UP_DELAYS, s.messageAt) else n.hub.due;
    if s.attached then due + Offsets(FOLLOW_UP_DELAYS, s.attachedAt) else due
  }

  predicate Fires(n: Net, s: Step)
    requires s.HubTurn?
  {
    |Remaining(DueIn(n, s), s.now)| != |DueIn(n, s)|
  }

  lemma CallSubs(p: Pub, c: Call, fates: Fates)
    requires p.connected && !c.ShutdownCall? && true !in InboxOf(c).monitor
    ensures var r := Exec(p, c, fates).0;
            r.connected && r.subs == if Drains(p, c) then Applied(p.subs, InboxOf(c).messages) else p.subs
  {
    if Drains(p, c) {
      var d := Drained(p, InboxOf(c), fates);
      DrainedSubs(p, InboxOf(c), fates);
      DrainedEndpoint(p, InboxOf(c), fates);
      match c
      case InitCall(_, id, _, _, _) =>
        InitialisedSession(d, id.value, fates);
        InitialisedSubs(d, id.value, fates);
      case PublishCall(id, _, _) =>
        PublishedSession(d, id.value, fates);
        PublishedSubs(d, id.value, fates);
    }
  }

  lemma InitialisedSubs(p: Pub, id: Ident, fates: Fates)
    ensures Initialised(p, id, fates).0.subs == p.subs
  {
    var (q, i) := Placed(p, id);
    HelloMembers(q, i, fates);
  }

  lemma PublishedSubs(p: Pub, id: Ident, fates: Fates)
    ensures Published(p, id, fates).0.subs == p.subs
  {
    var q := Prepared(p, id);
    PairOutcome(q, id.symbol, PointFrame(q, id), fates);
  }

  lemma CallOk(n: Net, l: int, c: Call, read: nat, fates: int -> Fates)
    requires NetOk(n) && Enabled(n, PublisherCall(l, c, read))
    ensures NetOk(Stepped(n, PublisherCall(l, c, read), fates))
  {
    var e := n.ends[l];
    CallSubs(e.pub, c, fates(l));
    var r := e.(pub := Exec(e.pub, c, fates(l)).0, inbox := if Drains(e.pub, c) then e.inbox[read..] else e.inbox);
    if Drains(e.pub, c) {
      ReadAgrees(e.pub.subs, e.inbox, read, e.stranded);
    }
    assert Applied(r.pub.subs, r.inbox + r.stranded) == n.refs.Keys;
    EndReplaced(n, l, r);
  }

  /** Messages move from the pipe into the set; what both amount to stays. */
  lemma ReadAgrees(subs: set<string>, inbox: seq<string>, read: nat, stranded: seq<string>)
    requires read <= |inbox|
    ensures Applied(Applied(subs, inbox[..read]), inbox[read..] + stranded) == Applied(subs, inbox + stranded)
  {
    AppliedConcat(subs, inbox[..read], inbox[read..] + stranded);
    assert inbox[..read] + (inbox[read..] + stranded) == inbox + stranded;
  }

  lemma EndReplaced(n: Net, l: int, r: End)
    requires NetOk(n) && r.pub.connected && Applied(r.pub.subs, r.inbox + r.stranded) == n.refs.Keys
    ensures NetOk(n.(ends := n.ends[l := r]))
  {
  }

  /** A process that no pipe has reached yet knows of no subscription, whatever it has
      been called for: just what may attach. */
  lemma {:induction false} UnattachedHearsNothing(calls: seq<Call>, fates: Fates)
    requires forall c :: c in calls ==> InboxOf(c).messages == []
    ensures Deaf(Run(COLD, calls, fates))
  {
    if calls != [] {
      var rest, c := calls[..|calls| - 1], calls[|calls| - 1];
      assert calls == rest + [c];
      UnattachedHearsNothing(rest, fates);
      UnattachedCall(Run(COLD, rest, fates), c, fates);
    }
  }

  lemma UnattachedCall(p: Pub, c: Call, fates: Fates)
    requires Deaf(p) && InboxOf(c).messages == []
    ensures Deaf(Exec(p, c, fates).0)
  {
    match c
    case InitCall(endpoint, id, connectable, sid, inbox) =>
      if endpoint.Some? && id.Some? {
        var q := if p.connected then p else Connected(p, endpoint.value, sid);
        DrainedSubs(q, inbox, fates);
        InitialisedSubs(Drained(q, inbox, fates), id.value, fates);
      }
    case PublishCall(id, narrow, inbox) =>
      if id.Some? && p.connected {
        DrainedSubs(p, inbox, fates);
        PublishedSubs(Drained(p, inbox, fates), id.value, fates);
      }
    case ShutdownCall =>
  }

  lemma StepOk(n: Net, s: Step, fates: int -> Fates)
    requires NetOk(n)
    ensures NetOk(Stepped(n, s, fates))
  {
    if Enabled(n, s) {
      match s
      case Subscribe(c, t) => SubscribingOk(n, c, t);
      case Unsubscribe(c, t) => UnsubscribingOk(n, c, t);
      case ConsumerGone(c, held) => LeavingOk(n, c, held);
      case Attach(l, process, replay) => AttachOk(n, l, process, replay);
      case Depart(_) =>
      case HubTurn(_, _, _, _, _) => TurnOk(n, s);
      case PublisherCall(l, c, read) => CallOk(n, l, c, read, fates);
    }
  }

  /** In every run, between loop turns the mirror equals the XSUB's counts, and every
      set in the system agrees once the messages in flight are applied. */
  lemma {:induction false} RunOk(n: Net, steps: seq<Step>, fates: int -> Fates)
    requires NetOk(n)
    ensures NetOk(RunNet(n, steps, fates))
  {
    if steps != [] {
      RunOk(n, steps[..|steps| - 1], fates);
      StepOk(RunNet(n, steps[..|steps| - 1], fates), steps[|steps| - 1], fates);
    }
  }
}
