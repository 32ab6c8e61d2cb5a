/** Loss accounting and the consumer's stream, end to end. */
module EndToEnd {
  import opened Prelude
  import opened SequenceTracking
  import P = Publisher
  import Runs = PublisherRuns
  import Wire = PublisherWire
  import Cases = PublisherCases
  import Provider

  /** `p` is what arrives of the numbers `w`, sent in this order: any of them may be
      dropped, none overtakes another, and any may be replayed later. */
  ghost predicate Delivery(p: seq<int>, w: seq<int>)
    decreases |p| + |w|
  {
    || p == []
    || (p[|p| - 1] in p[..|p| - 1] && Delivery(p[..|p| - 1], w))
    || (w != [] && p[|p| - 1] == w[|w| - 1] && Delivery(p[..|p| - 1], w[..|w| - 1]))
    || (w != [] && Delivery(p, w[..|w| - 1]))
  }

  lemma {:induction false} DeliveredWereSent(p: seq<int>, w: seq<int>)
    requires Delivery(p, w)
    ensures forall x :: x in p ==> x in w
    decreases |p| + |w|
  {
    if p != [] {
      var q, x := p[..|p| - 1], p[|p| - 1];
      assert p == q + [x];
      if x in q && Delivery(q, w) {
        DeliveredWereSent(q, w);
      } else if w != [] && x == w[|w| - 1] && Delivery(q, w[..|w| - 1]) {
        DeliveredWereSent(q, w[..|w| - 1]);
        assert w == w[..|w| - 1] + [x];
      } else {
        DeliveredWereSent(p, w[..|w| - 1]);
      }
    }
  }

  /** Drops and replays of an increasing sequence never look like reordering. */
  lemma {:induction false} DeliveryInOrder(p: seq<int>, w: seq<int>)
    requires Runs.Increasing(w) && Delivery(p, w)
    ensures InOrder(p)
    decreases |p| + |w|
  {
    if p != [] {
      var q, x := p[..|p| - 1], p[|p| - 1];
      assert p == q + [x];
      if x in q && Delivery(q, w) {
        DeliveryInOrder(q, w);
        InOrderExtend(q, x);
      } else if w != [] && x == w[|w| - 1] && Delivery(q, w[..|w| - 1]) {
        DeliveryInOrder(q, w[..|w| - 1]);
        DeliveredWereSent(q, w[..|w| - 1]);
        if q != [] {
          MaxOfBounds(q);
        }
        InOrderExtend(q, x);
      } else {
        DeliveryInOrder(p, w[..|w| - 1]);
      }
    }
  }

  lemma InOrderExtend(q: seq<int>, x: int)
    requires InOrder(q) && (q != [] ==> !Fills(q, x))
    ensures InOrder(q + [x])
  {
    var p := q + [x];
    assert forall i :: 1 <= i < |q| ==> p[..i] == q[..i];
    assert p[..|q|] == q;
  }

  /** Per stream, the numbers the publisher consumed between the first and the last
      that arrived, and that never arrived. */
  ghost function Unobserved(h: seq<Obs>): map<Stream, int> {
    map k | k in StreamsOf(h) && Project(h, k) != [] :: |Missing(Project(h, k))|
  }

  lemma InOrderTotal(h: seq<Obs>)
    requires forall k :: k in StreamsOf(h) ==> InOrder(Project(h, k))
    ensures Run(h).lost == SumMap(Unobserved(h))
  {
    TrackerIsSumOfStreams(h);
    forall k | k in StreamsOf(h)
      ensures Project(h, k) != [] && StreamLost(Project(h, k)) == |Missing(Project(h, k))|
    {
      ProjectNonempty(h, k);
      LossIsMissingIffInOrder(Project(h, k));
    }
    assert LossMap(h) == Unobserved(h);
  }

  /** Every stream seen comes from the wire of one of these publisher sessions. */
  ghost predicate Faithful(pubs: map<int, P.Pub>, h: seq<Obs>) {
    forall k :: k in StreamsOf(h) ==>
      k.sid in pubs && Delivery(Project(h, k), Runs.WireNumbers(pubs[k.sid].log, k.topic))
  }

  /** For any publishers in any reachable state, any drops and replays, any
      interleaving, and whatever the frames contain besides their numbers: the counter
      is the number of messages that a publisher numbered between two that arrived and
      that never arrived themselves. */
  lemma MessagesLostIsExact(pubs: map<int, P.Pub>, subscribed: set<string>, fs: seq<Provider.Frame>)
    requires forall sid :: sid in pubs ==> Runs.Inv(pubs[sid])
    requires Faithful(pubs, Provider.Numbers(subscribed, fs))
    ensures var h := Provider.Numbers(subscribed, fs);
            && Provider.RunLink(subscribed, fs).tracker.lost == SumMap(Unobserved(h))
            && forall k, n :: k in StreamsOf(h) && Project(h, k) != [] && n in Missing(Project(h, k)) ==>
                 k.sid in pubs && 1 <= n <= P.NumberOf(pubs[k.sid], k.topic)
  {
    var h := Provider.Numbers(subscribed, fs);
    Provider.RefusalNeverAffectsLoss(subscribed, fs);
    forall k | k in StreamsOf(h)
      ensures InOrder(Project(h, k))
      ensures forall n :: Project(h, k) != [] && n in Missing(Project(h, k)) ==>
                1 <= n <= P.NumberOf(pubs[k.sid], k.topic)
    {
      StreamFromWire(pubs[k.sid], k.topic, Project(h, k));
    }
    InOrderTotal(h);
  }

  lemma StreamFromWire(p: P.Pub, topic: string, seen: seq<int>)
    requires Runs.Inv(p) && Delivery(seen, Runs.WireNumbers(p.log, topic))
    ensures InOrder(seen)
    ensures forall n :: seen != [] && n in Missing(seen) ==> 1 <= n <= P.NumberOf(p, topic)
  {
    var w := Runs.WireNumbers(p.log, topic);
    assert Runs.UpTo(w, P.NumberOf(p, topic));
    DeliveryInOrder(seen, w);
    DeliveredWereSent(seen, w);
    if seen != [] {
      MaxOfBounds(seen);
      assert seen[0] in w && MaxOf(seen) in w;
    }
  }

  // ----- The stream itself --------------------------------------------------

  /** A message that arrives: the event `at` of this session's history. */
  datatype Arrival = Arrival(sid: int, at: nat)

  predicate Arrives(pubs: map<int, P.Pub>, a: Arrival) {
    a.sid in pubs && a.at < |pubs[a.sid].log| && pubs[a.sid].log[a.at].Sent?
  }

  function Carried(pubs: map<int, P.Pub>, a: Arrival): seq<P.Frame>
    requires Arrives(pubs, a)
  {
    pubs[a.sid].log[a.at].frames
  }

  /** The messages as received, frame by frame, however a frame reads at this end. */
  function Received(pubs: map<int, P.Pub>, arrivals: seq<Arrival>, read: P.Frame -> Provider.Part): (ms: seq<Provider.Message>)
    requires forall i :: 0 <= i < |arrivals| ==> Arrives(pubs, arrivals[i])
    ensures |ms| == |arrivals|
    ensures forall i :: 0 <= i < |ms| ==> |ms[i]| == |Carried(pubs, arrivals[i])|
  {
    seq(|arrivals|, i requires 0 <= i < |arrivals| && Arrives(pubs, arrivals[i]) => Read(Carried(pubs, arrivals[i]), read))
  }

  function Read(frames: seq<P.Frame>, read: P.Frame -> Provider.Part): (m: Provider.Message)
    ensures |m| == |frames|
  {
    seq(|frames|, j requires 0 <= j < |frames| => read(frames[j]))
  }

  /** The publisher was on a message boundary when it sent what arrives here. */
  predicate FromBoundary(pubs: map<int, P.Pub>, a: Arrival) {
    Arrives(pubs, a) && Runs.Stuck(pubs[a.sid].log[..a.at]) == 0
  }

  /** The consumer's loop outlives whatever arrives exactly if each message was sent with
      no terminating frame having failed since the message before it: one that was not
      ends the stream. */
  lemma StreamSurvivesExactly(pubs: map<int, P.Pub>, arrivals: seq<Arrival>, read: P.Frame -> Provider.Part)
    requires forall sid :: sid in pubs ==> Runs.Inv(pubs[sid])
    requires forall i :: 0 <= i < |arrivals| ==> Arrives(pubs, arrivals[i])
    ensures Provider.Unpackable(Received(pubs, arrivals, read)) <==>
            forall i :: 0 <= i < |arrivals| ==> FromBoundary(pubs, arrivals[i])
  {
    var ms := Received(pubs, arrivals, read);
    forall i | 0 <= i < |arrivals| ensures |ms[i]| == 2 <==> FromBoundary(pubs, arrivals[i]) {
      Wire.MessageExact(pubs[arrivals[i].sid].log, arrivals[i].at);
    }
  }

  /** So it outlives everything from sessions whose terminating frames all went out. */
  lemma CleanSessionsKeepStream(pubs: map<int, P.Pub>, arrivals: seq<Arrival>, read: P.Frame -> Provider.Part)
    requires forall sid :: sid in pubs ==> Runs.Inv(pubs[sid]) && P.CloseFailed !in pubs[sid].log
    requires forall i :: 0 <= i < |arrivals| ==> Arrives(pubs, arrivals[i])
    ensures Provider.Unpackable(Received(pubs, arrivals, read))
  {
    StreamSurvivesExactly(pubs, arrivals, read);
    forall i | 0 <= i < |arrivals| ensures FromBoundary(pubs, arrivals[i]) {
      Wire.NeverStuck(pubs[arrivals[i].sid].log[..arrivals[i].at]);
    }
  }

  /** From a cold start, a hello framed onto an abandoned one: its arrival alone ends the
      stream of any consumer. */
  lemma StrayHelloEndsStream(read: P.Frame -> Provider.Part)
    ensures var calls := [Cases.InitWith(Cases.ATTACHED), Cases.InitWith(Cases.QUIET)];
            var pubs := map[7 := Runs.Run(P.COLD, calls, Cases.ClosingFails)];
            exists at: nat :: Arrives(pubs, Arrival(7, at)) &&
              !Provider.Unpackable(Received(pubs, [Arrival(7, at)], read))
  {
    var calls := [Cases.InitWith(Cases.ATTACHED), Cases.InitWith(Cases.QUIET)];
    var p := Runs.Run(P.COLD, calls, Cases.ClosingFails);
    var pubs := map[7 := p];
    Runs.RunInv(P.COLD, calls, Cases.ClosingFails);
    Cases.AnnouncedButNotComplete();
    Wire.HelloEndedExact(p.log, Cases.CHART);
    Wire.CompleteHelloExact(p.log, Cases.CHART);
    var at :| Wire.Stands(p.log, at, Cases.CHART);
    assert !Wire.StandsWhole(p.log, at, Cases.CHART);
    var arrivals := [Arrival(7, at)];
    assert Arrives(pubs, arrivals[0]);
    StreamSurvivesExactly(pubs, arrivals, read);
    assert !FromBoundary(pubs, arrivals[0]);
  }
}
