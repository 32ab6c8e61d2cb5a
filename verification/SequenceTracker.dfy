/** Gap detection: the per-(session, topic) sequence tracker, and what the one
    number it publishes, `messages_lost`, means for a whole stream of messages. */
module SequenceTracking {
  import opened Prelude

  /** A stream is one topic of one publisher session. */
  datatype Stream = Stream(sid: int, topic: string)
  datatype Obs = Obs(stream: Stream, number: int)

  datatype Tracker = Tracker(
    sids: map<string, set<int>>,
    expected: map<Stream, int>,
    lost: int)

  const FRESH := Tracker(map[], map[], 0)

  /** One message observed. */
  function Observed(t: Tracker, o: Obs): Tracker {
    var k := o.stream;
    var seen := if k.topic in t.sids then t.sids[k.topic] else {};
    var sids := t.sids[k.topic := seen + {k.sid}];
    if k !in t.expected then Tracker(sids, t.expected[k := o.number + 1], t.lost)
    else if o.number < t.expected[k] then Tracker(sids, t.expected, t.lost)
    else Tracker(sids, t.expected[k := o.number + 1], t.lost + o.number - t.expected[k])
  }

  function Run(h: seq<Obs>): Tracker {
    if h == [] then FRESH else Observed(Run(h[..|h| - 1]), h[|h| - 1])
  }

  class SequenceTracker {
    var sidsByTopic: map<string, set<int>>
    var expected: map<Stream, int>
    var messagesLost: int

    ghost function State(): Tracker
      reads this
    {
      Tracker(sidsByTopic, expected, messagesLost)
    }

    constructor ()
      ensures State() == FRESH
    {
      sidsByTopic := map[];
      expected := map[];
      messagesLost := 0;
    }

    predicate GapDetectionAvailable()
      reads this
    {
      sidsByTopic != map[]
    }

    method Observe(topic: string, number: int, sid: int)
      modifies this
      ensures State() == Observed(old(State()), Obs(Stream(sid, topic), number))
    {
      if topic !in sidsByTopic {
        sidsByTopic := sidsByTopic[topic := {}];
      }
      if sid !in sidsByTopic[topic] {
        sidsByTopic := sidsByTopic[topic := sidsByTopic[topic] + {sid}];
      }
      assert sidsByTopic[topic] + {sid} == sidsByTopic[topic];
      var key := Stream(sid, topic);
      if key !in expected {
        expected := expected[key := number + 1];
        return;
      }
      var was := expected[key];
      expected := expected[key := number + 1];
      if number == was {
        return;
      }
      if number < was {
        // A duplicate or a replay: the expectation is not rewound.
        expected := expected[key := was];
        return;
      }
      messagesLost := messagesLost + (number - was);
    }
  }

  // ----- One stream ---------------------------------------------------------

  ghost function MaxOf(p: seq<int>): int
    requires p != []
  {
    if |p| == 1 then p[0] else Max(MaxOf(p[..|p| - 1]), p[|p| - 1])
  }

  /** The numbers between the first and the highest observed that never arrived. */
  ghost function Missing(p: seq<int>): set<int>
    requires p != []
  {
    set n | n in Range(p[0], MaxOf(p) + 1) && n !in p
  }

  /** `x` arrives for the first time after a higher number has. */
  ghost predicate Fills(q: seq<int>, x: int)
    requires q != []
  {
    x !in q && q[0] < x < MaxOf(q)
  }

  /** Numbers whose first copy arrived only after a higher one had. */
  ghost function Late(p: seq<int>): set<int> {
    if |p| <= 1 then {}
    else
      var q, x := p[..|p| - 1], p[|p| - 1];
      Late(q) + if Fills(q, x) then {x} else {}
  }

  /** What the tracker adds up along one stream. */
  ghost function StreamLost(p: seq<int>): int {
    if |p| <= 1 then 0
    else
      var q, x := p[..|p| - 1], p[|p| - 1];
      StreamLost(q) + Max(x - (MaxOf(q) + 1), 0)
  }

  lemma {:induction false} MaxOfBounds(p: seq<int>)
    requires p != []
    ensures MaxOf(p) in p
    ensures forall x :: x in p ==> x <= MaxOf(p)
  {
    if |p| > 1 {
      MaxOfBounds(p[..|p| - 1]);
      assert p == p[..|p| - 1] + [p[|p| - 1]];
    }
  }

  lemma {:induction false} LateArrived(p: seq<int>)
    ensures forall x :: x in Late(p) ==> x in p
  {
    if |p| > 1 {
      LateArrived(p[..|p| - 1]);
    }
  }

  lemma MissingAbove(q: seq<int>, x: int)
    requires q != [] && x > MaxOf(q)
    ensures Missing(q + [x]) == Missing(q) + Range(MaxOf(q) + 1, x)
    ensures Missing(q) !! Range(MaxOf(q) + 1, x)
  {
    MaxOfBounds(q);
    var p, m := q + [x], MaxOf(q);
    assert p[..|q|] == q;
    assert MaxOf(p) == x;
    assert p[0] == q[0] && q[0] in q;
    var gap := Range(m + 1, x);
    forall n ensures n in Missing(p) <==> n in Missing(q) + gap {
      assert n in p <==> n in q || n == x;
      if n in gap {
        assert n !in q;
      }
    }
  }

  lemma MissingBelow(q: seq<int>, x: int)
    requires q != [] && x <= MaxOf(q)
    ensures |Missing(q + [x])| == |Missing(q)| - if Fills(q, x) then 1 else 0
  {
    MaxOfBounds(q);
    var p, m := q + [x], MaxOf(q);
    assert p[..|q|] == q;
    assert MaxOf(p) == m;
    assert Missing(p) == Missing(q) - {x};
    assert x in Missing(q) <==> Fills(q, x);
  }

  /** One more number adds to the stream's loss what it adds to missing and late. */
  lemma ExactStep(q: seq<int>, x: int)
    requires q != []
    ensures Max(x - (MaxOf(q) + 1), 0) ==
            |Missing(q + [x])| - |Missing(q)| + if Fills(q, x) then 1 else 0
  {
    if x > MaxOf(q) {
      MissingAbove(q, x);
      MaxOfBounds(q);
      RangeSize(MaxOf(q) + 1, x);
      assert |Missing(q + [x])| == |Missing(q)| + |Range(MaxOf(q) + 1, x)|;
    } else {
      MissingBelow(q, x);
    }
  }

  /** Exact loss on one stream, whatever arrives in whatever order. */
  lemma {:induction false} StreamLossExact(p: seq<int>)
    requires p != []
    ensures StreamLost(p) == |Missing(p)| + |Late(p)|
  {
    if |p| == 1 {
      assert Missing(p) == {};
    } else {
      var q, x := p[..|p| - 1], p[|p| - 1];
      StreamLossExact(q);
      assert p == q + [x];
      LateArrived(q);
      ExactStep(q, x);
    }
  }

  /** No number is seen for the first time after a higher one (below the baseline
      excepted). Per-publisher FIFO with drops and replays always satisfies this. */
  ghost predicate InOrder(p: seq<int>) {
    forall i :: 1 <= i < |p| ==> !Fills(p[..i], p[i])
  }

  lemma {:induction false} InOrderIffNothingLate(p: seq<int>)
    ensures InOrder(p) <==> Late(p) == {}
  {
    if |p| > 1 {
      var q, x := p[..|p| - 1], p[|p| - 1];
      InOrderIffNothingLate(q);
      assert forall i :: 1 <= i < |q| ==> q[..i] == p[..i];
    }
  }

  /** The counter equals the number of messages that never arrived exactly when the
      stream was in order. */
  lemma LossIsMissingIffInOrder(p: seq<int>)
    requires p != []
    ensures StreamLost(p) == |Missing(p)| <==> InOrder(p)
  {
    StreamLossExact(p);
    InOrderIffNothingLate(p);
  }

  // ----- Many streams on one socket -----------------------------------------

  function Project(h: seq<Obs>, k: Stream): seq<int> {
    if h == [] then []
    else
      var r := Project(h[..|h| - 1], k);
      if h[|h| - 1].stream == k then r + [h[|h| - 1].number] else r
  }

  ghost function StreamsOf(h: seq<Obs>): set<Stream> {
    set o | o in h :: o.stream
  }

  lemma {:induction false} ProjectNonempty(h: seq<Obs>, k: Stream)
    ensures Project(h, k) != [] <==> k in StreamsOf(h)
  {
    if h != [] {
      var g, o := h[..|h| - 1], h[|h| - 1];
      assert h == g + [o];
      ProjectNonempty(g, k);
      if k in StreamsOf(h) && k !in StreamsOf(g) {
        var w :| w in h && w.stream == k;
        assert w !in g;
      }
    }
  }

  ghost function LossMap(h: seq<Obs>): map<Stream, int> {
    map k | k in StreamsOf(h) :: StreamLost(Project(h, k))
  }

  lemma LossMapExtend(g: seq<Obs>, o: Obs)
    ensures LossMap(g + [o]) ==
            LossMap(g)[o.stream := StreamLost(Project(g, o.stream) + [o.number])]
  {
    var h := g + [o];
    assert h[..|g|] == g;
    assert StreamsOf(h) == StreamsOf(g) + {o.stream};
  }

  lemma {:induction false} ExpectationsAreMaxima(h: seq<Obs>)
    ensures Run(h).expected.Keys == StreamsOf(h)
    ensures forall k :: k in StreamsOf(h) ==>
              Project(h, k) != [] && Run(h).expected[k] == MaxOf(Project(h, k)) + 1
  {
    if h != [] {
      var g, o := h[..|h| - 1], h[|h| - 1];
      assert h == g + [o];
      ExpectationsAreMaxima(g);
      assert StreamsOf(h) == StreamsOf(g) + {o.stream};
      ProjectNonempty(g, o.stream);
      var q := Project(g, o.stream);
      assert (q + [o.number])[..|q|] == q;
    }
  }

  /** One more message adds to the counter exactly what it adds to its own stream. */
  lemma StepLoss(g: seq<Obs>, o: Obs)
    ensures Observed(Run(g), o).lost - Run(g).lost ==
            StreamLost(Project(g, o.stream) + [o.number]) -
            if o.stream in StreamsOf(g) then StreamLost(Project(g, o.stream)) else 0
  {
    ExpectationsAreMaxima(g);
    ProjectNonempty(g, o.stream);
    var q := Project(g, o.stream);
    assert (q + [o.number])[..|q|] == q;
  }

  /** The tracker after any interleaving: its counter is the sum of the streams' own
      losses. */
  lemma {:induction false} TrackerIsSumOfStreams(h: seq<Obs>)
    ensures Run(h).lost == SumMap(LossMap(h))
  {
    if h == [] {
      assert LossMap(h) == map[];
    } else {
      var g, o := h[..|h| - 1], h[|h| - 1];
      var k := o.stream;
      assert h == g + [o];
      TrackerIsSumOfStreams(g);
      LossMapExtend(g, o);
      SumMapUpdate(LossMap(g), k, StreamLost(Project(g, k) + [o.number]));
      StepLoss(g, o);
    }
  }

  lemma {:induction false} SidsSeen(h: seq<Obs>)
    ensures forall k :: k in StreamsOf(h) <==> k.topic in Run(h).sids && k.sid in Run(h).sids[k.topic]
  {
    if h != [] {
      var g, o := h[..|h| - 1], h[|h| - 1];
      assert h == g + [o];
      SidsSeen(g);
      assert StreamsOf(h) == StreamsOf(g) + {o.stream};
      assert forall k: Stream :: k == Stream(k.sid, k.topic);
    }
  }

  /** The counter depends on each stream's own numbers only: any two interleavings of
      the same streams report the same loss. */
  lemma InterleavingIrrelevant(h: seq<Obs>, g: seq<Obs>)
    requires forall k :: Project(h, k) == Project(g, k)
    ensures Run(h).lost == Run(g).lost
  {
    TrackerIsSumOfStreams(h);
    TrackerIsSumOfStreams(g);
    forall k ensures k in StreamsOf(h) <==> k in StreamsOf(g) {
      ProjectNonempty(h, k);
      ProjectNonempty(g, k);
    }
    assert LossMap(h) == LossMap(g) by {
      assert StreamsOf(h) == StreamsOf(g);
    }
  }

  lemma {:induction false} RunAppend(a: seq<Obs>, b: seq<Obs>, c: seq<Obs>)
    requires Run(a) == Run(c)
    ensures Run(a + b) == Run(c + b)
  {
    if b == [] {
      assert a + b == a && c + b == c;
    } else {
      var b', o := b[..|b| - 1], b[|b| - 1];
      RunAppend(a, b', c);
      assert (a + b)[..|a + b| - 1] == a + b';
      assert (c + b)[..|c + b| - 1] == c + b';
    }
  }

  /** A duplicate or a replay, inserted anywhere in any trace, changes nothing:
      neither the counter nor any later expectation. */
  lemma ReplayIsInvisible(a: seq<Obs>, dup: Obs, b: seq<Obs>)
    requires dup.stream in StreamsOf(a)
    requires Project(a, dup.stream) != [] ==> dup.number <= MaxOf(Project(a, dup.stream))
    ensures Run(a + [dup] + b) == Run(a + b)
  {
    ExpectationsAreMaxima(a);
    SidsSeen(a);
    var s, t := Run(a), Run(a + [dup]);
    assert (a + [dup])[..|a|] == a;
    assert s.sids[dup.stream.topic] + {dup.stream.sid} == s.sids[dup.stream.topic];
    assert t == s;
    RunAppend(a + [dup], b, a);
  }
}
