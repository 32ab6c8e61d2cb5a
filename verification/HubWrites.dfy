/** What the hub may write upstream, in the bytes it writes. */
module HubWrites {
  import opened Prelude
  import opened Publisher
  import opened PublisherGuarantees
  import opened Hub

  // ----- Wakes --------------------------------------------------------------

  /** A turn writes its forwarded frames and then, exactly if some instant is due, a
      subscribe and an unsubscribe of the nonce; the instants due are those scheduled
      before, and 50, 300 and 1000 ms after each subscription message and each attach. */
  lemma TurnWrites(h: HubState, t: Turn)
    ensures var (g, frames) := Turned(h, FOLLOW_UP_DELAYS, t);
            var forwarded := if t.message.Some? then Decided(h.counts, t.message.value).1 else [];
            (if exists x :: Due(h, t, x) && x <= t.now
             then frames == forwarded + ["\U{1}__ts2py_wake__", "\U{0}__ts2py_wake__"]
             else frames == forwarded)
    ensures forall x :: x in Turned(h, FOLLOW_UP_DELAYS, t).0.due <==> Due(h, t, x) && x > t.now
  {
    var due1 := if t.message.Some? then h.due + Offsets(FOLLOW_UP_DELAYS, t.messageAt) else h.due;
    var due2 := if t.attached then due1 + Offsets(FOLLOW_UP_DELAYS, t.attachedAt) else due1;
    ThreeDelays(t.messageAt);
    ThreeDelays(t.attachedAt);
    assert forall x :: x in due2 <==> Due(h, t, x);
    RemainingShrinks(due2, t.now);
    assert SubFrame(WAKE_TOPIC) == "\U{1}__ts2py_wake__" && UnsubFrame(WAKE_TOPIC) == "\U{0}__ts2py_wake__";
  }

  predicate After(at: int, x: int) {
    x == at + 50 || x == at + 300 || x == at + 1000
  }

  predicate Due(h: HubState, t: Turn, x: int) {
    x in h.due || (t.message.Some? && After(t.messageAt, x)) || (t.attached && After(t.attachedAt, x))
  }

  lemma ThreeDelays(at: int)
    ensures forall x :: x in Offsets(FOLLOW_UP_DELAYS, at) <==> After(at, x)
  {
    var o := Offsets(FOLLOW_UP_DELAYS, at);
    assert o[0] == at + 50 && o[1] == at + 300 && o[2] == at + 1000;
  }

  /** The nonce reaches nobody: whatever of a wake a publisher has read, its charts are as
      they were, announced or not, and it hears the control topic, and every symbol that
      does not begin with the nonce, exactly as before. */
  lemma WakeIsInert(h: HubState, t: Turn, p: Pub, read: nat)
    requires t.message.None? && read <= |Turned(h, FOLLOW_UP_DELAYS, t).1|
    ensures var q := AllNotified(p, Turned(h, FOLLOW_UP_DELAYS, t).1[..read]);
            && q.charts == p.charts
            && (Heard(q.subs, "__ts2py__") <==> Heard(p.subs, "__ts2py__"))
            && forall symbol :: !("__ts2py_wake__" <= symbol) ==> (Heard(q.subs, symbol) <==> Heard(p.subs, symbol))
  {
    TurnWrites(h, t);
    var frames := Turned(h, FOLLOW_UP_DELAYS, t).1;
    var sub, unsub := "\U{1}__ts2py_wake__", "\U{0}__ts2py_wake__";
    assert sub[1..] == "__ts2py_wake__" && unsub[1..] == "__ts2py_wake__";
    assert !("__ts2py_wake__" <= "__ts2py__");
    assert [] + [sub, unsub] == [sub, unsub];
    if read == 1 {
      assert frames[..1] == [sub];
      WakeRead(p, sub);
    } else if read == 2 {
      assert frames[..2][..1] == [sub] && frames[..2] == frames;
      WakeRead(p, sub);
    }
  }

  lemma WakeRead(p: Pub, sub: string)
    requires sub == "\U{1}__ts2py_wake__"
    ensures var q := AllNotified(p, [sub]);
            && q.charts == p.charts && q.subs == p.subs + {"__ts2py_wake__"}
  {
    var one := [sub];
    assert one[..0] == [];
    assert sub[1..] == "__ts2py_wake__";
    assert !Covers("__ts2py_wake__", CONTROL_TOPIC);
  }

  // ----- Forwarding ---------------------------------------------------------

  /** The mirror after these backend messages. */
  function Mirror(ms: seq<string>): map<string, nat> {
    if ms == [] then map[] else Decided(Mirror(ms[..|ms| - 1]), ms[|ms| - 1]).0
  }

  /** How often a topic has been subscribed to since it was last unsubscribed from. */
  function Pending(ms: seq<string>, topic: string): nat {
    if ms == [] then 0
    else if ms[|ms| - 1] == "\U{0}" + topic then 0
    else Pending(ms[..|ms| - 1], topic) + if ms[|ms| - 1] == "\U{1}" + topic then 1 else 0
  }

  lemma {:induction false} MirrorCounts(ms: seq<string>, topic: string)
    ensures CountOf(Mirror(ms), topic) == Pending(ms, topic)
  {
    if ms != [] {
      var m := ms[|ms| - 1];
      MirrorCounts(ms[..|ms| - 1], topic);
      if m != "" {
        assert m == [m[0]] + m[1..];
      }
      assert ("\U{0}" + topic)[1..] == topic && ("\U{1}" + topic)[1..] == topic;
    }
  }

  /** What one more backend message makes the hub write, after any history: a subscribe
      goes up as it came, once; an unsubscribe once for every subscribe that has gone up
      for its topic since the last, and at least once; anything else not at all. */
  lemma ForwardedExactly(ms: seq<string>, m: string)
    ensures var frames := Decided(Mirror(ms), m).1;
            && (m != "" && m[0] == '\U{1}' ==> frames == [m])
            && (m != "" && m[0] == '\U{0}' ==>
                  && |frames| == (if Pending(ms, m[1..]) >= 1 then Pending(ms, m[1..]) else 1)
                  && forall i :: 0 <= i < |frames| ==> frames[i] == m)
            && (m == "" || (m[0] != '\U{1}' && m[0] != '\U{0}') ==> frames == [])
  {
    if m != "" {
      MirrorCounts(ms, m[1..]);
      assert m == [m[0]] + m[1..];
    }
  }
}
