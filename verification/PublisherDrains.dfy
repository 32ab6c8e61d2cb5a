/** What a drain does to announcements, in the bytes it reads: exactly what invalidates
    them, and that nothing is sent when nothing does. */
module PublisherDrains {
  import opened Prelude
  import opened Publisher
  import opened PublisherRuns
  import opened PublisherGuarantees

  /** Being heard is a question of prefixes. */
  lemma HeardExactly(subs: set<string>, topic: string)
    ensures Heard(subs, topic) <==> exists n :: 0 <= n <= |topic| && topic[..n] in subs
  {
    if Heard(subs, topic) {
      var s :| s in subs && Covers(s, topic);
      assert topic[..|s|] == s;
    }
    if n :| 0 <= n <= |topic| && topic[..n] in subs {
      assert Covers(topic[..n], topic);
    }
  }

  /** A subscribe that would receive hellos: its topic is a prefix of the control topic. */
  predicate Invalidates(m: string) {
    m != "" && m[0] == '\U{1}' && m[1..] <= "__ts2py__"
  }

  ghost predicate AnyInvalidates(ms: seq<string>) {
    exists m :: m in ms && Invalidates(m)
  }

  lemma {:induction false} MessagesInvalidate(p: Pub, ms: seq<string>)
    ensures var q := AllNotified(p, ms);
            && |q.charts| == |p.charts|
            && forall i :: 0 <= i < |p.charts| ==>
                 q.charts[i] == p.charts[i].(announced := p.charts[i].announced && !AnyInvalidates(ms))
  {
    if ms != [] {
      var rest, m := ms[..|ms| - 1], ms[|ms| - 1];
      assert ms == rest + [m];
      MessagesInvalidate(p, rest);
      assert AnyInvalidates(ms) <==> AnyInvalidates(rest) || Invalidates(m);
    }
  }

  lemma {:induction false} MonitorInvalidates(p: Pub, events: seq<bool>)
    ensures var q := Monitored(p, events);
            && |q.charts| == |p.charts|
            && forall i :: 0 <= i < |p.charts| ==>
                 q.charts[i] == p.charts[i].(announced := p.charts[i].announced && true !in events)
  {
    if events != [] {
      var rest, e := events[..|events| - 1], events[|events| - 1];
      assert events == rest + [e];
      MonitorInvalidates(p, rest);
    }
  }

  /** After messages and monitor are read a chart is announced exactly if it was before, no
      message was a subscribe to a prefix of the control topic, and the hub was not lost;
      nothing else of it has changed. */
  lemma AnnouncedAfterReading(p: Pub, inbox: Inbox)
    ensures var q := Monitored(AllNotified(p, inbox.messages), inbox.monitor);
            && |q.charts| == |p.charts|
            && forall i :: 0 <= i < |p.charts| ==>
                 q.charts[i] == p.charts[i].(announced :=
                   p.charts[i].announced && !AnyInvalidates(inbox.messages) && true !in inbox.monitor)
  {
    MessagesInvalidate(p, inbox.messages);
    MonitorInvalidates(AllNotified(p, inbox.messages), inbox.monitor);
  }

  /** `q` differs from `p` by subscriptions read: nothing was numbered, attempted or sent. */
  ghost predicate OnlyRead(p: Pub, q: Pub) {
    && q.tick == p.tick && q.numbers == p.numbers && q.open == p.open
    && p.log <= q.log && forall i :: |p.log| <= i < |q.log| ==> !q.log[i].Sent?
  }

  lemma {:induction false} MessagesSendNothing(p: Pub, ms: seq<string>)
    ensures OnlyRead(p, AllNotified(p, ms))
  {
    if ms != [] {
      MessagesSendNothing(p, ms[..|ms| - 1]);
    }
  }

  lemma {:induction false} MonitorSendsNothing(p: Pub, events: seq<bool>)
    ensures OnlyRead(p, Monitored(p, events))
  {
    if events != [] {
      MonitorSendsNothing(p, events[..|events| - 1]);
    }
  }

  lemma {:induction false} NothingToAnnounce(p: Pub, n: nat, fates: Fates)
    requires n <= |p.charts| && forall i :: 0 <= i < |p.charts| ==> p.charts[i].announced
    ensures Swept(p, n, fates) == p
  {
    if n > 0 {
      NothingToAnnounce(p, n - 1, fates);
    }
  }

  /** A drain that reads nothing invalidating, over charts all announced, sends nothing:
      no attempt is made, no number consumed, and the wire is as it was. */
  lemma QuietDrainSendsNothing(p: Pub, inbox: Inbox, fates: Fates)
    requires forall i :: 0 <= i < |p.charts| ==> p.charts[i].announced
    requires !AnyInvalidates(inbox.messages) && true !in inbox.monitor
    ensures OnlyRead(p, Drained(p, inbox, fates)) && Drained(p, inbox, fates).charts == p.charts
  {
    if p.connected {
      var a := AllNotified(p, inbox.messages);
      var q := Monitored(a, inbox.monitor);
      MessagesSendNothing(p, inbox.messages);
      MonitorSendsNothing(a, inbox.monitor);
      AnnouncedAfterReading(p, inbox);
      NothingToAnnounce(q, |q.charts|, fates);
    }
  }

  // ----- What is remembered of it -------------------------------------------

  /** The events that reading these messages adds to the history. */
  function MessageEvents(ms: seq<string>): seq<Event> {
    if ms == [] then []
    else
      var r, m := MessageEvents(ms[..|ms| - 1]), ms[|ms| - 1];
      if m != "" && m[0] == '\U{1}' then r + [Subscribed(m[1..])]
      else if m != "" && m[0] == '\U{0}' then r + [Unsubscribed(m[1..])]
      else r
  }

  /** One for each disconnect. */
  function MonitorEvents(events: seq<bool>): seq<Event> {
    if events == [] then []
    else MonitorEvents(events[..|events| - 1]) + if events[|events| - 1] then [HubLost] else []
  }

  lemma {:induction false} MessagesRecorded(p: Pub, ms: seq<string>)
    ensures AllNotified(p, ms).log == p.log + MessageEvents(ms)
  {
    if ms != [] {
      MessagesRecorded(p, ms[..|ms| - 1]);
    }
  }

  lemma {:induction false} MonitorRecorded(p: Pub, events: seq<bool>)
    ensures Monitored(p, events).log == p.log + MonitorEvents(events)
  {
    if events != [] {
      MonitorRecorded(p, events[..|events| - 1]);
    }
  }

  /** The history the theorems speak of misses nothing that is read: every subscribe,
      every unsubscribe and every loss of the hub, in order, the messages first. */
  lemma ReadingIsRecorded(p: Pub, inbox: Inbox)
    ensures Monitored(AllNotified(p, inbox.messages), inbox.monitor).log ==
            p.log + MessageEvents(inbox.messages) + MonitorEvents(inbox.monitor)
  {
    MessagesRecorded(p, inbox.messages);
    MonitorRecorded(AllNotified(p, inbox.messages), inbox.monitor);
  }
}
