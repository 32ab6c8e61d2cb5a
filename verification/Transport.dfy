/** The whole transport: consumers, the hub, and any number of publisher processes,
    joined by channels with messages in flight. ZeroMQ enters only through four
    behaviours: a verbose XPUB reports every subscribe and only the last unsubscribe of
    a topic; an XSUB counts subscriptions, always forwards a subscribe, and forwards an
    unsubscribe only when the count reaches zero; what is replayed to a newly attached
    pipe is stranded there until the next write; channels are FIFO. */
module Transport {
  import opened Prelude
  import opened Publisher
  import opened PublisherRuns
  import opened Hub

  /** One publisher process and its pipe from the hub. `inbox` is readable; `stranded`
      has been written but not yet signalled. */
  datatype End = End(pub: Pub, inbox: seq<string>, stranded: seq<string>)

  /** `holders` is the backend XPUB's view of its consumers, `toHub` what it has
      reported and the hub has not read, `refs` the frontend XSUB's counts. */
  datatype Net = Net(
    holders: map<string, set<int>>,
    toHub: seq<string>,
    hub: HubState,
    refs: map<string, nat>,
    ends: map<int, End>)

  const QUIET := Net(map[], [], HubState(map[], []), map[], map[])

  /** `Attach`: a pipe reaches a process that may have been called before, without one.
      `Depart`: a process ends, or shuts its socket down, and its pipe with it. */
  datatype Step =
    | Subscribe(consumer: int, topic: string)
    | Unsubscribe(consumer: int, topic: string)
    | ConsumerGone(consumer: int, held: seq<string>)
    | Attach(link: int, process: Pub, replay: seq<string>)
    | Depart(leaving: int)
    | HubTurn(take: bool, attached: bool, messageAt: int, attachedAt: int, now: int)
    | PublisherCall(caller: int, call: Call, read: nat)

  // ----- The frontend XSUB --------------------------------------------------

  function Received(e: End, m: string): End {
    e.(inbox := e.inbox + e.stranded + [m], stranded := [])
  }

  function Broadcast(ends: map<int, End>, m: string): map<int, End> {
    map l | l in ends :: Received(ends[l], m)
  }

  function Written(n: Net, frame: string): Net {
    if frame == "" then n
    else
      var topic := frame[1..];
      if frame[0] == SUB then
        n.(refs := n.refs[topic := CountOf(n.refs, topic) + 1], ends := Broadcast(n.ends, frame))
      else if frame[0] == UNSUB && topic in n.refs then
        if n.refs[topic] > 1 then n.(refs := n.refs[topic := n.refs[topic] - 1])
        else n.(refs := n.refs - {topic}, ends := Broadcast(n.ends, frame))
      else n
  }

  function AllWritten(n: Net, frames: seq<string>): Net
    decreases |frames|
  {
    if frames == [] then n else AllWritten(Written(n, frames[0]), frames[1..])
  }

  // ----- The backend XPUB ---------------------------------------------------

  function Subscribing(n: Net, c: int, topic: string): Net {
    n.(holders := n.holders[topic := (if topic in n.holders then n.holders[topic] else {}) + {c}],
       toHub := n.toHub + [SubFrame(topic)])
  }

  function Unsubscribing(n: Net, c: int, topic: string): Net {
    if topic !in n.holders || c !in n.holders[topic] then n
    else if n.holders[topic] == {c} then
      n.(holders := n.holders - {topic}, toHub := n.toHub + [UnsubFrame(topic)])
    else n.(holders := n.holders[topic := n.holders[topic] - {c}])
  }

  /** A pipe that ends drops every subscription of its consumer. */
  function Leaving(n: Net, c: int, held: seq<string>): Net
    decreases |held|
  {
    if held == [] then n else Leaving(Unsubscribing(n, c, held[0]), c, held[1..])
  }

  // ----- Steps --------------------------------------------------------------

  function SubFrames(topics: seq<string>): seq<string> {
    if topics == [] then [] else SubFrames(topics[..|topics| - 1]) + [SubFrame(topics[|topics| - 1])]
  }

  /** Whether this call gets as far as reading its queues. */
  predicate Drains(p: Pub, c: Call) {
    match c
    case InitCall(endpoint, id, _, _, _) => endpoint.Some? && id.Some? && p.endpoint == endpoint.value
    case PublishCall(id, narrow, _) => id.Some? && narrow
    case ShutdownCall => false
  }

  function InboxOf(c: Call): Inbox {
    match c
    case InitCall(_, _, _, _, inbox) => inbox
    case PublishCall(_, _, inbox) => inbox
    case ShutdownCall => Inbox([], true, [])
  }

  /** A process that knows of no subscription. */
  predicate Deaf(p: Pub) {
    p.subs == {}
  }

  ghost predicate Enabled(n: Net, s: Step) {
    match s
    case Subscribe(_, _) => true
    case Unsubscribe(_, _) => true
    case ConsumerGone(c, held) => forall t :: t in n.holders && c in n.holders[t] ==> t in held
    case Attach(link, process, replay) =>
      && link !in n.ends && process.connected && Deaf(process)
      && forall t :: t in replay <==> t in n.refs
    case Depart(_) => true
    case HubTurn(_, _, _, _, _) => true
    case PublisherCall(l, c, read) =>
      && l in n.ends && !c.ShutdownCall? && read <= |n.ends[l].inbox|
      && InboxOf(c).messages == n.ends[l].inbox[..read] && true !in InboxOf(c).monitor
  }

  function TurnOf(n: Net, s: Step): Turn
    requires s.HubTurn?
  {
    Turn(if s.take && n.toHub != [] then Some(n.toHub[0]) else None, s.attached, s.messageAt, s.attachedAt, s.now)
  }

  function HubTurning(n: Net, s: Step): Net
    requires s.HubTurn?
  {
    var t := TurnOf(n, s);
    var (hub, frames) := Turned(n.hub, FOLLOW_UP_DELAYS, t);
    AllWritten(n.(hub := hub, toHub := if t.message.Some? then n.toHub[1..] else n.toHub), frames)
  }

  /** A step that is not enabled does not happen. */
  ghost function Stepped(n: Net, s: Step, fates: int -> Fates): Net {
    if !Enabled(n, s) then n
    else match s
      case Subscribe(c, t) => Subscribing(n, c, t)
      case Unsubscribe(c, t) => Unsubscribing(n, c, t)
      case ConsumerGone(c, held) => Leaving(n, c, held)
      case Attach(l, process, replay) => n.(ends := n.ends[l := End(process, [], SubFrames(replay))])
      case Depart(l) => n.(ends := n.ends - {l})
      case HubTurn(_, _, _, _, _) => HubTurning(n, s)
      case PublisherCall(l, c, read) =>
        var e := n.ends[l];
        n.(ends := n.ends[l := e.(pub := Exec(e.pub, c, fates(l)).0,
                                  inbox := if Drains(e.pub, c) then e.inbox[read..] else e.inbox)])
  }

  ghost function RunNet(n: Net, steps: seq<Step>, fates: int -> Fates): Net {
    if steps == [] then n
    else Stepped(RunNet(n, steps[..|steps| - 1], fates), steps[|steps| - 1], fates)
  }
}
