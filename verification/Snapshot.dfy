/** The in-memory market snapshot: per symbol, the recent closed bars its session policy
    lets it keep, and the first bar of the regular session. */
module Snapshot {
  import opened Prelude
  import opened Bars

  const CUTOFF := 4 * HOUR

  /** Time before 04:00 ET belongs to the previous session. */
  function SessionDate(zone: Zone, t: int): int {
    var local := t + zone(t);
    if local % DAY < CUTOFF then local / DAY - 1 else local / DAY
  }

  /** `open` is the instant of 09:30 ET of a session date. */
  datatype Calendar = Calendar(zone: Zone, open: int -> int)

  /** `window` is the pre-open minutes kept, None for all of them. */
  datatype Policy = Policy(sessionReset: bool, window: Option<int>)

  datatype SymbolState = SymbolState(
    lastClosed: Option<Bar>,
    recent: seq<Bar>,
    sessionDate: Option<int>,
    openBar: Option<Bar>)

  const UNSEEN := SymbolState(None, [], None, None)

  function SessionOf(cal: Calendar, b: Bar): int {
    SessionDate(cal.zone, b.row.time)
  }

  /** A bar_time is a close, so the bar closing exactly at the open is pre-market. */
  predicate AfterOpen(cal: Calendar, b: Bar) {
    b.row.time > cal.open(SessionOf(cal, b))
  }

  function EvictBefore(bars: seq<Bar>, cutoff: int): seq<Bar> {
    if bars != [] && bars[0].row.time < cutoff then EvictBefore(bars[1..], cutoff) else bars
  }

  function Cutoff(cal: Calendar, window: int, b: Bar): int {
    cal.open(SessionOf(cal, b)) - window * 60
  }

  /** What the policy lets go of before a bar is added. */
  function Cleared(st: SymbolState, p: Option<Policy>, cal: Calendar, b: Bar): SymbolState {
    if p.None? then st
    else
      var rolled := p.value.sessionReset && st.sessionDate.Some? && st.sessionDate.value != SessionOf(cal, b);
      var s1 := if rolled then st.(recent := [], openBar := None) else st;
      var s2 := if p.value.sessionReset && s1.openBar.None? && AfterOpen(cal, b) then s1.(recent := []) else s1;
      if !p.value.sessionReset && p.value.window.Some?
      then s2.(recent := EvictBefore(s2.recent, Cutoff(cal, p.value.window.value, b)))
      else s2
  }

  function Observed(st: SymbolState, p: Option<Policy>, cal: Calendar, max: nat, b: Bar): SymbolState {
    var s := Cleared(st, p, cal, b);
    var open :=
      if !AfterOpen(cal, b) then s.openBar
      else if s.openBar.None? || s.openBar.value.row.time > b.row.time then Some(b)
      else s.openBar;
    SymbolState(Some(b), LastN(s.recent + [b], max), Some(SessionOf(cal, b)), open)
  }

  class MarketSnapshot {
    const maxBars: nat
    const cal: Calendar
    const policies: map<string, Policy>
    const defaultPolicy: Option<Policy>
    var states: map<string, SymbolState>

    constructor (maxBars: nat, cal: Calendar, policies: map<string, Policy>, defaultPolicy: Option<Policy>)
      ensures states == map[]
      ensures this.maxBars == maxBars && this.cal == cal
      ensures this.policies == policies && this.defaultPolicy == defaultPolicy
    {
      this.maxBars, this.cal := maxBars, cal;
      this.policies, this.defaultPolicy := policies, defaultPolicy;
      states := map[];
    }

    function PolicyFor(symbol: string): Option<Policy> {
      if symbol in policies then Some(policies[symbol]) else defaultPolicy
    }

    function StateOf(symbol: string): SymbolState
      reads this
    {
      if symbol in states then states[symbol] else UNSEEN
    }

    /** The pop loop. */
    method EvictBeforePremarketWindow(bars: seq<Bar>, cutoff: int) returns (kept: seq<Bar>)
      ensures kept == EvictBefore(bars, cutoff)
    {
      kept := bars;
      while kept != [] && kept[0].row.time < cutoff
        invariant EvictBefore(kept, cutoff) == EvictBefore(bars, cutoff)
        decreases |kept|
      {
        kept := kept[1..];
      }
    }

    method OnBar(b: Bar)
      modifies this
      ensures states == old(states)[b.symbol := Observed(old(StateOf(b.symbol)), PolicyFor(b.symbol), cal, maxBars, b)]
    {
      var st := Clear(StateOf(b.symbol), PolicyFor(b.symbol), b);
      var session := SessionDate(cal.zone, b.row.time);
      var open := cal.open(session);
      st := st.(sessionDate := Some(session));
      if st.openBar.None? && b.row.time > open {
        st := st.(openBar := Some(b));
      } else if st.openBar.Some? && st.openBar.value.row.time > b.row.time && b.row.time > open {
        st := st.(openBar := Some(b));
      }
      var recent := st.recent + [b];
      if |recent| > maxBars {
        recent := recent[|recent| - maxBars..];
      }
      st := st.(lastClosed := Some(b), recent := recent);
      states := states[b.symbol := st];
    }

    /** The clears that come before a bar is added. */
    method Clear(before: SymbolState, policy: Option<Policy>, b: Bar) returns (st: SymbolState)
      ensures st == Cleared(before, policy, cal, b)
    {
      st := before;
      var session := SessionDate(cal.zone, b.row.time);
      var open := cal.open(session);
      if policy.Some? {
        var p := policy.value;
        if p.sessionReset && st.sessionDate.Some? && session != st.sessionDate.value {
          st := st.(recent := [], openBar := None);
        }
        if p.sessionReset && st.openBar.None? && b.row.time > open {
          st := st.(recent := []);
        }
        if !p.sessionReset && p.window.Some? {
          var kept := EvictBeforePremarketWindow(st.recent, open - p.window.value * 60);
          st := st.(recent := kept);
        }
      }
    }
  }

  // ----- One symbol's history -----------------------------------------------

  function StateAfter(p: Option<Policy>, cal: Calendar, max: nat, h: seq<Bar>): SymbolState {
    if h == [] then UNSEEN
    else Observed(StateAfter(p, cal, max, h[..|h| - 1]), p, cal, max, h[|h| - 1])
  }

  lemma LastNExtend<T>(s: seq<T>, x: T, n: nat)
    ensures LastN(LastN(s, n) + [x], n) == LastN(s + [x], n)
  {
  }

  // ----- Boundaries ---------------------------------------------------------

  /** A session date runs from 04:00 ET to 04:00 ET. */
  lemma SessionDateExactly(zone: Zone, t: int, d: int)
    ensures SessionDate(zone, t) == d <==> d * 86400 + 4 * 3600 <= t + zone(t) < (d + 1) * 86400 + 4 * 3600
  {
  }

  /** Sessions open at 09:30 ET of their date. */
  ghost predicate OpensAtHalfPastNine(cal: Calendar) {
    forall d :: cal.open(d) + cal.zone(cal.open(d)) == d * 86400 + 9 * 3600 + 30 * 60
  }

  /** Where the offset is that of the open, a bar is past the open exactly if it closes
      after 09:30 of its session date; the bar that closes at 09:30 is not. */
  lemma AfterOpenExactly(cal: Calendar, b: Bar, d: int)
    requires OpensAtHalfPastNine(cal) && SessionOf(cal, b) == d
    requires cal.zone(b.row.time) == cal.zone(cal.open(d))
    ensures AfterOpen(cal, b) <==> b.row.time + cal.zone(b.row.time) > d * 86400 + 34200
    ensures b.row.time + cal.zone(b.row.time) == d * 86400 + 34200 ==> !AfterOpen(cal, b)
  {
  }

  // ----- Symbols that reset each session ------------------------------------

  /** The bars since the session last changed. */
  function Block(cal: Calendar, h: seq<Bar>): (r: seq<Bar>)
    ensures h != [] ==> r != [] && r[|r| - 1] == h[|h| - 1]
  {
    if h == [] then []
    else
      var q, b := Block(cal, h[..|h| - 1]), h[|h| - 1];
      if q != [] && SessionOf(cal, q[|q| - 1]) == SessionOf(cal, b) then q + [b] else [b]
  }

  /** From the first bar after the open on; everything, if there is none. */
  function FromOpen(cal: Calendar, bars: seq<Bar>): seq<Bar> {
    if bars == [] then []
    else
      var q, b := bars[..|bars| - 1], bars[|bars| - 1];
      if FirstOpen(cal, q).None? && AfterOpen(cal, b) then [b] else FromOpen(cal, q) + [b]
  }

  /** The earliest bar after the open, the first to arrive among equals. */
  function FirstOpen(cal: Calendar, bars: seq<Bar>): Option<Bar> {
    if bars == [] then None
    else
      var o, b := FirstOpen(cal, bars[..|bars| - 1]), bars[|bars| - 1];
      if AfterOpen(cal, b) && (o.None? || b.row.time < o.value.row.time) then Some(b) else o
  }

  lemma FreshBlock(cal: Calendar, b: Bar)
    ensures FromOpen(cal, [b]) == [b]
    ensures FirstOpen(cal, [b]) == if AfterOpen(cal, b) then Some(b) else None
  {
    assert [b][..0] == [];
    assert [] + [b] == [b];
  }

  lemma BlockGrows(cal: Calendar, q: seq<Bar>, b: Bar)
    ensures FirstOpen(cal, q + [b]) ==
            var o := FirstOpen(cal, q); if AfterOpen(cal, b) && (o.None? || b.row.time < o.value.row.time) then Some(b) else o
    ensures FromOpen(cal, q + [b]) ==
            if FirstOpen(cal, q).None? && AfterOpen(cal, b) then [b] else FromOpen(cal, q) + [b]
  {
    assert (q + [b])[..|q|] == q;
  }

  /** `st` is the state of a symbol that resets, `block` its current session's bars. */
  predicate ResetsTo(st: SymbolState, cal: Calendar, max: nat, block: seq<Bar>)
    requires block != []
  {
    && st.recent == LastN(FromOpen(cal, block), max)
    && st.openBar == FirstOpen(cal, block)
    && st.sessionDate == Some(SessionOf(cal, block[|block| - 1]))
    && st.lastClosed == Some(block[|block| - 1])
  }

  lemma FirstOfBlock(p: Policy, cal: Calendar, max: nat, st: SymbolState, b: Bar)
    requires p.sessionReset
    requires st == UNSEEN || (st.sessionDate.Some? && st.sessionDate.value != SessionOf(cal, b))
    ensures ResetsTo(Observed(st, Some(p), cal, max, b), cal, max, [b])
  {
    FreshBlock(cal, b);
    assert [] + [b] == [b];
  }

  lemma NextOfBlock(p: Policy, cal: Calendar, max: nat, st: SymbolState, q: seq<Bar>, b: Bar)
    requires p.sessionReset && q != [] && ResetsTo(st, cal, max, q)
    requires SessionOf(cal, q[|q| - 1]) == SessionOf(cal, b)
    ensures ResetsTo(Observed(st, Some(p), cal, max, b), cal, max, q + [b])
  {
    BlockGrows(cal, q, b);
    LastNExtend(FromOpen(cal, q), b, max);
    assert [] + [b] == [b];
  }

  /** For a symbol that resets, in whatever order its bars arrive: the snapshot is a
      function of the current session's bars alone. */
  lemma {:induction false} ResetState(p: Policy, cal: Calendar, max: nat, h: seq<Bar>)
    requires p.sessionReset && h != []
    ensures ResetsTo(StateAfter(Some(p), cal, max, h), cal, max, Block(cal, h))
  {
    var g, b := h[..|h| - 1], h[|h| - 1];
    var st := StateAfter(Some(p), cal, max, g);
    if g == [] {
      FirstOfBlock(p, cal, max, st, b);
    } else {
      ResetState(p, cal, max, g);
      var q := Block(cal, g);
      if SessionOf(cal, q[|q| - 1]) == SessionOf(cal, b) {
        NextOfBlock(p, cal, max, st, q, b);
      } else {
        FirstOfBlock(p, cal, max, st, b);
      }
    }
  }

  function InSession(cal: Calendar, h: seq<Bar>, d: int): seq<Bar> {
    if h == [] then []
    else
      var r, b := InSession(cal, h[..|h| - 1], d), h[|h| - 1];
      if SessionOf(cal, b) == d then r + [b] else r
  }

  function OnlyAfterOpen(cal: Calendar, h: seq<Bar>): seq<Bar> {
    if h == [] then []
    else
      var r, b := OnlyAfterOpen(cal, h[..|h| - 1]), h[|h| - 1];
      if AfterOpen(cal, b) then r + [b] else r
  }

  predicate TimeOrdered(h: seq<Bar>) {
    forall i, j :: 0 <= i < j < |h| ==> h[i].row.time <= h[j].row.time
  }

  /** A later instant never belongs to an earlier session. */
  ghost predicate SessionsForward(cal: Calendar) {
    forall t, u :: t <= u ==> SessionDate(cal.zone, t) <= SessionDate(cal.zone, u)
  }

  lemma {:induction false} NoneInLaterSession(cal: Calendar, h: seq<Bar>, d: int)
    requires forall i :: 0 <= i < |h| ==> SessionOf(cal, h[i]) < d
    ensures InSession(cal, h, d) == []
  {
    if h != [] {
      NoneInLaterSession(cal, h[..|h| - 1], d);
    }
  }

  /** In time order the current block is the whole current session. */
  lemma {:induction false} BlockIsSession(cal: Calendar, h: seq<Bar>)
    requires TimeOrdered(h) && SessionsForward(cal) && h != []
    ensures Block(cal, h) == InSession(cal, h, SessionOf(cal, h[|h| - 1]))
  {
    var g, b := h[..|h| - 1], h[|h| - 1];
    if g != [] {
      BlockIsSession(cal, g);
      var d, e := SessionOf(cal, g[|g| - 1]), SessionOf(cal, b);
      if d != e {
        assert forall i :: 0 <= i < |g| ==> g[i].row.time <= g[|g| - 1].row.time;
        NoneInLaterSession(cal, g, e);
      }
    }
  }

  lemma {:induction false} FirstAfter(cal: Calendar, bars: seq<Bar>) returns (i: nat)
    requires OnlyAfterOpen(cal, bars) != []
    ensures i < |bars| && bars[i] == OnlyAfterOpen(cal, bars)[0]
  {
    var q := bars[..|bars| - 1];
    if OnlyAfterOpen(cal, q) == [] {
      i := |bars| - 1;
    } else {
      i := FirstAfter(cal, q);
    }
  }

  /** Within one session in time order, once one bar is after the open all later ones
      are. */
  lemma {:induction false} OpenSplits(cal: Calendar, bars: seq<Bar>, d: int)
    requires TimeOrdered(bars) && forall i :: 0 <= i < |bars| ==> SessionOf(cal, bars[i]) == d
    ensures var after := OnlyAfterOpen(cal, bars);
            && FromOpen(cal, bars) == (if after == [] then bars else after)
            && FirstOpen(cal, bars) == (if after == [] then None else Some(after[0]))
  {
    if bars != [] {
      var q, b := bars[..|bars| - 1], bars[|bars| - 1];
      OpenSplits(cal, q, d);
      assert q + [b] == bars;
      BlockGrows(cal, q, b);
      if OnlyAfterOpen(cal, q) != [] {
        AfterStays(cal, q, b, d);
      }
    }
  }

  lemma AfterStays(cal: Calendar, q: seq<Bar>, b: Bar, d: int)
    requires TimeOrdered(q + [b]) && OnlyAfterOpen(cal, q) != []
    requires forall i :: 0 <= i < |q| ==> SessionOf(cal, q[i]) == d
    requires SessionOf(cal, b) == d
    ensures AfterOpen(cal, b) && OnlyAfterOpen(cal, q)[0].row.time <= b.row.time
  {
    var i := FirstAfter(cal, q);
    AfterIsAfter(cal, q);
    assert (q + [b])[i] == q[i] && (q + [b])[|q|] == b;
  }

  lemma {:induction false} AfterIsAfter(cal: Calendar, bars: seq<Bar>)
    requires OnlyAfterOpen(cal, bars) != []
    ensures AfterOpen(cal, OnlyAfterOpen(cal, bars)[0])
  {
    var q := bars[..|bars| - 1];
    if OnlyAfterOpen(cal, q) != [] {
      AfterIsAfter(cal, q);
    }
  }

  lemma {:induction false} InSessionOrdered(cal: Calendar, h: seq<Bar>, d: int)
    requires TimeOrdered(h)
    ensures TimeOrdered(InSession(cal, h, d))
    ensures forall x :: x in InSession(cal, h, d) ==> x in h && SessionOf(cal, x) == d
  {
    if h != [] {
      var g, b := h[..|h| - 1], h[|h| - 1];
      assert h == g + [b];
      InSessionOrdered(cal, g, d);
      var r := InSession(cal, g, d);
      forall i | 0 <= i < |r| ensures r[i].row.time <= b.row.time {
        assert r[i] in g;
      }
    }
  }

  /** A breadth symbol fed in time order: `recent_bars` is always the last `max` bars of
      the current session, pre-market bars until the open is crossed and none of them
      afterwards; the session's opening bar is the first one after the open. */
  lemma BreadthWindow(p: Policy, cal: Calendar, max: nat, h: seq<Bar>)
    requires p.sessionReset && h != [] && TimeOrdered(h) && SessionsForward(cal)
    ensures var st := StateAfter(Some(p), cal, max, h);
            var session := InSession(cal, h, SessionOf(cal, h[|h| - 1]));
            var after := OnlyAfterOpen(cal, session);
            && st.recent == LastN(if after == [] then session else after, max)
            && st.openBar == (if after == [] then None else Some(after[0]))
  {
    ResetState(p, cal, max, h);
    BlockIsSession(cal, h);
    var d := SessionOf(cal, h[|h| - 1]);
    InSessionOrdered(cal, h, d);
    var session := InSession(cal, h, d);
    assert forall i :: 0 <= i < |session| ==> session[i] in session;
    OpenSplits(cal, session, d);
  }

  // ----- Continuous symbols -------------------------------------------------

  function NotBefore(h: seq<Bar>, cutoff: int): seq<Bar> {
    if h == [] then []
    else
      var r, b := NotBefore(h[..|h| - 1], cutoff), h[|h| - 1];
      if b.row.time >= cutoff then r + [b] else r
  }

  lemma {:induction false} NotBeforeHead(h: seq<Bar>, cutoff: int)
    requires h != []
    ensures NotBefore(h, cutoff) ==
            (if h[0].row.time >= cutoff then [h[0]] else []) + NotBefore(h[1..], cutoff)
  {
    var g := h[..|h| - 1];
    if g != [] {
      NotBeforeHead(g, cutoff);
      assert g[1..] == h[1..][..|h| - 2];
    } else {
      assert h[1..] == [];
    }
  }

  lemma {:induction false} NothingBefore(h: seq<Bar>, cutoff: int)
    requires forall i :: 0 <= i < |h| ==> h[i].row.time >= cutoff
    ensures NotBefore(h, cutoff) == h && EvictBefore(h, cutoff) == h
  {
    if h != [] {
      NothingBefore(h[..|h| - 1], cutoff);
      assert h == h[..|h| - 1] + [h[|h| - 1]];
    }
  }

  lemma {:induction false} NotBeforeSize(h: seq<Bar>, cutoff: int)
    ensures |NotBefore(h, cutoff)| <= |h|
  {
    if h != [] {
      NotBeforeSize(h[..|h| - 1], cutoff);
    }
  }

  /** On ordered bars, popping from the left is filtering, also from a shortened list. */
  lemma {:induction false} EvictIsFilter(x: seq<Bar>, cutoff: int, skip: nat)
    requires TimeOrdered(x) && skip <= |x|
    ensures EvictBefore(x[skip..], cutoff) == LastN(NotBefore(x, cutoff), |x| - skip)
    decreases |x|
  {
    if x != [] {
      if x[0].row.time >= cutoff {
        NothingBefore(x, cutoff);
        NothingBefore(x[skip..], cutoff);
      } else {
        NotBeforeHead(x, cutoff);
        assert [] + NotBefore(x[1..], cutoff) == NotBefore(x[1..], cutoff);
        NotBeforeSize(x[1..], cutoff);
        var rest := if skip == 0 then 0 else skip - 1;
        EvictIsFilter(x[1..], cutoff, rest);
        assert skip == 0 ==> x[skip..] == x && x[1..][rest..] == x[1..];
        assert skip > 0 ==> x[1..][rest..] == x[skip..];
      }
    }
  }

  lemma {:induction false} FilterTwice(h: seq<Bar>, early: int, late: int)
    requires early <= late
    ensures NotBefore(NotBefore(h, early), late) == NotBefore(h, late)
  {
    if h != [] {
      var g, b := h[..|h| - 1], h[|h| - 1];
      FilterTwice(g, early, late);
      var r := NotBefore(g, early);
      assert (r + [b])[..|r|] == r;
    }
  }

  lemma {:induction false} NotBeforeOrdered(h: seq<Bar>, cutoff: int)
    requires TimeOrdered(h)
    ensures TimeOrdered(NotBefore(h, cutoff))
    ensures forall x :: x in NotBefore(h, cutoff) ==> x in h
  {
    if h != [] {
      var g, b := h[..|h| - 1], h[|h| - 1];
      assert h == g + [b];
      NotBeforeOrdered(g, cutoff);
      var r := NotBefore(g, cutoff);
      forall i | 0 <= i < |r| ensures r[i].row.time <= b.row.time {
        assert r[i] in g;
      }
    }
  }

  /** The window of a continuous symbol: the bars from the cutoff of the latest bar's
      session on, and that bar itself. */
  function Window(cal: Calendar, window: int, h: seq<Bar>): seq<Bar>
    requires h != []
  {
    var latest := h[|h| - 1];
    NotBefore(h[..|h| - 1], cal.open(SessionOf(cal, latest)) - window * 60) + [latest]
  }

  /** Cutoffs move forward with the sessions. */
  ghost predicate OpensForward(cal: Calendar) {
    forall t, u :: t <= u ==> cal.open(SessionDate(cal.zone, t)) <= cal.open(SessionDate(cal.zone, u))
  }

  lemma WindowOrdered(cal: Calendar, window: int, g: seq<Bar>)
    requires g != [] && TimeOrdered(g)
    ensures TimeOrdered(Window(cal, window, g))
  {
    var f, a := g[..|g| - 1], g[|g| - 1];
    var r := NotBefore(f, Cutoff(cal, window, a));
    NotBeforeOrdered(f, Cutoff(cal, window, a));
    forall i | 0 <= i < |r| ensures r[i].row.time <= a.row.time {
      assert r[i] in r && r[i] in f;
    }
  }

  lemma CutoffsForward(cal: Calendar, window: int, a: Bar, b: Bar)
    requires OpensForward(cal) && a.row.time <= b.row.time
    ensures Cutoff(cal, window, a) <= Cutoff(cal, window, b)
  {
  }

  lemma WindowStep(cal: Calendar, window: int, max: nat, g: seq<Bar>, a: Bar, b: Bar)
    requires TimeOrdered(g + [a]) && Cutoff(cal, window, a) <= Cutoff(cal, window, b)
    ensures EvictBefore(LastN(Window(cal, window, g + [a]), max), Cutoff(cal, window, b)) ==
            LastN(NotBefore(g + [a], Cutoff(cal, window, b)), max)
  {
    var early, late := Cutoff(cal, window, a), Cutoff(cal, window, b);
    var r := NotBefore(g, early);
    var x := Window(cal, window, g + [a]);
    assert (g + [a])[..|g|] == g;
    assert x == r + [a] && x[..|r|] == r;
    WindowOrdered(cal, window, g + [a]);
    FilterTwice(g, early, late);
    assert NotBefore(x, late) == NotBefore(g + [a], late);
    EvictIsFilter(x, late, if |x| <= max then 0 else |x| - max);
    assert x[0..] == x;
    NotBeforeSize(x, late);
  }

  /** A continuous symbol fed in time order keeps the last `max` bars of its pre-market
      window, never losing one that the window and the bound still allow. */
  lemma {:induction false} ContinuousWindow(p: Policy, cal: Calendar, max: nat, h: seq<Bar>)
    requires !p.sessionReset && p.window.Some? && h != [] && TimeOrdered(h) && OpensForward(cal)
    ensures StateAfter(Some(p), cal, max, h).recent == LastN(Window(cal, p.window.value, h), max)
  {
    var g, b := h[..|h| - 1], h[|h| - 1];
    if g == [] {
      assert NotBefore(g, Cutoff(cal, p.window.value, b)) == [];
    } else {
      ContinuousWindow(p, cal, max, g);
      var f, a := g[..|g| - 1], g[|g| - 1];
      assert g == f + [a];
      CutoffsForward(cal, p.window.value, a, b);
      WindowStep(cal, p.window.value, max, f, a, b);
      LastNExtend(NotBefore(g, Cutoff(cal, p.window.value, b)), b, max);
    }
  }

  /** With no policy, or no window, history is bounded by count alone. */
  lemma {:induction false} UnlimitedWindow(p: Option<Policy>, cal: Calendar, max: nat, h: seq<Bar>)
    requires p.Some? ==> !p.value.sessionReset && p.value.window.None?
    ensures StateAfter(p, cal, max, h).recent == LastN(h, max)
  {
    if h != [] {
      UnlimitedWindow(p, cal, max, h[..|h| - 1]);
      LastNExtend(h[..|h| - 1], h[|h| - 1], max);
      assert h == h[..|h| - 1] + [h[|h| - 1]];
    }
  }
}
