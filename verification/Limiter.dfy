/** The sliding-window limiter on pairing-code claims. Times are integers of one unit. */
module Limiter {
  import opened Basics

  datatype Config = Config(window: int, max: nat, blackFor: int)

  const MINUTE := 60_000_000_000

  const CLAIMS := Config(MINUTE, 5, 10 * MINUTE)

  /** Until is the end of a blackout; Never is the zero time a new limiter starts with. */
  datatype Blackout = Never | Until(time: int)

  datatype State = State(events: seq<int>, blacklist: Blackout)

  const INITIAL := State([], Never)

  predicate Blacklisted(s: State, now: int) {
    s.blacklist.Until? && now < s.blacklist.time
  }

  function Recent(c: Config, events: seq<int>, now: int): seq<int> {
    if events == [] then []
    else (if now - events[0] < c.window then [events[0]] else []) + Recent(c, events[1..], now)
  }

  function Decide(c: Config, s: State, now: int): (State, bool) {
    if Blacklisted(s, now) then (s, false)
    else
      var kept := Recent(c, s.events, now);
      if |kept| >= c.max then (State([], Until(now + c.blackFor)), false)
      else (State(kept + [now], s.blacklist), true)
  }

  // ---- the code ----

  lemma {:induction false} RecentConcat(c: Config, a: seq<int>, b: seq<int>, now: int)
    ensures Recent(c, a + b, now) == Recent(c, a, now) + Recent(c, b, now)
  {
    if a == [] {
      assert a + b == b;
    } else {
      assert (a + b)[1..] == a[1..] + b;
      RecentConcat(c, a[1..], b, now);
    }
  }

  class IpLimiter {
    const config: Config
    var events: array<int>
    var len: nat
    var blacklist: Blackout

    ghost predicate Valid()
      reads this
    {
      len <= events.Length
    }

    ghost function View(): State
      requires Valid()
      reads this, events
    {
      State(events[..len], blacklist)
    }

    constructor (config: Config)
      ensures Valid() && View() == INITIAL && this.config == config && fresh(events)
    {
      this.config := config;
      events := new int[0];
      len := 0;
      blacklist := Never;
    }

    /** Moves the events still in the window to the front, in order. */
    method Compact(now: int)
      requires Valid()
      modifies this`len, events
      ensures Valid() && events == old(events)
      ensures events[..len] == Recent(config, old(events[..len]), now)
    {
      ghost var was := events[..len];
      var keep, n := 0, len;
      for i := 0 to n
        invariant keep <= i && len == n <= events.Length
        invariant events[..keep] == Recent(config, was[..i], now)
        invariant events[i..n] == was[i..]
      {
        var e := events[i];
        assert e == was[i] by { assert events[i..n][0] == was[i..][0]; }
        assert was[..i + 1] == was[..i] + [e];
        RecentConcat(config, was[..i], [e], now);
        assert events[i + 1..n] == was[i + 1..] by { assert events[i + 1..n] == events[i..n][1..]; }
        if now - e < config.window {
          events[keep] := e;
          keep := keep + 1;
        }
      }
      assert was[..n] == was;
      len := keep;
    }

    /** Appends in place when there is room, into a copy otherwise. */
    method Append(now: int)
      requires Valid()
      modifies this`len, this`events, events
      ensures Valid() && (events == old(events) || fresh(events))
      ensures events[..len] == old(events[..len]) + [now]
    {
      if len == events.Length {
        var more := new int[2 * len + 1](i requires 0 <= i reads this, events =>
                                           if i < events.Length then events[i] else 0);
        events := more;
      }
      events[len] := now;
      len := len + 1;
    }

    method Allow(now: int) returns (ok: bool)
      requires Valid()
      modifies this, events
      ensures Valid() && (events == old(events) || fresh(events))
      ensures (View(), ok) == Decide(config, old(View()), now)
    {
      if blacklist.Until? && now < blacklist.time {
        return false;
      }
      Compact(now);
      if len >= config.max {
        blacklist := Until(now + config.blackFor);
        events := new int[0];
        len := 0;
        return false;
      }
      Append(now);
      return true;
    }
  }

  // ---- whole runs ----

  predicate NonDecreasing(ts: seq<int>) {
    forall i, j :: 0 <= i < j < |ts| ==> ts[i] <= ts[j]
  }

  function After(c: Config, s: State, calls: seq<int>): State {
    if calls == [] then s else Decide(c, After(c, s, calls[..|calls| - 1]), calls[|calls| - 1]).0
  }

  /** The times of the calls that were permitted, in order. */
  function Permitted(c: Config, s: State, calls: seq<int>): seq<int> {
    if calls == [] then []
    else
      var before, now := calls[..|calls| - 1], calls[|calls| - 1];
      Permitted(c, s, before) + (if Decide(c, After(c, s, before), now).1 then [now] else [])
  }

  /** The calls of a list inside a half-open interval. */
  function Within(ts: seq<int>, from: int, to: int): seq<int> {
    if ts == [] then []
    else (if from <= ts[0] < to then [ts[0]] else []) + Within(ts[1..], from, to)
  }

  lemma {:induction false} RecentIsSuffix(c: Config, ts: seq<int>, now: int) returns (k: nat)
    requires NonDecreasing(ts)
    ensures k <= |ts| && Recent(c, ts, now) == ts[k..]
    ensures forall i :: 0 <= i < k ==> now - ts[i] >= c.window
    ensures forall i :: k <= i < |ts| ==> now - ts[i] < c.window
  {
    if ts == [] {
      k := 0;
    } else {
      assert ts == [ts[0]] + ts[1..];
      var rest := RecentIsSuffix(c, ts[1..], now);
      if now - ts[0] < c.window {
        assert forall i :: 0 <= i < |ts[1..]| ==> now - ts[1..][i] < c.window;
        k := 0;
      } else {
        k := rest + 1;
        assert ts[k..] == ts[1..][rest..];
        assert forall i :: 1 <= i < |ts| ==> ts[i] == ts[1..][i - 1];
      }
    }
  }

  /** Calls max or more apart in the list of permitted ones are at least a window apart in time. */
  ghost predicate Spaced(c: Config, permitted: seq<int>) {
    forall i, j :: 0 <= i && i + c.max <= j < |permitted| ==> permitted[i] + c.window <= permitted[j]
  }

  /** What a limiter has forgotten can no longer matter once it is outside any blackout. */
  ghost predicate Tracks(c: Config, s: State, permitted: seq<int>, clock: int) {
    var gone := |permitted| - |s.events|;
    && NonDecreasing(permitted)
    && (forall i :: 0 <= i < |permitted| ==> permitted[i] <= clock)
    && gone >= 0 && permitted[gone..] == s.events
    && Spaced(c, permitted)
    && (forall j :: 0 <= j < gone ==>
         permitted[j] + c.window <= clock || (s.blacklist.Until? && permitted[j] + c.window <= s.blacklist.time))
  }

  lemma {:induction false} NoneRecent(c: Config, ts: seq<int>, now: int)
    requires forall i :: 0 <= i < |ts| ==> ts[i] + c.window <= now
    ensures Recent(c, ts, now) == []
  {
    if ts != [] {
      assert forall i :: 0 <= i < |ts[1..]| ==> ts[1..][i] == ts[i + 1];
      NoneRecent(c, ts[1..], now);
    }
  }

  /** Outside a blackout the kept events are all permitted calls still in the window. */
  lemma KeptIsRecent(c: Config, s: State, permitted: seq<int>, clock: int, now: int)
    requires Tracks(c, s, permitted, clock) && clock <= now && !Blacklisted(s, now)
    ensures Recent(c, s.events, now) == Recent(c, permitted, now)
  {
    var gone := |permitted| - |s.events|;
    NoneRecent(c, permitted[..gone], now);
    assert permitted == permitted[..gone] + s.events;
    RecentConcat(c, permitted[..gone], s.events, now);
  }

  lemma SpacedExtends(c: Config, permitted: seq<int>, gone: nat, now: int)
    requires Spaced(c, permitted) && gone <= |permitted| < gone + c.max
    requires forall i :: 0 <= i < gone ==> permitted[i] + c.window <= now
    ensures Spaced(c, permitted + [now])
  {
    var more := permitted + [now];
    forall i, j | 0 <= i && i + c.max <= j < |more| ensures more[i] + c.window <= more[j] {
      if j < |permitted| { assert permitted[i] + c.window <= permitted[j]; }
    }
  }

  lemma PermitTracks(c: Config, s: State, permitted: seq<int>, clock: int, now: int)
    requires Tracks(c, s, permitted, clock) && clock <= now && !Blacklisted(s, now)
    requires |Recent(c, permitted, now)| < c.max
    ensures Tracks(c, State(Recent(c, permitted, now) + [now], s.blacklist), permitted + [now], now)
  {
    var gone := RecentIsSuffix(c, permitted, now);
    SpacedExtends(c, permitted, gone, now);
    assert (permitted + [now])[gone..] == permitted[gone..] + [now];
    assert |permitted + [now]| - |permitted[gone..] + [now]| == gone;
  }

  lemma BanTracks(c: Config, s: State, permitted: seq<int>, clock: int, now: int)
    requires Tracks(c, s, permitted, clock) && clock <= now && c.window <= c.blackFor
    ensures Tracks(c, State([], Until(now + c.blackFor)), permitted, now)
  {
    assert permitted[|permitted|..] == [];
  }

  lemma DecideTracks(c: Config, s: State, permitted: seq<int>, clock: int, now: int)
    requires Tracks(c, s, permitted, clock) && clock <= now && c.window <= c.blackFor
    ensures var (n, ok) := Decide(c, s, now);
            && Tracks(c, n, permitted + (if ok then [now] else []), now)
            && (ok <==> !Blacklisted(s, now) && |Recent(c, permitted, now)| < c.max)
  {
    assert permitted + [] == permitted;
    if !Blacklisted(s, now) {
      KeptIsRecent(c, s, permitted, clock, now);
      if |Recent(c, permitted, now)| < c.max {
        PermitTracks(c, s, permitted, clock, now);
      } else {
        BanTracks(c, s, permitted, clock, now);
      }
    }
  }

  lemma {:induction false} RunTracks(c: Config, calls: seq<int>)
    requires NonDecreasing(calls) && calls != [] && c.window <= c.blackFor
    ensures Tracks(c, After(c, INITIAL, calls), Permitted(c, INITIAL, calls), calls[|calls| - 1])
  {
    var before, now := calls[..|calls| - 1], calls[|calls| - 1];
    if before == [] {
      StartTracks(c, now);
    } else {
      RunTracks(c, before);
    }
    var clock := if before == [] then now else before[|before| - 1];
    DecideTracks(c, After(c, INITIAL, before), Permitted(c, INITIAL, before), clock, now);
  }

  lemma StartTracks(c: Config, clock: int)
    ensures Tracks(c, INITIAL, [], clock)
  {
    var none: seq<int> := [];
    assert none[0..] == none;
  }

  /** When the last blackout began: at the last call refused outside any blackout. */
  function LastBan(c: Config, calls: seq<int>): Option<int> {
    if calls == [] then None
    else
      var before, now := calls[..|calls| - 1], calls[|calls| - 1];
      var ban := LastBan(c, before);
      if Banned(c, ban, now) || Decide(c, After(c, INITIAL, before), now).1 then ban else Some(now)
  }

  /** A blackout lasts blackFor from its beginning. */
  predicate Banned(c: Config, ban: Option<int>, now: int) {
    ban.Some? && now < ban.value + c.blackFor
  }

  lemma {:induction false} BanExact(c: Config, calls: seq<int>)
    ensures After(c, INITIAL, calls).blacklist
         == if LastBan(c, calls).None? then Never else Until(LastBan(c, calls).value + c.blackFor)
  {
    if calls != [] {
      BanExact(c, calls[..|calls| - 1]);
    }
  }

  lemma {:induction false} RecentWithin(c: Config, ts: seq<int>, now: int)
    requires forall i :: 0 <= i < |ts| ==> ts[i] <= now
    ensures Recent(c, ts, now) == Within(ts, now - c.window + 1, now + 1)
  {
    if ts != [] {
      assert forall i :: 0 <= i < |ts[1..]| ==> ts[1..][i] == ts[i + 1];
      RecentWithin(c, ts[1..], now);
    }
  }

  /**
   * A call is permitted exactly when it comes no sooner than blackFor after the last blackout began and fewer than
   * max of the calls permitted before lie in the window that ends with it.
   */
  lemma PermittedIff(c: Config, calls: seq<int>, now: int)
    requires NonDecreasing(calls + [now]) && c.window <= c.blackFor
    ensures Decide(c, After(c, INITIAL, calls), now).1
       <==> && !Banned(c, LastBan(c, calls), now)
            && |Within(Permitted(c, INITIAL, calls), now - c.window + 1, now + 1)| < c.max
  {
    BanExact(c, calls);
    Decided(c, calls, now);
    hide After, LastBan, Permitted, Within, Recent, Decide;
    hide NonDecreasing;
  }

  /** The decision on a call, in terms of the calls permitted before. */
  lemma Decided(c: Config, calls: seq<int>, now: int)
    requires NonDecreasing(calls + [now]) && c.window <= c.blackFor
    ensures Decide(c, After(c, INITIAL, calls), now).1
       <==> && !Blacklisted(After(c, INITIAL, calls), now)
            && |Within(Permitted(c, INITIAL, calls), now - c.window + 1, now + 1)| < c.max
  {
    var permitted := Permitted(c, INITIAL, calls);
    if calls == [] {
      StartTracks(c, now);
      DecideTracks(c, INITIAL, [], now, now);
    } else {
      assert forall i :: 0 <= i < |calls| ==> (calls + [now])[i] == calls[i];
      assert (calls + [now])[|calls|] == now;
      RunTracks(c, calls);
      DecideTracks(c, After(c, INITIAL, calls), permitted, calls[|calls| - 1], now);
    }
    assert forall i :: 0 <= i < |permitted| ==> permitted[i] <= now;
    hide After, Permitted, Decide, Tracks, NonDecreasing;
    RecentWithin(c, permitted, now);
    hide Recent, Within;
  }

  lemma {:induction false} WithinAbove(ts: seq<int>, from: int, to: int)
    requires forall i :: 0 <= i < |ts| ==> to <= ts[i]
    ensures Within(ts, from, to) == []
  {
    if ts != [] { WithinAbove(ts[1..], from, to); }
  }

  /** The calls from lo to hi are those inside the interval. */
  ghost predicate Slice(ts: seq<int>, from: int, to: int, lo: nat, hi: nat) {
    && lo <= hi <= |ts| && Within(ts, from, to) == ts[lo..hi]
    && (forall i :: lo <= i < hi ==> from <= ts[i] < to)
    && (forall i :: 0 <= i < lo ==> ts[i] < from)
  }

  lemma SliceHere(ts: seq<int>, from: int, to: int, l: nat, h: nat)
    requires NonDecreasing(ts) && ts != [] && from <= ts[0] < to && Slice(ts[1..], from, to, l, h)
    ensures Slice(ts, from, to, 0, h + 1)
  {
    assert forall i :: 1 <= i < |ts| ==> ts[i] == ts[1..][i - 1];
    assert l == 0;
    assert ts[0..h + 1] == [ts[0]] + ts[1..][0..h];
  }

  lemma SliceLater(ts: seq<int>, from: int, to: int, l: nat, h: nat)
    requires ts != [] && ts[0] < from && Slice(ts[1..], from, to, l, h)
    ensures Slice(ts, from, to, l + 1, h + 1)
  {
    assert forall i :: 1 <= i < |ts| ==> ts[i] == ts[1..][i - 1];
    assert ts[l + 1..h + 1] == ts[1..][l..h];
  }

  lemma {:induction false} WithinIsSlice(ts: seq<int>, from: int, to: int) returns (lo: nat, hi: nat)
    requires NonDecreasing(ts) && from <= to
    ensures Slice(ts, from, to, lo, hi)
  {
    lo, hi := 0, 0;
    if ts != [] {
      if ts[0] >= to {
        WithinAbove(ts, from, to);
      } else {
        var l, h := WithinIsSlice(ts[1..], from, to);
        hide Slice, Within;
        if from <= ts[0] {
          SliceHere(ts, from, to, l, h);
          hi := h + 1;
        } else {
          SliceLater(ts, from, to, l, h);
          lo, hi := l + 1, h + 1;
        }
      }
    }
  }

  lemma SpacedGap(c: Config, permitted: seq<int>, i: nat, j: nat)
    requires Spaced(c, permitted) && i + c.max <= j < |permitted|
    ensures permitted[i] + c.window <= permitted[j]
  {
  }

  /** At most max permitted calls in the half-open window starting at `from`. */
  ghost predicate Bounded(c: Config, calls: seq<int>, from: int) {
    |Within(Permitted(c, INITIAL, calls), from, from + c.window)| <= c.max
  }

  /** In every run no half-open interval of one window's length holds more than max permitted calls. */
  lemma RateBound(c: Config, calls: seq<int>, from: int)
    requires NonDecreasing(calls) && c.window <= c.blackFor
    ensures Bounded(c, calls, from)
  {
    if calls != [] {
      RunTracks(c, calls);
      var permitted := Permitted(c, INITIAL, calls);
      if c.window >= 0 {
        var lo, hi := WithinIsSlice(permitted, from, from + c.window);
        if lo + c.max < hi {
          SpacedGap(c, permitted, lo, lo + c.max);
          assert false;
        }
      } else {
        WithinEmpty(permitted, from, from + c.window);
      }
    }
  }

  lemma {:induction false} WithinEmpty(ts: seq<int>, from: int, to: int)
    requires to <= from
    ensures Within(ts, from, to) == []
  {
    if ts != [] { WithinEmpty(ts[1..], from, to); }
  }

  /** From a refusal that blacklists, nothing is permitted for blackFor. */
  lemma {:induction false} BlackoutHolds(c: Config, s: State, now: int, calls: seq<int>)
    requires !Blacklisted(s, now) && !Decide(c, s, now).1
    requires forall i :: 0 <= i < |calls| ==> calls[i] < now + c.blackFor
    ensures Permitted(c, Decide(c, s, now).0, calls) == []
    ensures After(c, Decide(c, s, now).0, calls) == Decide(c, s, now).0
  {
    if calls != [] {
      BlackoutHolds(c, s, now, calls[..|calls| - 1]);
    }
  }

  /** A blackout shorter than the window breaks the bound: the forgotten calls still lie in the window. */
  lemma ShortBlackoutExceeds(c: Config) returns (calls: seq<int>)
    requires 0 <= c.blackFor < c.window && c.max > 0
    ensures NonDecreasing(calls) && !Bounded(c, calls, 0)
  {
    var burst := seq(c.max, i => 0);
    BanAfterBurst(c, burst);
    OneMore(c, burst + [0], c.blackFor);
    calls := burst + [0] + [c.blackFor];
    WithinAll(burst + [c.blackFor], 0, c.window);
  }

  predicate Zeros(ts: seq<int>) {
    forall i :: 0 <= i < |ts| ==> ts[i] == 0
  }

  lemma BanAfterBurst(c: Config, burst: seq<int>)
    requires 0 <= c.blackFor < c.window && c.max > 0 && Zeros(burst) && |burst| == c.max
    ensures After(c, INITIAL, burst + [0]) == State([], Until(c.blackFor))
    ensures Permitted(c, INITIAL, burst + [0]) == burst
  {
    BurstPermitted(c, burst);
    AllRecent(c, burst);
    hide After, Permitted, Recent;
    OneMore(c, burst, 0);
    assert burst + [] == burst;
  }

  lemma OneMore(c: Config, calls: seq<int>, now: int)
    ensures var s := After(c, INITIAL, calls);
            && After(c, INITIAL, calls + [now]) == Decide(c, s, now).0
            && Permitted(c, INITIAL, calls + [now])
               == Permitted(c, INITIAL, calls) + if Decide(c, s, now).1 then [now] else []
  {
    assert (calls + [now])[..|calls|] == calls;
  }

  lemma {:induction false} WithinAll(ts: seq<int>, from: int, to: int)
    requires forall t :: t in ts ==> from <= t < to
    ensures Within(ts, from, to) == ts
  {
    if ts != [] {
      assert ts == [ts[0]] + ts[1..] && ts[0] in ts;
      assert forall t :: t in ts[1..] ==> t in ts;
      WithinAll(ts[1..], from, to);
    }
  }

  lemma {:induction false} AllRecent(c: Config, burst: seq<int>)
    requires c.window > 0 && Zeros(burst)
    ensures Recent(c, burst, 0) == burst
  {
    if burst != [] {
      AllRecent(c, burst[1..]);
      assert [burst[0]] + burst[1..] == burst;
    }
  }

  lemma {:induction false} BurstPermitted(c: Config, burst: seq<int>)
    requires c.window > 0 && |burst| <= c.max && Zeros(burst)
    ensures After(c, INITIAL, burst) == State(burst, Never)
    ensures Permitted(c, INITIAL, burst) == burst
  {
    if burst != [] {
      var before := burst[..|burst| - 1];
      assert before + [0] == burst;
      BurstPermitted(c, before);
      AllRecent(c, before);
      OneMore(c, before, 0);
    }
  }

  /** The bound holds over every run exactly when the blackout is no shorter than the window. */
  lemma RateBoundIff(c: Config)
    requires c.max > 0 && c.window > 0 && c.blackFor >= 0
    ensures (forall calls, from :: NonDecreasing(calls) ==> Bounded(c, calls, from)) <==> c.window <= c.blackFor
  {
    if c.window <= c.blackFor {
      forall calls, from | NonDecreasing(calls) ensures Bounded(c, calls, from) {
        RateBound(c, calls, from);
      }
    } else {
      var calls := ShortBlackoutExceeds(c);
    }
  }
}
