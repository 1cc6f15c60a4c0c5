/**
 * The relay hub's tables and every critical section that changes them. A section runs under the hub's
 * lock, so a run of the hub is a sequence of sections, in whatever order the sessions' goroutines reach it.
 */
module Hub {
  import opened Basics
  import Limiter

  type SessionId = nat

  datatype Role = DaemonRole | ClientRole

  datatype Session = Session(role: Role, devId: string, remoteIp: string)

  datatype CodeEntry = CodeEntry(devId: string, expiresAt: int)

  datatype Pipe = Pipe(id: nat, client: SessionId, daemon: SessionId, devId: string)

  datatype ErrorCode = RateLimited | InvalidCode | DaemonOffline | Protocol | TooManyStreams

  datatype State = State(
    sessions: map<SessionId, Session>,
    closed: set<SessionId>,
    daemons: map<string, SessionId>,
    codes: map<string, CodeEntry>,
    claimed: map<SessionId, string>,
    streams: map<nat, Pipe>,
    bySess: map<SessionId, seq<nat>>,
    nextId: nat,
    limiters: map<string, Limiter.State>)

  const EMPTY := State(map[], {}, map[], map[], map[], map[], map[], 0, map[])

  const MAX_CODE_LEN := 16
  const MAX_DEV_ID_LEN := 64
  const MAX_SIGN_LEN := 256
  const MAX_STREAMS_PER_CLIENT := 16
  const MAX_STREAMS_PER_DAEMON := 64
  const SECOND := 1_000_000_000
  const MAX_CODE_TTL := 600 * SECOND
  const DEFAULT_CODE_TTL := 120 * SECOND
  const ID_SPAN := 0x1_0000_0000

  /** Non-empty, bounded, visible ASCII. */
  predicate ValidToken(s: string, max: nat) {
    0 < |s| <= max && forall i :: 0 <= i < |s| ==> '!' <= s[i] <= '~'
  }

  /** Two's complement wrap of a 64-bit product. */
  function Wrap64(x: int): int {
    (x + 0x8000_0000_0000_0000) % 0x1_0000_0000_0000_0000 - 0x8000_0000_0000_0000
  }

  function CodeTtl(seconds: int): (ttl: int)
    ensures 0 < ttl <= MAX_CODE_TTL
    ensures 0 < seconds <= 600 ==> ttl == seconds * SECOND
    ensures 600 < seconds <= 9_000_000_000 ==> ttl == MAX_CODE_TTL
    ensures -9_000_000_000 <= seconds <= 0 ==> ttl == DEFAULT_CODE_TTL
  {
    var ttl := Wrap64(seconds * SECOND);
    if ttl <= 0 then DEFAULT_CODE_TTL else if ttl > MAX_CODE_TTL then MAX_CODE_TTL else ttl
  }

  function RoleOf(h: State, s: SessionId): Option<Role> {
    if s in h.sessions then Some(h.sessions[s].role) else None
  }

  function DevIdOf(h: State, s: SessionId): string {
    if s in h.sessions then h.sessions[s].devId else ""
  }

  function ListAt(lists: map<SessionId, seq<nat>>, s: SessionId): seq<nat> {
    if s in lists then lists[s] else []
  }

  function Ids(h: State, s: SessionId): seq<nat> {
    ListAt(h.bySess, s)
  }

  predicate Touches(p: Pipe, s: SessionId) {
    p.client == s || p.daemon == s
  }

  function Peer(p: Pipe, s: SessionId): SessionId {
    if s == p.daemon then p.client else p.daemon
  }

  // ---- the sections ----

  predicate MayRegister(h: State, s: SessionId, devId: string, sign: string) {
    RoleOf(h, s) == Some(DaemonRole) && ValidToken(devId, MAX_DEV_ID_LEN) && ValidToken(sign, MAX_SIGN_LEN)
  }

  function Registered(h: State, s: SessionId, devId: string): State
    requires s in h.sessions
  {
    h.(sessions := h.sessions[s := h.sessions[s].(devId := devId)], daemons := h.daemons[devId := s])
  }

  function Purged(codes: map<string, CodeEntry>, now: int): map<string, CodeEntry> {
    map c | c in codes && !(now > codes[c].expiresAt) :: codes[c]
  }

  predicate MayAdvertise(h: State, s: SessionId, code: string) {
    RoleOf(h, s) == Some(DaemonRole) && DevIdOf(h, s) != "" && ValidToken(code, MAX_CODE_LEN)
  }

  function Advertised(h: State, s: SessionId, code: string, ttl: int, now: int): State {
    h.(codes := Purged(h.codes[code := CodeEntry(DevIdOf(h, s), now + CodeTtl(ttl))], now))
  }

  datatype ClaimAnswer = Refused(error: ErrorCode) | Bound(devId: string)

  function LimiterOf(h: State, ip: string): Limiter.State {
    if ip in h.limiters then h.limiters[ip] else Limiter.INITIAL
  }

  function Claimed(h: State, s: SessionId, code: string, now: int): (State, ClaimAnswer) {
    if RoleOf(h, s) != Some(ClientRole) then (h, Refused(Protocol))
    else
      var ip := h.sessions[s].remoteIp;
      var (lim, ok) := Limiter.Decide(Limiter.CLAIMS, LimiterOf(h, ip), now);
      var h := h.(limiters := h.limiters[ip := lim]);
      if !ok then (h, Refused(RateLimited))
      else if code !in h.codes then (h, Refused(InvalidCode))
      else
        var entry := h.codes[code];
        var h := h.(codes := h.codes - {code});
        if now > entry.expiresAt then (h, Refused(InvalidCode))
        else (h.(claimed := h.claimed[s := entry.devId]), Bound(entry.devId))
  }

  datatype OpenAnswer = Rejected(error: ErrorCode) | Opened(pipe: Pipe)

  function OpenTarget(h: State, s: SessionId, devId: string): string {
    if devId == "" && s in h.claimed then h.claimed[s] else devId
  }

  function Opening(h: State, s: SessionId, devId: string): (State, OpenAnswer) {
    var dev := OpenTarget(h, s, devId);
    if RoleOf(h, s) != Some(ClientRole) || dev == "" then (h, Rejected(Protocol))
    else if |Ids(h, s)| >= MAX_STREAMS_PER_CLIENT then (h, Rejected(TooManyStreams))
    else if dev !in h.daemons then (h, Rejected(DaemonOffline))
    else
      var daemon := h.daemons[dev];
      if |Ids(h, daemon)| >= MAX_STREAMS_PER_DAEMON then (h, Rejected(TooManyStreams))
      else
        var id := (h.nextId + 1) % ID_SPAN;
        var p := Pipe(id, s, daemon, dev);
        var bySess := h.bySess[s := Ids(h, s) + [id]];
        var h := h.(nextId := id, streams := h.streams[id := p], bySess := bySess);
        (h.(bySess := h.bySess[daemon := Ids(h, daemon) + [id]]), Opened(p))
  }

  /** A list less the first occurrence of a number. */
  function Less(ids: seq<nat>, id: nat): seq<nat> {
    if ids == [] then [] else if ids[0] == id then ids[1..] else [ids[0]] + Less(ids[1..], id)
  }

  function Unlisted(bySess: map<SessionId, seq<nat>>, s: SessionId, id: nat): map<SessionId, seq<nat>> {
    if s in bySess && id in bySess[s] then bySess[s := Less(bySess[s], id)] else bySess
  }

  function Dropped(h: State, id: nat): State {
    if id !in h.streams then h
    else
      var p := h.streams[id];
      h.(streams := h.streams - {id}, bySess := Unlisted(Unlisted(h.bySess, p.client, id), p.daemon, id))
  }

  /** The pipes a closing session takes along, in the order of its list. */
  function Doomed(streams: map<nat, Pipe>, ids: seq<nat>): seq<Pipe> {
    if ids == [] then []
    else if ids[0] in streams then [streams[ids[0]]] + Doomed(streams - {ids[0]}, ids[1..])
    else Doomed(streams, ids[1..])
  }

  function Listed(ids: seq<nat>): set<nat> {
    set id | id in ids
  }

  function CodesWithout(codes: map<string, CodeEntry>, devId: string): map<string, CodeEntry> {
    map c | c in codes && codes[c].devId != devId :: codes[c]
  }

  function SessionClosed(h: State, s: SessionId): State {
    var devId := DevIdOf(h, s);
    var owner := RoleOf(h, s) == Some(DaemonRole) && devId != "";
    h.(closed := h.closed + {s},
       claimed := h.claimed - {s},
       daemons := if owner && devId in h.daemons && h.daemons[devId] == s then h.daemons - {devId} else h.daemons,
       codes := if owner then CodesWithout(h.codes, devId) else h.codes,
       streams := h.streams - Listed(Ids(h, s)),
       bySess := h.bySess - {s})
  }

  /** The callback runs once: closing a closed session changes nothing. */
  function Closed(h: State, s: SessionId): State {
    if s in h.closed then h else SessionClosed(h, s)
  }

  // ---- runs ----

  datatype Event =
    | Attach(s: SessionId, role: Role, ip: string)
    | Reg(s: SessionId, devId: string, sign: string)
    | Code(s: SessionId, code: string, ttl: int, now: int)
    | Claim(s: SessionId, code: string, now: int)
    | Open(s: SessionId, devId: string)
    | Drop(id: nat)
    | Close(s: SessionId)

  /**
   * Three things are taken for granted of a run: a session is attached once, registers under one devId,
   * and ids do not wrap round.
   */
  predicate Enabled(h: State, e: Event) {
    match e
    case Attach(s, _, _) => s !in h.sessions
    case Reg(s, devId, _) => s in h.sessions && (DevIdOf(h, s) == "" || DevIdOf(h, s) == devId)
    case Code(s, _, _, _) => s in h.sessions
    case Claim(s, _, _) => s in h.sessions
    case Open(s, _) => s in h.sessions && h.nextId + 1 < ID_SPAN
    case Drop(_) => true
    case Close(s) => s in h.sessions
  }

  /** The locked part of a handler. */
  function Section(h: State, e: Event): State {
    match e
    case Attach(s, role, ip) => h.(sessions := h.sessions[s := Session(role, "", ip)])
    case Reg(s, devId, sign) => if MayRegister(h, s, devId, sign) then Registered(h, s, devId) else h
    case Code(s, code, ttl, now) => if MayAdvertise(h, s, code) then Advertised(h, s, code, ttl, now) else h
    case Claim(s, code, now) => Claimed(h, s, code, now).0
    case Open(s, devId) => Opening(h, s, devId).0
    case Drop(id) => Dropped(h, id)
    case Close(s) => Closed(h, s)
  }

  /** A registration first closes the session that held the devId before. */
  function StaleSession(h: State, s: SessionId, devId: string): Option<SessionId> {
    if devId in h.daemons && h.daemons[devId] != s then Some(h.daemons[devId]) else None
  }

  /** The session a handler closes: its own when it refuses the frame. */
  function Closes(h: State, e: Event): Option<SessionId> {
    match e
    case Reg(s, devId, sign) => if MayRegister(h, s, devId, sign) then StaleSession(h, s, devId) else Some(s)
    case Code(s, code, _, _) => if MayAdvertise(h, s, code) then None else Some(s)
    case Claim(s, code, now) => if Claimed(h, s, code, now).1.Bound? then None else Some(s)
    case Open(s, devId) => if Opening(h, s, devId).1.Opened? then None else Some(s)
    case Close(s) => Some(s)
    case _ => None
  }

  /** A handler run to its end: a stale session is closed before the section, a refused one after it. */
  function Next(h: State, e: Event): State {
    var d := Closes(h, e);
    if d.None? then Section(h, e)
    else if e.Reg? then Section(Closed(h, d.value), e)
    else Closed(Section(h, e), d.value)
  }

  predicate Run(h: State, es: seq<Event>)
    decreases es
  {
    es == [] || (Enabled(h, es[0]) && Run(Next(h, es[0]), es[1..]))
  }

  function Exec(h: State, es: seq<Event>): State
    decreases es
  {
    if es == [] then h else Exec(Next(h, es[0]), es[1..])
  }

  // ---- what every section keeps ----

  predicate Increasing(ids: seq<nat>) {
    forall i, j :: 0 <= i < j < |ids| ==> ids[i] < ids[j]
  }

  function Limit(r: Role): nat {
    if r.ClientRole? then MAX_STREAMS_PER_CLIENT else MAX_STREAMS_PER_DAEMON
  }

  /** Stored under its own id, joining one client and one daemon, and on both their lists. */
  ghost predicate PipeOk(h: State, id: nat) {
    id in h.streams ==>
      var p := h.streams[id];
      && p.id == id && 1 <= id <= h.nextId
      && RoleOf(h, p.client) == Some(ClientRole) && RoleOf(h, p.daemon) == Some(DaemonRole)
      && id in Ids(h, p.client) && id in Ids(h, p.daemon)
  }

  /** A list is increasing, within its bounds, and names no live stream of somebody else. */
  ghost predicate ListOk(h: State, s: SessionId) {
    s in h.bySess ==>
      var ids := h.bySess[s];
      && s in h.sessions && Increasing(ids) && |ids| <= Limit(h.sessions[s].role)
      && (forall id :: id in ids ==> 1 <= id <= h.nextId)
      && (forall id :: id in ids && id in h.streams ==> Touches(h.streams[id], s))
  }

  ghost predicate DaemonOk(h: State, d: string) {
    d in h.daemons ==> RoleOf(h, h.daemons[d]) == Some(DaemonRole) && DevIdOf(h, h.daemons[d]) == d && d != ""
  }

  ghost predicate Inv(h: State) {
    && (forall id :: PipeOk(h, id))
    && (forall s :: ListOk(h, s))
    && (forall d :: DaemonOk(h, d))
  }

  lemma IncreasingCons(x: nat, ids: seq<nat>)
    requires Increasing(ids) && forall y :: y in ids ==> x < y
    ensures Increasing([x] + ids)
  {
    var all := [x] + ids;
    assert forall j :: 0 < j < |all| ==> all[j] == ids[j - 1] && ids[j - 1] in ids;
  }

  lemma {:induction false} LessExact(ids: seq<nat>, id: nat)
    requires Increasing(ids)
    ensures Increasing(Less(ids, id)) && |Less(ids, id)| <= |ids|
    ensures forall x :: x in Less(ids, id) <==> x in ids && x != id
  {
    if ids != [] {
      var rest := ids[1..];
      assert ids == [ids[0]] + rest;
      assert forall x :: x in rest ==> ids[0] < x;
      if ids[0] != id {
        LessExact(rest, id);
        IncreasingCons(ids[0], Less(rest, id));
      }
    }
  }

  lemma AppendExact(ids: seq<nat>, id: nat, bound: nat)
    requires Increasing(ids) && (forall x :: x in ids ==> 1 <= x <= bound) && bound < id
    ensures Increasing(ids + [id])
    ensures forall x :: x in ids + [id] <==> x in ids || x == id
  {
    assert forall i :: 0 <= i < |ids| ==> ids[i] in ids;
  }

  lemma OpenedPipe(h: State, s: SessionId, devId: string)
    requires Inv(h) && h.nextId + 1 < ID_SPAN && Opening(h, s, devId).1.Opened?
    ensures var (n, answer) := Opening(h, s, devId);
            var p := answer.pipe;
            && p == Pipe(h.nextId + 1, s, p.daemon, OpenTarget(h, s, devId)) && s != p.daemon && p.id !in h.streams
            && p.id !in Ids(h, s) && p.id !in Ids(h, p.daemon)
            && n == h.(nextId := p.id, streams := h.streams[p.id := p],
                       bySess := h.bySess[s := Ids(h, s) + [p.id]][p.daemon := Ids(h, p.daemon) + [p.id]])
  {
    var p := Opening(h, s, devId).1.pipe;
    assert PipeOk(h, p.id) && ListOk(h, s) && ListOk(h, p.daemon) && DaemonOk(h, p.devId);
  }

  lemma OpenKeeps(h: State, s: SessionId, devId: string)
    requires Inv(h) && h.nextId + 1 < ID_SPAN
    ensures Inv(Opening(h, s, devId).0)
  {
    var (n, answer) := Opening(h, s, devId);
    if answer.Opened? {
      var p := answer.pipe;
      OpenedPipe(h, s, devId);
      assert ListOk(h, s) && ListOk(h, p.daemon) && DaemonOk(h, p.devId);
      AddedKeeps(h, n, p);
    }
  }

  lemma AddedKeeps(h: State, n: State, p: Pipe)
    requires Inv(h) && p.id == h.nextId + 1 && p.id !in h.streams
    requires RoleOf(h, p.client) == Some(ClientRole) && RoleOf(h, p.daemon) == Some(DaemonRole)
    requires |Ids(h, p.client)| < MAX_STREAMS_PER_CLIENT && |Ids(h, p.daemon)| < MAX_STREAMS_PER_DAEMON
    requires n == h.(nextId := p.id, streams := h.streams[p.id := p],
                     bySess := h.bySess[p.client := Ids(h, p.client) + [p.id]][p.daemon := Ids(h, p.daemon) + [p.id]])
    ensures Inv(n)
  {
    hide ListOk, DaemonOk;
    forall id ensures PipeOk(n, id) { assert PipeOk(h, id); }
    hide PipeOk;
    forall t ensures ListOk(n, t) {
      assert ListOk(h, t);
      AddedList(h, n, p, t);
    }
    forall d ensures DaemonOk(n, d) {
      assert DaemonOk(h, d);
      SameDaemon(h, n, d);
    }
  }

  lemma AddedList(h: State, n: State, p: Pipe, t: SessionId)
    requires ListOk(h, t) && RoleOf(h, p.client) == Some(ClientRole) && RoleOf(h, p.daemon) == Some(DaemonRole)
    requires t == p.client || t == p.daemon ==> t in h.sessions && |Ids(h, t)| < Limit(h.sessions[t].role)
    requires n.nextId == p.id == h.nextId + 1 && n.streams == h.streams[p.id := p] && n.sessions == h.sessions
    requires n.bySess == h.bySess[p.client := Ids(h, p.client) + [p.id]][p.daemon := Ids(h, p.daemon) + [p.id]]
    ensures ListOk(n, t)
  {
    if t == p.client || t == p.daemon { AppendExact(Ids(h, t), p.id, h.nextId); }
  }

  lemma SameDaemon(h: State, n: State, d: string)
    requires DaemonOk(h, d) && n.daemons == h.daemons && n.sessions == h.sessions
    ensures DaemonOk(n, d)
  {
  }

  lemma DropKeeps(h: State, id: nat)
    requires Inv(h)
    ensures Inv(Dropped(h, id))
  {
    if id in h.streams {
      var n, p := Dropped(h, id), h.streams[id];
      assert PipeOk(h, id);
      assert ListOk(h, p.client) && ListOk(h, p.daemon);
      LessExact(Ids(h, p.client), id);
      LessExact(Ids(h, p.daemon), id);
      forall x ensures PipeOk(n, x) { assert PipeOk(h, x); }
      forall t ensures ListOk(n, t) { assert ListOk(h, t); }
      forall d ensures DaemonOk(n, d) { assert DaemonOk(h, d); }
    }
  }

  lemma CloseKeeps(h: State, s: SessionId)
    requires Inv(h)
    ensures Inv(SessionClosed(h, s))
  {
    var n := SessionClosed(h, s);
    forall x ensures PipeOk(n, x) { assert PipeOk(h, x); }
    forall t ensures ListOk(n, t) { assert ListOk(h, t); }
    forall d ensures DaemonOk(n, d) { assert DaemonOk(h, d); }
  }

  lemma ClosedKeeps(h: State, s: SessionId)
    requires Inv(h)
    ensures Inv(Closed(h, s))
  {
    if s !in h.closed { CloseKeeps(h, s); }
  }

  lemma SectionKeeps(h: State, e: Event)
    requires Inv(h) && Enabled(h, e)
    ensures Inv(Section(h, e))
  {
    hide Inv, Opening, Dropped, SessionClosed;
    match e
    case Open(s, devId) => OpenKeeps(h, s, devId);
    case Drop(id) => DropKeeps(h, id);
    case Close(s) => ClosedKeeps(h, s);
    case _ => TablesKeep(h, e);
  }

  lemma TablesKeep(h: State, e: Event)
    requires Inv(h) && Enabled(h, e) && (e.Attach? || e.Reg? || e.Code? || e.Claim?)
    ensures Inv(Section(h, e))
  {
    hide Inv, Claimed, Advertised, DaemonOk;
    match e
    case Attach(_, _, _) => SessionsKeep(h, Section(h, e));
    case Code(s, code, ttl, now) => AdvertisedTables(h, s, code, ttl, now); SessionsKeep(h, Section(h, e));
    case Claim(s, code, now) => ClaimedTables(h, s, code, now); SessionsKeep(h, Section(h, e));
    case Reg(s, devId, sign) =>
      if MayRegister(h, s, devId, sign) {
        assert DaemonOk(Registered(h, s, devId), devId) by { RegisteredOk(h, s, devId, sign); }
        SessionsKeep(h, Section(h, e));
      }
  }

  lemma RegisteredOk(h: State, s: SessionId, devId: string, sign: string)
    requires MayRegister(h, s, devId, sign)
    ensures DaemonOk(Registered(h, s, devId), devId)
  {
  }

  lemma AdvertisedTables(h: State, s: SessionId, code: string, ttl: int, now: int)
    ensures var n := Advertised(h, s, code, ttl, now);
            n.streams == h.streams && n.bySess == h.bySess && n.nextId == h.nextId && n.sessions == h.sessions
            && n.daemons == h.daemons && n.closed == h.closed
  {
    hide Purged;
  }

  lemma ClaimedTables(h: State, s: SessionId, code: string, now: int)
    ensures var n := Claimed(h, s, code, now).0;
            n.streams == h.streams && n.bySess == h.bySess && n.nextId == h.nextId && n.sessions == h.sessions
            && n.daemons == h.daemons && n.closed == h.closed
  {
    hide Limiter.Decide;
  }

  lemma SectionTables(h: State, e: Event)
    requires e.Attach? || e.Reg? || e.Code? || e.Claim?
    ensures var n := Section(h, e); n.streams == h.streams && n.bySess == h.bySess && n.nextId == h.nextId
    ensures Enabled(h, e) ==> forall s :: s in h.sessions ==> RoleOf(Section(h, e), s) == RoleOf(h, s)
  {
    hide Claimed, Advertised;
    match e
    case Code(s, code, ttl, now) => AdvertisedTables(h, s, code, ttl, now);
    case Claim(s, code, now) => ClaimedTables(h, s, code, now);
    case _ =>
  }

  lemma EnabledAfterClose(h: State, e: Event, d: SessionId)
    requires Enabled(h, e) && e.Reg?
    ensures Enabled(Closed(h, d), e)
  {
  }

  lemma NextKeeps(h: State, e: Event)
    requires Inv(h) && Enabled(h, e)
    ensures Inv(Next(h, e))
  {
    hide Inv, Section, Closes, Closed, Enabled;
    var d := Closes(h, e);
    SectionKeeps(h, e);
    if d.Some? {
      ClosedKeeps(Section(h, e), d.value);
      ClosedKeeps(h, d.value);
      if e.Reg? {
        EnabledAfterClose(h, e, d.value);
        SectionKeeps(Closed(h, d.value), e);
      }
    }
  }

  /** Sections that leave the streams alone and change no session's role. */
  lemma SessionsKeep(h: State, n: State)
    requires Inv(h) && n.streams == h.streams && n.bySess == h.bySess && n.nextId == h.nextId
    requires forall s :: s in h.sessions ==> RoleOf(n, s) == RoleOf(h, s)
    requires forall s :: DevIdOf(h, s) != "" ==> DevIdOf(n, s) == DevIdOf(h, s)
    requires forall d :: d in n.daemons && !(d in h.daemons && n.daemons[d] == h.daemons[d]) ==> DaemonOk(n, d)
    ensures Inv(n)
  {
    forall x ensures PipeOk(n, x) { assert PipeOk(h, x); }
    forall t ensures ListOk(n, t) { assert ListOk(h, t); }
    forall d ensures DaemonOk(n, d) { assert DaemonOk(h, d); }
  }

  /** The tables fit together after every run. */
  lemma {:induction false} RunKeeps(h: State, es: seq<Event>)
    requires Inv(h) && Run(h, es)
    ensures Inv(Exec(h, es))
    decreases es
  {
    if es != [] {
      NextKeeps(h, es[0]);
      RunKeeps(Next(h, es[0]), es[1..]);
    }
  }

  function LiveStreams(h: State, s: SessionId): set<nat> {
    set id | id in h.streams && Touches(h.streams[id], s)
  }

  lemma {:induction false} DistinctBound(ids: seq<nat>, live: set<nat>)
    requires forall id :: id in live ==> id in ids
    ensures |live| <= |ids|
  {
    if ids == [] {
      assert live == {};
    } else {
      assert ids == [ids[0]] + ids[1..];
      DistinctBound(ids[1..], live - {ids[0]});
      assert |live| <= |live - {ids[0]}| + 1 by {
        if ids[0] in live { assert live == (live - {ids[0]}) + {ids[0]}; } else { assert live == live - {ids[0]}; }
      }
    }
  }

  /** Never more than 16 live streams at a client or 64 at a daemon. */
  lemma StreamLimits(es: seq<Event>, s: SessionId)
    requires Run(EMPTY, es) && s in Exec(EMPTY, es).sessions
    ensures var h := Exec(EMPTY, es);
            |LiveStreams(h, s)| <= |Ids(h, s)| <= Limit(h.sessions[s].role)
  {
    RunKeeps(EMPTY, es);
    var h := Exec(EMPTY, es);
    assert ListOk(h, s);
    forall id | id in LiveStreams(h, s) ensures id in Ids(h, s) { assert PipeOk(h, id); }
    DistinctBound(Ids(h, s), LiveStreams(h, s));
  }

  // ---- teardown ----

  lemma {:induction false} DoomedMembers(streams: map<nat, Pipe>, ids: seq<nat>)
    requires forall id :: id in ids && id in streams ==> streams[id].id == id
    ensures forall p :: p in Doomed(streams, ids) <==> p.id in ids && p.id in streams && streams[p.id] == p
  {
    if ids != [] {
      assert ids == [ids[0]] + ids[1..];
      DoomedMembers(if ids[0] in streams then streams - {ids[0]} else streams, ids[1..]);
    }
  }

  predicate Rising(ps: seq<Pipe>) {
    forall i, j :: 0 <= i < j < |ps| ==> ps[i].id < ps[j].id
  }

  lemma {:induction false} DoomedRising(streams: map<nat, Pipe>, ids: seq<nat>)
    requires Increasing(ids) && forall id :: id in ids && id in streams ==> streams[id].id == id
    ensures Rising(Doomed(streams, ids))
  {
    if ids != [] {
      var rest, left := ids[1..], if ids[0] in streams then streams - {ids[0]} else streams;
      assert forall x :: x in rest ==> ids[0] < x;
      DoomedRising(left, rest);
      DoomedMembers(left, rest);
      if ids[0] in streams {
        assert ids[0] in ids;
        hide Rising;
        RisingCons(streams[ids[0]], Doomed(left, rest));
      }
    }
  }

  lemma RisingCons(p: Pipe, gone: seq<Pipe>)
    requires Rising(gone) && forall x :: x in gone ==> p.id < x.id
    ensures Rising([p] + gone)
  {
    assert forall j :: 0 <= j < |gone| ==> gone[j] in gone;
  }

  /** The close sent to the other end of a pipe a dying session leaves behind. */
  datatype Notice = Notice(to: SessionId, id: nat)

  function Notices(gone: seq<Pipe>, s: SessionId): seq<Notice> {
    if gone == [] then [] else [Notice(Peer(gone[0], s), gone[0].id)] + Notices(gone[1..], s)
  }

  /** The closes sent when a session is closed, none when it was closed before. */
  function ClosingNotices(h: State, s: SessionId): seq<Notice> {
    if s in h.closed then [] else Notices(Doomed(h.streams, Ids(h, s)), s)
  }

  /** The closes a handler sends for the session it closes. */
  function Told(h: State, e: Event): seq<Notice> {
    var d := Closes(h, e);
    if d.None? then [] else ClosingNotices(h, d.value)
  }

  lemma {:induction false} NoticesAt(gone: seq<Pipe>, s: SessionId)
    ensures |Notices(gone, s)| == |gone|
    ensures forall i :: 0 <= i < |gone| ==> Notices(gone, s)[i] == Notice(Peer(gone[i], s), gone[i].id)
  {
    if gone != [] { NoticesAt(gone[1..], s); }
  }

  /** Teardown is complete and local. */
  lemma TeardownExact(h: State, s: SessionId)
    requires Inv(h) && s in h.sessions
    ensures var n := SessionClosed(h, s);
            && n.streams == (map id | id in h.streams && !Touches(h.streams[id], s) :: h.streams[id])
            && (forall id :: id in n.streams ==> !Touches(n.streams[id], s))
            && s !in n.bySess && s !in n.claimed && s !in n.daemons.Values
            && (forall t :: t != s ==> Ids(n, t) == Ids(h, t))
  {
    var n := SessionClosed(h, s);
    assert ListOk(h, s);
    forall id | id in h.streams ensures id in n.streams <==> !Touches(h.streams[id], s) {
      assert PipeOk(h, id);
    }
    forall d | d in n.daemons ensures n.daemons[d] != s {
      assert DaemonOk(h, d);
    }
  }

  /** Every pipe taken along draws one close, sent to its surviving end. */
  lemma TeardownNotices(h: State, s: SessionId, id: nat)
    requires Inv(h) && s in h.sessions && id in h.streams && Touches(h.streams[id], s)
    ensures var p, notices := h.streams[id], Notices(Doomed(h.streams, Ids(h, s)), s);
            && Peer(p, s) != s && Touches(p, Peer(p, s))
            && Notice(Peer(p, s), id) in notices
            && (forall i, j :: 0 <= i < |notices| && 0 <= j < |notices| && notices[i].id == notices[j].id ==> i == j)
            && (forall i :: 0 <= i < |notices| ==>
                  && notices[i].id in h.streams && Touches(h.streams[notices[i].id], s)
                  && notices[i].to == Peer(h.streams[notices[i].id], s))
  {
    assert ListOk(h, s) && PipeOk(h, id);
    forall x | x in Ids(h, s) && x in h.streams ensures h.streams[x].id == x && Touches(h.streams[x], s) {
      assert PipeOk(h, x);
    }
    var gone := Doomed(h.streams, Ids(h, s));
    DoomedMembers(h.streams, Ids(h, s));
    DoomedRising(h.streams, Ids(h, s));
    assert h.streams[id] in gone;
    hide Doomed, ListOk, PipeOk;
    NoticesAt(gone, s);
    var i :| 0 <= i < |gone| && gone[i] == h.streams[id];
    assert Notices(gone, s)[i] == Notice(Peer(h.streams[id], s), id);
    assert forall k :: 0 <= k < |gone| ==> gone[k] in gone;
  }

  /** Dropping a stream just opened restores every table but the id counter. */
  lemma DropUndoesOpen(h: State, s: SessionId, devId: string)
    requires Inv(h) && h.nextId + 1 < ID_SPAN && Opening(h, s, devId).1.Opened?
    ensures var (n, answer) := Opening(h, s, devId);
            var back := Dropped(n, answer.pipe.id);
            && back.streams == h.streams && (forall t :: Ids(back, t) == Ids(h, t))
            && back == h.(nextId := n.nextId, bySess := back.bySess)
  {
    hide Opening, Inv;
    var p := Opening(h, s, devId).1.pipe;
    OpenedPipe(h, s, devId);
    AddedThenDropped(h, Opening(h, s, devId).0, p);
  }

  lemma AddedThenDropped(h: State, n: State, p: Pipe)
    requires p.id !in h.streams && p.client != p.daemon && p.id !in Ids(h, p.client) && p.id !in Ids(h, p.daemon)
    requires n == h.(nextId := p.id, streams := h.streams[p.id := p],
                     bySess := h.bySess[p.client := Ids(h, p.client) + [p.id]][p.daemon := Ids(h, p.daemon) + [p.id]])
    ensures var back := Dropped(n, p.id);
            && back.streams == h.streams && (forall t :: Ids(back, t) == Ids(h, t))
            && back == h.(nextId := n.nextId, bySess := back.bySess)
  {
    LessAppended(Ids(h, p.client), p.id);
    LessAppended(Ids(h, p.daemon), p.id);
    hide Less;
    var back := Dropped(n, p.id);
    assert back.streams == h.streams;
    hide Unlisted;
    ListsBack(h.bySess, p);
  }

  /** Unlisting what was just listed. */
  lemma ListsBack(lists: map<SessionId, seq<nat>>, p: Pipe)
    requires p.client != p.daemon && p.id !in ListAt(lists, p.client) && p.id !in ListAt(lists, p.daemon)
    ensures var with := lists[p.client := ListAt(lists, p.client) + [p.id]];
            var more := with[p.daemon := ListAt(lists, p.daemon) + [p.id]];
            forall t :: ListAt(Unlisted(Unlisted(more, p.client, p.id), p.daemon, p.id), t) == ListAt(lists, t)
  {
    LessAppended(ListAt(lists, p.client), p.id);
    LessAppended(ListAt(lists, p.daemon), p.id);
    hide Less;
  }

  lemma {:induction false} LessAppended(ids: seq<nat>, id: nat)
    requires id !in ids
    ensures Less(ids + [id], id) == ids
  {
    if ids != [] {
      assert (ids + [id])[1..] == ids[1..] + [id];
      LessAppended(ids[1..], id);
    }
  }

  // ---- ids that outlive their stream ----

  /** Ids left on a list after the stream itself is gone. */
  function StaleIds(h: State, s: SessionId): set<nat> {
    set id | id in Ids(h, s) && id !in h.streams
  }

  /** The streams joining two sessions. */
  function Joining(h: State, s: SessionId, d: SessionId): set<nat> {
    set id | id in h.streams && Touches(h.streams[id], s) && Touches(h.streams[id], d)
  }

  predicate ClosesNow(h: State, e: Event, d: SessionId) {
    Closes(h, e) == Some(d) && d !in h.closed
  }

  /** The streams of a session that an event takes away by closing their other end. */
  function Stranded(h: State, e: Event, s: SessionId): set<nat> {
    var d := Closes(h, e);
    if d.Some? && d.value != s && ClosesNow(h, e, d.value) then Joining(h, s, d.value) else {}
  }

  lemma ClosedStale(h: State, d: SessionId, s: SessionId)
    requires Inv(h)
    ensures StaleIds(Closed(h, d), s)
         == if d in h.closed then StaleIds(h, s) else if d == s then {} else StaleIds(h, s) + Joining(h, s, d)
  {
    if d !in h.closed && d != s {
      var n := Closed(h, d);
      assert ListOk(h, d) && ListOk(h, s);
      forall id ensures id in StaleIds(n, s) <==> id in StaleIds(h, s) || id in Joining(h, s, d) {
        assert PipeOk(h, id);
      }
    }
  }

  lemma DroppedStale(h: State, id: nat, s: SessionId)
    requires Inv(h)
    ensures StaleIds(Dropped(h, id), s) == StaleIds(h, s)
  {
    if id in h.streams {
      var p := h.streams[id];
      assert PipeOk(h, id) && ListOk(h, p.client) && ListOk(h, p.daemon) && ListOk(h, s);
      LessExact(Ids(h, p.client), id);
      LessExact(Ids(h, p.daemon), id);
    }
  }

  lemma OpenedStale(h: State, s: SessionId, devId: string, t: SessionId)
    requires Inv(h) && h.nextId + 1 < ID_SPAN
    ensures StaleIds(Opening(h, s, devId).0, t) == StaleIds(h, t)
  {
    if Opening(h, s, devId).1.Opened? {
      OpenedPipe(h, s, devId);
      assert ListOk(h, t);
    }
  }

  lemma SectionStale(h: State, e: Event, s: SessionId)
    requires Inv(h) && Enabled(h, e) && !e.Close?
    ensures StaleIds(Section(h, e), s) == StaleIds(h, s)
  {
    match e
    case Open(c, devId) => OpenedStale(h, c, devId, s);
    case Drop(id) => DroppedStale(h, id, s);
    case _ =>
  }

  /** A refusal changes no stream and no list. */
  lemma RefusalKeepsStreams(h: State, e: Event)
    requires Closes(h, e).Some? && !e.Reg? && !e.Close?
    ensures Section(h, e).streams == h.streams && Section(h, e).closed == h.closed
  {
  }

  lemma RegLists(h: State, e: Event, s: SessionId)
    requires e.Reg?
    ensures StaleIds(Section(h, e), s) == StaleIds(h, s)
  {
  }

  /** Exactly how one event changes the ids left behind on a session's list. */
  lemma StaleStep(h: State, e: Event, s: SessionId)
    requires Inv(h) && Enabled(h, e)
    ensures StaleIds(Next(h, e), s) == if ClosesNow(h, e, s) then {} else StaleIds(h, s) + Stranded(h, e, s)
  {
    hide Inv, Enabled, Section, Closed, StaleIds, Joining, Closes;
    var d := Closes(h, e);
    if d.None? {
      NoClose(h, e);
      SectionStale(h, e, s);
    } else if e.Reg? {
      ClosedStale(h, d.value, s);
      RegLists(Closed(h, d.value), e, s);
    } else if e.Close? {
      CloseSection(h, e);
      ClosedStale(h, d.value, s);
    } else {
      SectionKeeps(h, e);
      SectionStale(h, e, s);
      RefusalKeepsStreams(h, e);
      ClosedStale(Section(h, e), d.value, s);
      SameJoining(h, Section(h, e), s, d.value);
    }
  }

  lemma NoClose(h: State, e: Event)
    requires Closes(h, e).None?
    ensures !e.Close?
  {
  }

  lemma CloseSection(h: State, e: Event)
    requires e.Close?
    ensures Closes(h, e) == Some(e.s) && Next(h, e) == Closed(h, e.s)
  {
  }

  lemma SameJoining(h: State, n: State, s: SessionId, d: SessionId)
    requires n.streams == h.streams
    ensures Joining(n, s, d) == Joining(h, s, d)
  {
  }

  /** The ids stranded over a run, forgotten when the session itself closes. */
  function LeftBehind(h: State, es: seq<Event>, s: SessionId, left: set<nat>): set<nat>
    decreases es
  {
    if es == [] then left
    else LeftBehind(Next(h, es[0]), es[1..], s, if ClosesNow(h, es[0], s) then {} else left + Stranded(h, es[0], s))
  }

  lemma {:induction false} StaleRun(h: State, es: seq<Event>, s: SessionId)
    requires Inv(h) && Run(h, es)
    ensures StaleIds(Exec(h, es), s) == LeftBehind(h, es, s, StaleIds(h, s))
    decreases es
  {
    if es != [] {
      hide Inv, Next, StaleIds, Stranded, ClosesNow;
      StaleStep(h, es[0], s);
      NextKeeps(h, es[0]);
      StaleRun(Next(h, es[0]), es[1..], s);
    }
  }

  /**
   * In every run a session's list names, besides its live streams, exactly the streams it lost to a peer that
   * closed; it matches its live streams exactly when it lost none that way.
   */
  lemma ListExact(es: seq<Event>, s: SessionId)
    requires Run(EMPTY, es)
    ensures var h, left := Exec(EMPTY, es), LeftBehind(EMPTY, es, s, {});
            && StaleIds(h, s) == left && Listed(Ids(h, s)) == LiveStreams(h, s) + left && LiveStreams(h, s) !! left
            && |Ids(h, s)| == |LiveStreams(h, s)| + |left|
            && ((forall id :: id in Ids(h, s) <==> id in LiveStreams(h, s)) <==> left == {})
  {
    RunKeeps(EMPTY, es);
    StaleRun(EMPTY, es, s);
    assert StaleIds(EMPTY, s) == {};
    ListSplit(Exec(EMPTY, es), s);
  }

  lemma ListSplit(h: State, s: SessionId)
    requires Inv(h)
    ensures Listed(Ids(h, s)) == LiveStreams(h, s) + StaleIds(h, s) && LiveStreams(h, s) !! StaleIds(h, s)
    ensures |Ids(h, s)| == |LiveStreams(h, s)| + |StaleIds(h, s)|
  {
    assert ListOk(h, s);
    forall id | id in LiveStreams(h, s) ensures id in Ids(h, s) { assert PipeOk(h, id); }
    assert Listed(Ids(h, s)) == LiveStreams(h, s) + StaleIds(h, s);
    DistinctSize(Ids(h, s));
    hide LiveStreams, StaleIds, Listed, Inv;
    SumSize(LiveStreams(h, s), StaleIds(h, s));
  }

  lemma SumSize(a: set<nat>, b: set<nat>)
    requires a !! b
    ensures |a + b| == |a| + |b|
  {
  }

  lemma {:induction false} DistinctSize(ids: seq<nat>)
    requires Increasing(ids)
    ensures |Listed(ids)| == |ids|
  {
    if ids == [] {
      assert Listed(ids) == {};
    } else {
      var rest := ids[1..];
      assert ids == [ids[0]] + rest;
      DistinctSize(rest);
      FirstNotAgain(ids);
      assert Listed(ids) == {ids[0]} + Listed(rest);
    }
  }

  lemma FirstNotAgain(ids: seq<nat>)
    requires Increasing(ids) && ids != []
    ensures ids[0] !in ids[1..] && Increasing(ids[1..])
  {
  }

  /** What counts against a session's limit. */
  function Counted(h: State, s: SessionId): nat {
    |LiveStreams(h, s)| + |StaleIds(h, s)|
  }

  /** The limits are reached by live streams and left-behind ids together. */
  lemma LimitIff(h: State, s: SessionId, devId: string)
    requires Inv(h)
    ensures var dev := OpenTarget(h, s, devId);
            Opening(h, s, devId).1 == Rejected(TooManyStreams) <==>
              && RoleOf(h, s) == Some(ClientRole) && dev != ""
              && (|| Counted(h, s) >= MAX_STREAMS_PER_CLIENT
                  || (dev in h.daemons && Counted(h, h.daemons[dev]) >= MAX_STREAMS_PER_DAEMON))
  {
    ListSplit(h, s);
    var dev := OpenTarget(h, s, devId);
    if dev in h.daemons { ListSplit(h, h.daemons[dev]); }
    hide LiveStreams, StaleIds, Inv;
  }

  /** A refused open ends the session and every stream it still had, and no other stream. */
  lemma RefusalEndsSession(h: State, s: SessionId, devId: string)
    requires Inv(h) && Enabled(h, Open(s, devId)) && s !in h.closed && Opening(h, s, devId).1.Rejected?
    ensures var n := Next(h, Open(s, devId));
            && s in n.closed && Ids(n, s) == [] && LiveStreams(n, s) == {}
            && n.streams == (map id | id in h.streams && !Touches(h.streams[id], s) :: h.streams[id])
            && (forall t :: t != s ==> Ids(n, t) == Ids(h, t))
  {
    RefusedOpen(h, s, devId);
    TeardownExact(h, s);
    hide Inv, SessionClosed, Opening;
    var n := Next(h, Open(s, devId));
    assert n == SessionClosed(h, s);
    assert Ids(n, s) == [] && LiveStreams(n, s) == {};
  }

  lemma RefusedOpen(h: State, s: SessionId, devId: string)
    requires Opening(h, s, devId).1.Rejected?
    ensures Opening(h, s, devId).0 == h && Closes(h, Open(s, devId)) == Some(s)
    ensures s !in h.closed ==> Next(h, Open(s, devId)) == SessionClosed(h, s) && s in SessionClosed(h, s).closed
  {
  }

  lemma {:induction false} ExecMore(h: State, es: seq<Event>, e: Event)
    requires Run(h, es) && Enabled(Exec(h, es), e)
    ensures Run(h, es + [e]) && Exec(h, es + [e]) == Next(Exec(h, es), e)
    decreases es
  {
    if es == [] {
      assert (es + [e])[1..] == [];
    } else {
      assert (es + [e])[1..] == es[1..] + [e];
      ExecMore(Next(h, es[0]), es[1..], e);
    }
  }

  /** Such a client is within reach: attach a client and a daemon, register it, open n streams. */
  lemma {:induction false} FullClient(n: nat) returns (es: seq<Event>)
    requires n <= MAX_STREAMS_PER_CLIENT
    ensures Run(EMPTY, es)
    ensures var h := Exec(EMPTY, es);
            && h.sessions.Keys == {1, 2} && h.nextId == n && h.sessions[1].role == ClientRole
            && h.daemons == map["d" := 2] && |Ids(h, 1)| == |Ids(h, 2)| == n
            && h.closed == {} && h.bySess.Keys <= {1, 2}
            && forall id :: id in h.streams ==> h.streams[id].client == 1 && h.streams[id].daemon == 2
  {
    if n == 0 {
      es := [];
      ExecMore(EMPTY, es, Attach(1, ClientRole, ""));
      es := es + [Attach(1, ClientRole, "")];
      ExecMore(EMPTY, es, Attach(2, DaemonRole, ""));
      es := es + [Attach(2, DaemonRole, "")];
      assert ValidToken("d", MAX_DEV_ID_LEN) && ValidToken("d", MAX_SIGN_LEN);
      ExecMore(EMPTY, es, Reg(2, "d", "d"));
      es := es + [Reg(2, "d", "d")];
    } else {
      es := FullClient(n - 1);
      RunKeeps(EMPTY, es);
      var h := Exec(EMPTY, es);
      assert Opening(h, 1, "d").1.Opened?;
      OpenedPipe(h, 1, "d");
      ExecMore(EMPTY, es, Open(1, "d"));
      es := es + [Open(1, "d")];
    }
  }

  /**
   * A client with fifteen streams to one daemon and one to another. The first daemon disconnects; the client,
   * one live stream left, asks for another, is refused for having too many, and loses that stream too.
   */
  lemma RefusedWithOneLive() returns (es: seq<Event>)
    ensures Run(EMPTY, es) && Enabled(Exec(EMPTY, es), Open(1, "e"))
    ensures var h := Exec(EMPTY, es);
            && |LiveStreams(h, 1)| == 1 && 1 !in h.closed && Opening(h, 1, "e").1 == Rejected(TooManyStreams)
            && LiveStreams(Next(h, Open(1, "e")), 1) == {} && 1 in Next(h, Open(1, "e")).closed
  {
    es := TwoDaemons();
    var h := Exec(EMPTY, es);
    RunKeeps(EMPTY, es);
    ExecMore(EMPTY, es, Close(2));
    es := es + [Close(2)];
    TeardownExact(h, 2);
    CloseKeeps(h, 2);
    hide Inv;
    var n := Exec(EMPTY, es);
    assert n == SessionClosed(h, 2);
    assert LiveStreams(n, 1) == {16};
    assert Opening(n, 1, "e").1 == Rejected(TooManyStreams);
    RefusalEndsSession(n, 1, "e");
  }

  lemma TwoDaemons() returns (es: seq<Event>)
    ensures Run(EMPTY, es)
    ensures var h := Exec(EMPTY, es);
            && h.sessions.Keys == {1, 2, 3} && h.closed == {} && h.nextId == 16 && |Ids(h, 1)| == 16
            && h.sessions[1].role == ClientRole
            && 16 in h.streams && h.streams[16].client == 1 && h.streams[16].daemon == 3
            && forall id :: id in h.streams && id != 16 ==> Touches(h.streams[id], 2)
  {
    es := SecondDaemon();
    var h := Exec(EMPTY, es);
    RunKeeps(EMPTY, es);
    hide Inv;
    assert Opening(h, 1, "e").1.Opened?;
    OpenedPipe(h, 1, "e");
    ExecMore(EMPTY, es, Open(1, "e"));
    es := es + [Open(1, "e")];
    hide Opening;
  }

  lemma SecondDaemon() returns (es: seq<Event>)
    ensures Run(EMPTY, es)
    ensures var h := Exec(EMPTY, es);
            && h.sessions.Keys == {1, 2, 3} && h.closed == {} && h.nextId == 15 && |Ids(h, 1)| == 15 && Ids(h, 3) == []
            && h.sessions[1].role == ClientRole && "e" in h.daemons && h.daemons["e"] == 3
            && forall id :: id in h.streams ==> Touches(h.streams[id], 2)
  {
    es := FullClient(15);
    ExecMore(EMPTY, es, Attach(3, DaemonRole, ""));
    es := es + [Attach(3, DaemonRole, "")];
    assert ValidToken("e", MAX_DEV_ID_LEN) && ValidToken("e", MAX_SIGN_LEN);
    ExecMore(EMPTY, es, Reg(3, "e", "e"));
    es := es + [Reg(3, "e", "e")];
  }
}
