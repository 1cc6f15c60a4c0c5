/**
 * What the relay hub was seen to do, as a diary: registrations, advertisements of codes, claims and ends of
 * sessions. After every run the hub's codes, claims and registrations are exactly the entries nothing has undone.
 */
module Diary {
  import opened Basics
  import Limiter
  import opened Hub

  /** owner: the devId of a session that had registered one. A miss is a claim let through that found no code. */
  datatype Note =
    | Join(s: SessionId, devId: string)
    | Advertise(code: string, devId: string, at: int, expires: int)
    | Hit(code: string, devId: string, client: SessionId, at: int)
    | Miss(code: string, at: int)
    | Gone(s: SessionId, owner: Option<string>)

  function OwnerOf(h: State, s: SessionId): Option<string> {
    if RoleOf(h, s) == Some(DaemonRole) && DevIdOf(h, s) != "" then Some(DevIdOf(h, s)) else None
  }

  /** What a frame is seen to do while its section runs. */
  function SectionNotes(h: State, e: Event): seq<Note> {
    match e
    case Reg(s, devId, sign) => if MayRegister(h, s, devId, sign) then [Join(s, devId)] else []
    case Code(s, code, ttl, now) =>
      if MayAdvertise(h, s, code) then [Advertise(code, DevIdOf(h, s), now, now + CodeTtl(ttl))] else []
    case Claim(s, code, now) =>
      (match Claimed(h, s, code, now).1
       case Bound(devId) => [Hit(code, devId, s, now)]
       case Refused(error) => if error.InvalidCode? then [Miss(code, now)] else [])
    case _ => []
  }

  function GoneNotes(h: State, d: SessionId): seq<Note> {
    if d in h.closed then [] else [Gone(d, OwnerOf(h, d))]
  }

  function Notes(h: State, e: Event): seq<Note> {
    var d := Closes(h, e);
    if d.None? then SectionNotes(h, e)
    else if e.Reg? then GoneNotes(h, d.value) + SectionNotes(h, e)
    else SectionNotes(h, e) + GoneNotes(h, d.value)
  }

  function DiaryOf(h: State, es: seq<Event>): seq<Note>
    decreases es
  {
    if es == [] then [] else Notes(h, es[0]) + DiaryOf(Next(h, es[0]), es[1..])
  }

  // ---- what stands ----

  /**
   * A code is undone by a later entry about it, by the end of its owner, or by being found expired when another
   * code is advertised; a claim by the client's next one or its end; a registration by another under the same devId
   * or its session's end.
   */
  predicate Undoes(n: Note, x: Note) {
    match x
    case Join(s, devId) => (n.Join? && n.devId == devId) || (n.Gone? && n.s == s)
    case Advertise(code, devId, _, expires) =>
      || (n.Advertise? && (n.code == code || n.at > expires))
      || ((n.Hit? || n.Miss?) && n.code == code)
      || (n.Gone? && n.owner == Some(devId))
    case Hit(_, _, client, _) => (n.Hit? && n.client == client) || (n.Gone? && n.s == client)
    case _ => false
  }

  /** In the diary, and nothing after it undoes it. */
  ghost predicate Stands(diary: seq<Note>, x: Note) {
    exists i :: 0 <= i < |diary| && diary[i] == x && Undisturbed(diary[i + 1..], x)
  }

  predicate Undisturbed(later: seq<Note>, x: Note) {
    forall n :: n in later ==> !Undoes(n, x)
  }

  lemma StillStands(diary: seq<Note>, n: Note, x: Note)
    requires Stands(diary, x) && !Undoes(n, x)
    ensures Stands(diary + [n], x)
  {
    hide Undoes;
    var more := diary + [n];
    var i :| 0 <= i < |diary| && diary[i] == x && Undisturbed(diary[i + 1..], x);
    assert more[i + 1..] == diary[i + 1..] + [n] && more[i] == x;
  }

  lemma StoodBefore(diary: seq<Note>, n: Note, x: Note)
    requires Stands(diary + [n], x) && x != n
    ensures Stands(diary, x) && !Undoes(n, x)
  {
    hide Undoes;
    var more := diary + [n];
    var i :| 0 <= i < |more| && more[i] == x && Undisturbed(more[i + 1..], x);
    assert more[i + 1..] == diary[i + 1..] + [n];
  }

  lemma StandsMore(diary: seq<Note>, n: Note, x: Note)
    ensures Stands(diary + [n], x) <==> x == n || (Stands(diary, x) && !Undoes(n, x))
  {
    if x == n {
      assert (diary + [n])[|diary|] == x && (diary + [n])[|diary| + 1..] == [];
    } else {
      hide Stands, Undoes;
      if Stands(diary + [n], x) { StoodBefore(diary, n, x); }
      if Stands(diary, x) && !Undoes(n, x) { StillStands(diary, n, x); }
    }
  }

  /** The code stands, advertised for that devId until that time. */
  ghost predicate CodeStands(diary: seq<Note>, code: string, devId: string, expires: int) {
    exists at :: Stands(diary, Advertise(code, devId, at, expires))
  }

  ghost predicate ClaimStands(diary: seq<Note>, s: SessionId, devId: string) {
    exists code, at :: Stands(diary, Hit(code, devId, s, at))
  }

  ghost predicate CodeFollows(h: State, diary: seq<Note>, code: string, devId: string, expires: int) {
    (code in h.codes && h.codes[code] == CodeEntry(devId, expires)) <==> CodeStands(diary, code, devId, expires)
  }

  ghost predicate ClaimFollows(h: State, diary: seq<Note>, s: SessionId, devId: string) {
    (s in h.claimed && h.claimed[s] == devId) <==> ClaimStands(diary, s, devId)
  }

  ghost predicate JoinFollows(h: State, diary: seq<Note>, s: SessionId, devId: string) {
    (devId in h.daemons && h.daemons[devId] == s) <==> Stands(diary, Join(s, devId))
  }

  /** Codes, claims and registrations are exactly what stands in the diary. */
  ghost predicate Follows(h: State, diary: seq<Note>) {
    && (forall code, devId, expires :: CodeFollows(h, diary, code, devId, expires))
    && (forall s, devId :: ClaimFollows(h, diary, s, devId))
    && (forall s, devId :: JoinFollows(h, diary, s, devId))
  }

  // ---- one entry at a time ----

  lemma CodeMore(diary: seq<Note>, n: Note, code: string, devId: string, expires: int)
    ensures CodeStands(diary + [n], code, devId, expires)
       <==> || (n.Advertise? && n.code == code && n.devId == devId && n.expires == expires)
            || (CodeStands(diary, code, devId, expires) && !Undoes(n, Advertise(code, devId, 0, expires)))
  {
    forall at ensures Stands(diary + [n], Advertise(code, devId, at, expires))
                 <==> || Advertise(code, devId, at, expires) == n
                      || (Stands(diary, Advertise(code, devId, at, expires))
                          && !Undoes(n, Advertise(code, devId, 0, expires)))
    {
      StandsMore(diary, n, Advertise(code, devId, at, expires));
    }
    hide Stands, Undoes;
    if n.Advertise? && n.code == code && n.devId == devId && n.expires == expires {
      assert Stands(diary + [n], Advertise(code, devId, n.at, expires));
    }
  }

  lemma ClaimMore(diary: seq<Note>, n: Note, s: SessionId, devId: string)
    ensures ClaimStands(diary + [n], s, devId)
       <==> || (n.Hit? && n.client == s && n.devId == devId)
            || (ClaimStands(diary, s, devId) && !(n.Hit? && n.client == s) && !(n.Gone? && n.s == s))
  {
    forall code, at ensures Stands(diary + [n], Hit(code, devId, s, at))
                       <==> || Hit(code, devId, s, at) == n
                            || (&& Stands(diary, Hit(code, devId, s, at))
                                && !(n.Hit? && n.client == s) && !(n.Gone? && n.s == s))
    {
      StandsMore(diary, n, Hit(code, devId, s, at));
    }
    hide Stands;
    if n.Hit? && n.client == s && n.devId == devId {
      assert Stands(diary + [n], Hit(n.code, devId, s, n.at));
    }
  }

  lemma JoinMore(diary: seq<Note>, n: Note, s: SessionId, devId: string)
    ensures Stands(diary + [n], Join(s, devId))
       <==> || n == Join(s, devId)
            || (Stands(diary, Join(s, devId)) && !(n.Join? && n.devId == devId) && !(n.Gone? && n.s == s))
  {
    StandsMore(diary, n, Join(s, devId));
  }

  /** How the tables change with one entry. */
  ghost predicate Moves(h: State, n: State, x: Note) {
    && n.codes == (match x
                   case Advertise(code, devId, at, expires) => Purged(h.codes[code := CodeEntry(devId, expires)], at)
                   case Hit(code, _, _, _) => h.codes - {code}
                   case Miss(code, _) => h.codes - {code}
                   case Gone(_, owner) => if owner.Some? then CodesWithout(h.codes, owner.value) else h.codes
                   case _ => h.codes)
    && n.claimed == (match x
                     case Hit(_, devId, client, _) => h.claimed[client := devId]
                     case Gone(s, _) => h.claimed - {s}
                     case _ => h.claimed)
    && (match x
        case Join(s, devId) => n.daemons == h.daemons[devId := s]
        case Gone(s, _) =>
          forall d :: (d in n.daemons <==> d in h.daemons && h.daemons[d] != s)
                      && (d in n.daemons ==> n.daemons[d] == h.daemons[d])
        case _ => n.daemons == h.daemons)
  }

  lemma CodeMoves(h: State, n: State, diary: seq<Note>, x: Note, code: string, devId: string, expires: int)
    requires CodeFollows(h, diary, code, devId, expires) && Moves(h, n, x) && (x.Advertise? ==> x.at < x.expires)
    ensures CodeFollows(n, diary + [x], code, devId, expires)
  {
    hide CodeStands;
    CodeMore(diary, x, code, devId, expires);
  }

  lemma ClaimMoves(h: State, n: State, diary: seq<Note>, x: Note, s: SessionId, devId: string)
    requires ClaimFollows(h, diary, s, devId) && Moves(h, n, x)
    ensures ClaimFollows(n, diary + [x], s, devId)
  {
    hide ClaimStands, Purged, CodesWithout;
    ClaimMore(diary, x, s, devId);
  }

  lemma JoinMoves(h: State, n: State, diary: seq<Note>, x: Note, s: SessionId, devId: string)
    requires JoinFollows(h, diary, s, devId) && Moves(h, n, x)
    ensures JoinFollows(n, diary + [x], s, devId)
  {
    hide Stands, Purged, CodesWithout;
    JoinMore(diary, x, s, devId);
  }

  lemma Moved(h: State, n: State, diary: seq<Note>, x: Note)
    requires Follows(h, diary) && Moves(h, n, x) && (x.Advertise? ==> x.at < x.expires)
    ensures Follows(n, diary + [x])
  {
    hide CodeFollows, ClaimFollows, JoinFollows, Moves;
    forall code, devId, expires ensures CodeFollows(n, diary + [x], code, devId, expires) {
      CodeMoves(h, n, diary, x, code, devId, expires);
    }
    forall s, devId ensures ClaimFollows(n, diary + [x], s, devId) {
      ClaimMoves(h, n, diary, x, s, devId);
    }
    forall s, devId ensures JoinFollows(n, diary + [x], s, devId) {
      JoinMoves(h, n, diary, x, s, devId);
    }
  }

  /** Nothing noted, nothing changed. */
  lemma Unmoved(h: State, n: State, diary: seq<Note>)
    requires Follows(h, diary) && n.codes == h.codes && n.claimed == h.claimed && n.daemons == h.daemons
    ensures Follows(n, diary + [])
  {
    hide CodeStands, ClaimStands, Stands;
    assert diary + [] == diary;
    forall code, devId, expires ensures CodeFollows(n, diary, code, devId, expires) {
      assert CodeFollows(h, diary, code, devId, expires);
    }
    forall s, devId ensures ClaimFollows(n, diary, s, devId) { assert ClaimFollows(h, diary, s, devId); }
    forall s, devId ensures JoinFollows(n, diary, s, devId) { assert JoinFollows(h, diary, s, devId); }
  }

  // ---- every step ----

  lemma ClosedFollows(h: State, d: SessionId, diary: seq<Note>)
    requires Inv(h) && Follows(h, diary)
    ensures Follows(Closed(h, d), diary + GoneNotes(h, d))
  {
    if d in h.closed {
      Unmoved(h, h, diary);
    } else {
      ClosedMoves(h, d);
      hide Follows, Moves;
      Moved(h, SessionClosed(h, d), diary, Gone(d, OwnerOf(h, d)));
    }
  }

  lemma ClosedMoves(h: State, d: SessionId)
    requires Inv(h)
    ensures Moves(h, SessionClosed(h, d), Gone(d, OwnerOf(h, d)))
  {
    hide CodesWithout, PipeOk, ListOk;
    forall devId | devId in h.daemons && h.daemons[devId] == d ensures OwnerOf(h, d) == Some(devId) {
      assert DaemonOk(h, devId);
    }
  }

  lemma ClaimSectionMoves(h: State, s: SessionId, code: string, now: int)
    ensures var (n, answer) := Claimed(h, s, code, now);
            match answer
            case Bound(devId) => Moves(h, n, Hit(code, devId, s, now))
            case Refused(error) =>
              if error.InvalidCode? then Moves(h, n, Miss(code, now))
              else n.codes == h.codes && n.claimed == h.claimed && n.daemons == h.daemons
  {
    hide Limiter.Decide, Purged, CodesWithout;
    if code !in h.codes { assert h.codes - {code} == h.codes; }
  }

  lemma OtherSection(h: State, e: Event)
    requires SectionNotes(h, e) == [] && !e.Close?
    ensures var n := Section(h, e); n.codes == h.codes && n.claimed == h.claimed && n.daemons == h.daemons
  {
    if e.Claim? { ClaimSectionMoves(h, e.s, e.code, e.now); }
    hide Claimed;
  }

  lemma SectionFollows(h: State, e: Event, diary: seq<Note>)
    requires Follows(h, diary) && !e.Close?
    ensures Follows(Section(h, e), diary + SectionNotes(h, e))
  {
    var n := Section(h, e);
    if SectionNotes(h, e) == [] {
      OtherSection(h, e);
      hide Follows, Section, SectionNotes;
      Unmoved(h, n, diary);
    } else {
      var x := SectionNotes(h, e)[0];
      assert SectionNotes(h, e) == [x];
      SectionMoves(h, e, x);
      hide Follows, Moves, Section, SectionNotes;
      Moved(h, n, diary, x);
    }
  }

  lemma SectionMoves(h: State, e: Event, x: Note)
    requires SectionNotes(h, e) == [x]
    ensures Moves(h, Section(h, e), x) && (x.Advertise? ==> x.at < x.expires <= x.at + MAX_CODE_TTL)
  {
    if e.Claim? { ClaimSectionMoves(h, e.s, e.code, e.now); }
    hide Claimed, Purged, CodesWithout;
  }

  /** A section that is not a registration's leaves devIds and ended sessions alone. */
  lemma SectionOwners(h: State, e: Event, d: SessionId)
    requires Closes(h, e) == Some(d) && !e.Reg? && !e.Close?
    ensures GoneNotes(Section(h, e), d) == GoneNotes(h, d)
  {
    match e
    case Code(s, code, ttl, now) => AdvertisedTables(h, s, code, ttl, now);
    case Claim(s, code, now) => ClaimedTables(h, s, code, now);
    case _ =>
    hide Claimed, Advertised;
  }

  lemma SameRegNotes(h: State, e: Event, d: SessionId)
    requires e.Reg?
    ensures SectionNotes(Closed(h, d), e) == SectionNotes(h, e)
  {
  }

  lemma NextFollows(h: State, e: Event, diary: seq<Note>)
    requires Inv(h) && Enabled(h, e) && Follows(h, diary)
    ensures Follows(Next(h, e), diary + Notes(h, e))
  {
    hide Follows, SectionNotes, GoneNotes, Closes, Closed, Section, Inv, Enabled;
    var d := Closes(h, e);
    if d.None? {
      NoClose(h, e);
      SectionFollows(h, e, diary);
    } else if e.Reg? {
      ClosedFollows(h, d.value, diary);
      SectionFollows(Closed(h, d.value), e, diary + GoneNotes(h, d.value));
      SameRegNotes(h, e, d.value);
      Regroup(diary, GoneNotes(h, d.value), SectionNotes(h, e));
    } else if e.Close? {
      CloseSection(h, e);
      NothingNoted(h, e);
      ClosedFollows(h, d.value, diary);
    } else {
      SectionKeeps(h, e);
      SectionFollows(h, e, diary);
      SectionOwners(h, e, d.value);
      ClosedFollows(Section(h, e), d.value, diary + SectionNotes(h, e));
      Regroup(diary, SectionNotes(h, e), GoneNotes(h, d.value));
    }
  }

  lemma NothingNoted(h: State, e: Event)
    requires e.Close?
    ensures SectionNotes(h, e) == [] && [] + GoneNotes(h, e.s) == GoneNotes(h, e.s)
  {
  }

  lemma {:induction false} RunFollows(h: State, es: seq<Event>, diary: seq<Note>)
    requires Inv(h) && Run(h, es) && Follows(h, diary)
    ensures Follows(Exec(h, es), diary + DiaryOf(h, es))
    decreases es
  {
    if es == [] {
      assert diary + [] == diary;
    } else {
      hide Follows, Notes, Next, Inv;
      NextFollows(h, es[0], diary);
      NextKeeps(h, es[0]);
      RunFollows(Next(h, es[0]), es[1..], diary + Notes(h, es[0]));
      Regroup(diary, Notes(h, es[0]), DiaryOf(Next(h, es[0]), es[1..]));
    }
  }

  /** In every run codes, claims and registrations are what stands in its diary. */
  lemma TablesFollow(es: seq<Event>)
    requires Run(EMPTY, es)
    ensures Inv(Exec(EMPTY, es)) && Follows(Exec(EMPTY, es), DiaryOf(EMPTY, es))
  {
    RunKeeps(EMPTY, es);
    RunFollows(EMPTY, es, []);
    assert [] + DiaryOf(EMPTY, es) == DiaryOf(EMPTY, es);
  }

  // ---- claims ----

  /** A claim by a client at an address. */
  predicate CallsAt(h: State, e: Event, ip: string) {
    e.Claim? && RoleOf(h, e.s) == Some(ClientRole) && h.sessions[e.s].remoteIp == ip
  }

  function CallOf(h: State, e: Event, ip: string): seq<int> {
    if CallsAt(h, e, ip) then [e.now] else []
  }

  function ServedOf(h: State, e: Event, ip: string): seq<int> {
    if CallsAt(h, e, ip) && Claimed(h, e.s, e.code, e.now).1 != Refused(RateLimited) then [e.now] else []
  }

  /** The times of the claims made from an address. */
  function CallsFrom(h: State, es: seq<Event>, ip: string): seq<int>
    decreases es
  {
    if es == [] then []
    else CallOf(h, es[0], ip) + CallsFrom(Next(h, es[0]), es[1..], ip)
  }

  /** Those not refused for their rate. */
  function ServedFrom(h: State, es: seq<Event>, ip: string): seq<int>
    decreases es
  {
    if es == [] then []
    else ServedOf(h, es[0], ip) + ServedFrom(Next(h, es[0]), es[1..], ip)
  }

  lemma SectionLimiters(h: State, e: Event)
    requires !e.Claim?
    ensures Section(h, e).limiters == h.limiters
  {
  }

  lemma ClaimLimiters(h: State, s: SessionId, code: string, now: int, ip: string)
    ensures var (n, answer) := Claimed(h, s, code, now);
            if RoleOf(h, s) == Some(ClientRole) && h.sessions[s].remoteIp == ip then
              && LimiterOf(n, ip) == Limiter.Decide(Limiter.CLAIMS, LimiterOf(h, ip), now).0
              && (answer == Refused(RateLimited) <==> !Limiter.Decide(Limiter.CLAIMS, LimiterOf(h, ip), now).1)
            else LimiterOf(n, ip) == LimiterOf(h, ip)
  {
    hide Limiter.Decide;
  }

  lemma LimiterStep(h: State, e: Event, ip: string)
    ensures LimiterOf(Next(h, e), ip)
         == if CallsAt(h, e, ip) then Limiter.Decide(Limiter.CLAIMS, LimiterOf(h, ip), e.now).0 else LimiterOf(h, ip)
    ensures CallsAt(h, e, ip) ==>
              (Claimed(h, e.s, e.code, e.now).1 == Refused(RateLimited)
               <==> !Limiter.Decide(Limiter.CLAIMS, LimiterOf(h, ip), e.now).1)
  {
    if e.Claim? {
      ClaimLimiters(h, e.s, e.code, e.now, ip);
    } else {
      SectionLimiters(h, e);
      if e.Reg? && Closes(h, e).Some? { SectionLimiters(Closed(h, Closes(h, e).value), e); }
    }
    hide Limiter.Decide, Purged, CodesWithout, Opening, Dropped, Claimed, Closes;
  }

  /** Calls leads to the limiter, and served are the calls it let through. */
  ghost predicate Counts(h: State, ip: string, calls: seq<int>, served: seq<int>) {
    && LimiterOf(h, ip) == Limiter.After(Limiter.CLAIMS, Limiter.INITIAL, calls)
    && served == Limiter.Permitted(Limiter.CLAIMS, Limiter.INITIAL, calls)
  }

  lemma CountsStep(h: State, e: Event, ip: string, calls: seq<int>, served: seq<int>)
    requires Counts(h, ip, calls, served)
    ensures Counts(Next(h, e), ip, calls + CallOf(h, e, ip), served + ServedOf(h, e, ip))
  {
    LimiterStep(h, e, ip);
    if CallsAt(h, e, ip) {
      Limiter.OneMore(Limiter.CLAIMS, calls, e.now);
    } else {
      assert calls + [] == calls && served + [] == served;
    }
    hide Limiter.Decide, Limiter.After, Limiter.Permitted, LimiterOf, Next, Claimed, CallsAt;
  }

  /** The limiter of an address has seen every claim made from there, in order. */
  lemma {:induction false} LimiterRun(h: State, es: seq<Event>, ip: string, calls: seq<int>, served: seq<int>)
    requires Counts(h, ip, calls, served)
    ensures Counts(Exec(h, es), ip, calls + CallsFrom(h, es, ip), served + ServedFrom(h, es, ip))
    decreases es
  {
    if es == [] {
      assert calls + [] == calls && served + [] == served;
    } else {
      hide Counts, CallOf, ServedOf, Next;
      var n := Next(h, es[0]);
      CountsStep(h, es[0], ip, calls, served);
      LimiterRun(n, es[1..], ip, calls + CallOf(h, es[0], ip), served + ServedOf(h, es[0], ip));
      Regroup(calls, CallOf(h, es[0], ip), CallsFrom(n, es[1..], ip));
      Regroup(served, ServedOf(h, es[0], ip), ServedFrom(n, es[1..], ip));
    }
  }

  lemma LimiterCounts(es: seq<Event>, ip: string)
    ensures Counts(Exec(EMPTY, es), ip, CallsFrom(EMPTY, es, ip), ServedFrom(EMPTY, es, ip))
  {
    LimiterRun(EMPTY, es, ip, [], []);
    hide Counts;
    assert [] + CallsFrom(EMPTY, es, ip) == CallsFrom(EMPTY, es, ip);
    assert [] + ServedFrom(EMPTY, es, ip) == ServedFrom(EMPTY, es, ip);
  }

  /** No minute holds more than five claims from one address that were not refused for their rate. */
  lemma ClaimRate(es: seq<Event>, ip: string, from: int)
    requires Run(EMPTY, es) && Limiter.NonDecreasing(CallsFrom(EMPTY, es, ip))
    ensures |Limiter.Within(ServedFrom(EMPTY, es, ip), from, from + Limiter.MINUTE)| <= 5
  {
    LimiterCounts(es, ip);
    Limiter.RateBound(Limiter.CLAIMS, CallsFrom(EMPTY, es, ip), from);
  }

  /** The limiter's answer to a claim after the run, from the times of the earlier claims alone. */
  predicate LetThrough(es: seq<Event>, ip: string, now: int) {
    Limiter.Decide(Limiter.CLAIMS, Limiter.After(Limiter.CLAIMS, Limiter.INITIAL, CallsFrom(EMPTY, es, ip)), now).1
  }

  /** An advertisement of the code by that devId stands and has not expired. */
  ghost predicate Redeemable(diary: seq<Note>, code: string, devId: string, now: int) {
    exists t :: CodeStands(diary, code, devId, t) && now <= t
  }

  /**
   * What a claim is answered, in every run: bound to a devId exactly when the limiter lets the client through and
   * an advertisement of the code by that devId still stands that has not expired.
   */
  lemma ClaimIff(es: seq<Event>, s: SessionId, code: string, now: int)
    requires Run(EMPTY, es)
    ensures var h, diary := Exec(EMPTY, es), DiaryOf(EMPTY, es);
            var answer, client := Claimed(h, s, code, now).1, RoleOf(h, s) == Some(ClientRole);
            var through := client && LetThrough(es, h.sessions[s].remoteIp, now);
            && (answer == Refused(Protocol) <==> !client)
            && (answer == Refused(RateLimited) <==> client && !through)
            && (forall devId :: answer == Bound(devId) <==> through && Redeemable(diary, code, devId, now))
            && (answer == Refused(InvalidCode) <==> through && forall devId :: !Redeemable(diary, code, devId, now))
  {
    var h, diary := Exec(EMPTY, es), DiaryOf(EMPTY, es);
    TablesFollow(es);
    ClaimAnswered(h, s, code, now);
    if RoleOf(h, s) == Some(ClientRole) { LimiterCounts(es, h.sessions[s].remoteIp); }
    hide Limiter.Decide, Limiter.After, Redeemable, Claimed, DiaryOf, Exec, CallsFrom, Run, Inv;
    forall devId ensures Redeemable(diary, code, devId, now) <==> Held(h, code, devId, now) {
      RedeemableIff(h, diary, code, devId, now);
    }
    hide Follows, LimiterOf;
    if code in h.codes { assert Held(h, code, h.codes[code].devId, now) <==> now <= h.codes[code].expiresAt; }
  }

  predicate Held(h: State, code: string, devId: string, now: int) {
    code in h.codes && h.codes[code].devId == devId && now <= h.codes[code].expiresAt
  }

  lemma RedeemableIff(h: State, diary: seq<Note>, code: string, devId: string, now: int)
    requires Follows(h, diary)
    ensures Redeemable(diary, code, devId, now) <==> Held(h, code, devId, now)
  {
    hide CodeStands;
    forall t ensures CodeStands(diary, code, devId, t) <==> code in h.codes && h.codes[code] == CodeEntry(devId, t) {
      assert CodeFollows(h, diary, code, devId, t);
    }
    if code in h.codes && h.codes[code].devId == devId {
      assert CodeStands(diary, code, devId, h.codes[code].expiresAt);
    }
  }

  lemma ClaimAnswered(h: State, s: SessionId, code: string, now: int)
    ensures var answer, client := Claimed(h, s, code, now).1, RoleOf(h, s) == Some(ClientRole);
            var through := client && Limiter.Decide(Limiter.CLAIMS, LimiterOf(h, h.sessions[s].remoteIp), now).1;
            && (answer == Refused(Protocol) <==> !client)
            && (answer == Refused(RateLimited) <==> client && !through)
            && (forall devId :: answer == Bound(devId) <==> through && Held(h, code, devId, now))
            && (answer == Refused(InvalidCode)
                <==> through && !(code in h.codes && now <= h.codes[code].expiresAt))
  {
    hide Limiter.Decide;
  }

  // ---- opens ----

  /** The daemon an open is for: the one it names, or the one the client's last claim bound it to. */
  ghost predicate Targets(diary: seq<Note>, s: SessionId, devId: string, dev: string) {
    dev != "" && if devId == "" then ClaimStands(diary, s, dev) else dev == devId
  }

  lemma TargetIff(h: State, diary: seq<Note>, s: SessionId, devId: string, dev: string)
    requires Follows(h, diary)
    ensures Targets(diary, s, devId, dev) <==> dev != "" && OpenTarget(h, s, devId) == dev
  {
    hide ClaimStands;
    assert ClaimFollows(h, diary, s, dev);
  }

  /** The open has a target, and no registration of it stands. */
  ghost predicate Unregistered(diary: seq<Note>, s: SessionId, devId: string) {
    exists dev :: Targets(diary, s, devId, dev) && forall d :: !Stands(diary, Join(d, dev))
  }

  /** An open may go from s to the session d, registered as dev, and neither has its fill of streams. */
  ghost predicate Reachable(h: State, diary: seq<Note>, s: SessionId, devId: string, dev: string, d: SessionId) {
    && RoleOf(h, s) == Some(ClientRole) && Targets(diary, s, devId, dev) && Stands(diary, Join(d, dev))
    && Counted(h, s) < MAX_STREAMS_PER_CLIENT && Counted(h, d) < MAX_STREAMS_PER_DAEMON
  }

  lemma ReachableIff(h: State, diary: seq<Note>, s: SessionId, devId: string, dev: string, d: SessionId)
    requires Inv(h) && Follows(h, diary)
    ensures Reachable(h, diary, s, devId, dev, d)
       <==> && Opening(h, s, devId).1.Opened?
            && Opening(h, s, devId).1.pipe == Pipe((h.nextId + 1) % ID_SPAN, s, d, dev)
  {
    TargetIff(h, diary, s, devId, dev);
    assert JoinFollows(h, diary, d, dev);
    ListSplit(h, s);
    ListSplit(h, d);
    hide Inv, Follows, Targets, Stands, LiveStreams, StaleIds, OpenTarget;
  }

  lemma OpenedTo(h: State, s: SessionId, devId: string)
    requires Opening(h, s, devId).1.Opened?
    ensures var p := Opening(h, s, devId).1.pipe; p == Pipe((h.nextId + 1) % ID_SPAN, s, p.daemon, p.devId)
  {
  }

  lemma OfflineIff(h: State, diary: seq<Note>, s: SessionId, devId: string)
    requires Inv(h) && Follows(h, diary)
    ensures Opening(h, s, devId).1 == Rejected(DaemonOffline)
       <==> && RoleOf(h, s) == Some(ClientRole) && Counted(h, s) < MAX_STREAMS_PER_CLIENT
            && Unregistered(diary, s, devId)
  {
    ListSplit(h, s);
    hide Inv;
    forall dev ensures Targets(diary, s, devId, dev) <==> dev != "" && OpenTarget(h, s, devId) == dev {
      TargetIff(h, diary, s, devId, dev);
    }
    hide Targets, Stands, LiveStreams, StaleIds;
    var dev := OpenTarget(h, s, devId);
    forall d ensures Stands(diary, Join(d, dev)) <==> dev in h.daemons && h.daemons[dev] == d {
      assert JoinFollows(h, diary, d, dev);
    }
    hide OpenTarget;
    assert dev != "" ==> Targets(diary, s, devId, dev);
    if dev in h.daemons { assert Stands(diary, Join(h.daemons[dev], dev)); }
  }

  /**
   * In every run an open is granted exactly when its target has a registration that stands and neither end has its
   * fill of streams, and then the pipe joins the client to the session that registration names.
   */
  lemma OpenIff(es: seq<Event>, s: SessionId, devId: string)
    requires Run(EMPTY, es)
    ensures OpenAnswered(Exec(EMPTY, es), DiaryOf(EMPTY, es), s, devId)
  {
    hide Inv, Follows, Exec, Run, DiaryOf, OpenAnswered;
    TablesFollow(es);
    OpenAnswers(Exec(EMPTY, es), DiaryOf(EMPTY, es), s, devId);
  }

  lemma OpenAnswers(h: State, diary: seq<Note>, s: SessionId, devId: string)
    requires Inv(h) && Follows(h, diary)
    ensures OpenAnswered(h, diary, s, devId)
  {
    hide Inv, Follows, Reachable, Opening, Unregistered, Counted;
    GrantedIff(h, diary, s, devId);
    OfflineIff(h, diary, s, devId);
  }

  /** Granted exactly when reachable, and to that session; offline exactly when no registration stands. */
  ghost predicate OpenAnswered(h: State, diary: seq<Note>, s: SessionId, devId: string) {
    var answer := Opening(h, s, devId).1;
    && (answer.Opened? <==> exists dev, d :: Reachable(h, diary, s, devId, dev, d))
    && (forall dev, d :: Reachable(h, diary, s, devId, dev, d) ==>
          answer == Opened(Pipe((h.nextId + 1) % ID_SPAN, s, d, dev)))
    && (answer == Rejected(DaemonOffline) <==>
          && RoleOf(h, s) == Some(ClientRole) && Counted(h, s) < MAX_STREAMS_PER_CLIENT
          && Unregistered(diary, s, devId))
  }

  lemma GrantedIff(h: State, diary: seq<Note>, s: SessionId, devId: string)
    requires Inv(h) && Follows(h, diary)
    ensures Opening(h, s, devId).1.Opened? <==> exists dev, d :: Reachable(h, diary, s, devId, dev, d)
    ensures forall dev, d :: Reachable(h, diary, s, devId, dev, d) ==>
              Opening(h, s, devId).1 == Opened(Pipe((h.nextId + 1) % ID_SPAN, s, d, dev))
  {
    hide Inv, Follows, Reachable;
    forall dev, d ensures Reachable(h, diary, s, devId, dev, d)
                    <==> && Opening(h, s, devId).1.Opened?
                         && Opening(h, s, devId).1.pipe == Pipe((h.nextId + 1) % ID_SPAN, s, d, dev)
    {
      ReachableIff(h, diary, s, devId, dev, d);
    }
    if Opening(h, s, devId).1.Opened? {
      OpenedTo(h, s, devId);
      hide Opening;
      var p := Opening(h, s, devId).1.pipe;
      assert Reachable(h, diary, s, devId, p.devId, p.daemon);
    }
    hide Opening;
  }

  /** Every session that is not closed holds the devId it registered. */
  ghost predicate Holds(h: State, s: SessionId) {
    s !in h.closed && OwnerOf(h, s).Some? ==>
      OwnerOf(h, s).value in h.daemons && h.daemons[OwnerOf(h, s).value] == s
  }

  lemma ClosedHolds(h: State, d: SessionId, s: SessionId)
    requires Holds(h, s)
    ensures Holds(Closed(h, d), s)
  {
    hide CodesWithout;
  }

  lemma SectionHolds(h: State, e: Event, s: SessionId)
    requires Holds(h, s) && Enabled(h, e) && !e.Close? && !e.Reg?
    ensures Holds(Section(h, e), s)
  {
    match e
    case Code(t, code, ttl, now) => AdvertisedTables(h, t, code, ttl, now);
    case Claim(t, code, now) => ClaimedTables(h, t, code, now);
    case _ =>
    hide Claimed, Advertised;
  }

  /** The holder of a devId is closed before another session takes it. */
  lemma RegHolds(h: State, e: Event, s: SessionId)
    requires Holds(h, s) && Enabled(h, e) && e.Reg?
    ensures Holds(Next(h, e), s)
  {
    hide CodesWithout, ValidToken;
    var d := Closes(h, e);
    if !MayRegister(h, e.s, e.devId, e.sign) {
      ClosedSessionsStay(h, e.s);
      ClosedHolds(h, e.s, s);
      hide Closed, Holds;
    } else if d.None? {
      Takes(h, e, s);
    } else {
      ClosedSessionsStay(h, d.value);
      ClosedHolds(h, d.value, s);
      hide Closed;
      Takes(Closed(h, d.value), e, s);
    }
  }

  lemma ClosedSessionsStay(h: State, d: SessionId)
    ensures Closed(h, d).sessions == h.sessions && d in Closed(h, d).closed
  {
  }

  /** A registration by a session leaves any other that is not closed with its own devId. */
  lemma Takes(h: State, e: Event, s: SessionId)
    requires e.Reg? && MayRegister(h, e.s, e.devId, e.sign) && Holds(h, s)
    requires e.devId in h.daemons && h.daemons[e.devId] != e.s ==> h.daemons[e.devId] in h.closed
    ensures Holds(Section(h, e), s)
  {
    hide ValidToken;
  }

  lemma NextHolds(h: State, e: Event, s: SessionId)
    requires Holds(h, s) && Enabled(h, e)
    ensures Holds(Next(h, e), s)
  {
    if e.Reg? {
      RegHolds(h, e, s);
    } else {
      hide Holds, Section, Closed, Closes, Enabled;
      var d := Closes(h, e);
      if e.Close? {
        CloseSection(h, e);
        ClosedHolds(h, e.s, s);
      } else {
        SectionHolds(h, e, s);
        if d.Some? { ClosedHolds(Section(h, e), d.value, s); }
      }
    }
  }

  lemma {:induction false} RunHolds(h: State, es: seq<Event>, s: SessionId)
    requires Holds(h, s) && Run(h, es)
    ensures Holds(Exec(h, es), s)
    decreases es
  {
    if es != [] {
      hide Holds, Next;
      NextHolds(h, es[0], s);
      RunHolds(Next(h, es[0]), es[1..], s);
    }
  }

  /** At every point of every run at most one session that is not closed holds a devId, and opens for it go there. */
  lemma OneOwner(es: seq<Event>, s: SessionId, t: SessionId)
    requires Run(EMPTY, es)
    ensures var h := Exec(EMPTY, es);
            s !in h.closed && t !in h.closed && OwnerOf(h, s).Some? && OwnerOf(h, s) == OwnerOf(h, t) ==>
              s == t && Stands(DiaryOf(EMPTY, es), Join(s, OwnerOf(h, s).value))
  {
    var h := Exec(EMPTY, es);
    RunHolds(EMPTY, es, s);
    RunHolds(EMPTY, es, t);
    TablesFollow(es);
    hide Stands, DiaryOf, Exec;
    if OwnerOf(h, s).Some? { assert JoinFollows(h, DiaryOf(EMPTY, es), s, OwnerOf(h, s).value); }
  }

  // ---- one use of each advertisement ----

  /** A hit takes an advertisement that stands, in time, and no advertisement lasts more than ten minutes. */
  ghost predicate NoteOk(before: seq<Note>, n: Note) {
    && (n.Hit? ==> Redeemable(before, n.code, n.devId, n.at))
    && (n.Advertise? ==> n.at < n.expires <= n.at + MAX_CODE_TTL)
  }

  ghost predicate Sound(diary: seq<Note>) {
    forall i :: 0 <= i < |diary| ==> NoteOk(diary[..i], diary[i])
  }

  lemma SoundMore(diary: seq<Note>, n: Note)
    requires Sound(diary) && NoteOk(diary, n)
    ensures Sound(diary + [n])
  {
    hide NoteOk;
    var more := diary + [n];
    forall i | 0 <= i < |more| ensures NoteOk(more[..i], more[i]) {
      assert more[..i] == diary[..i];
      if i < |diary| { assert NoteOk(diary[..i], diary[i]); } else { assert diary[..i] == diary; }
    }
  }

  lemma SectionSound(h: State, e: Event, diary: seq<Note>)
    requires Follows(h, diary) && Sound(diary)
    ensures Sound(diary + SectionNotes(h, e))
  {
    hide Sound, Redeemable, Follows;
    if SectionNotes(h, e) == [] {
      assert diary + SectionNotes(h, e) == diary;
    } else {
      var x := SectionNotes(h, e)[0];
      assert SectionNotes(h, e) == [x];
      SectionMoves(h, e, x);
      if e.Claim? {
        ClaimAnswered(h, e.s, e.code, e.now);
        if x.Hit? { RedeemableIff(h, diary, x.code, x.devId, x.at); }
      }
      hide Claimed, SectionNotes, Moves;
      SoundMore(diary, x);
    }
  }

  lemma GoneSound(h: State, d: SessionId, diary: seq<Note>)
    requires Sound(diary)
    ensures Sound(diary + GoneNotes(h, d))
  {
    hide Sound, OwnerOf;
    if d in h.closed { assert diary + [] == diary; } else { SoundMore(diary, Gone(d, OwnerOf(h, d))); }
  }

  lemma NextSound(h: State, e: Event, diary: seq<Note>)
    requires Inv(h) && Follows(h, diary) && Sound(diary)
    ensures Sound(diary + Notes(h, e))
  {
    hide Follows, Sound, SectionNotes, GoneNotes, Closes, Closed, Inv;
    var d := Closes(h, e);
    SectionSound(h, e, diary);
    if d.Some? {
      if e.Reg? {
        GoneSound(h, d.value, diary);
        ClosedFollows(h, d.value, diary);
        SectionSound(Closed(h, d.value), e, diary + GoneNotes(h, d.value));
        SameRegNotes(h, e, d.value);
        Regroup(diary, GoneNotes(h, d.value), SectionNotes(h, e));
      } else {
        GoneSound(h, d.value, diary + SectionNotes(h, e));
        Regroup(diary, SectionNotes(h, e), GoneNotes(h, d.value));
      }
    }
  }

  lemma {:induction false} RunSound(h: State, es: seq<Event>, diary: seq<Note>)
    requires Inv(h) && Run(h, es) && Follows(h, diary) && Sound(diary)
    ensures Sound(diary + DiaryOf(h, es))
    decreases es
  {
    if es == [] {
      assert diary + [] == diary;
    } else {
      hide Follows, Sound, Notes, Next, Inv;
      NextSound(h, es[0], diary);
      NextFollows(h, es[0], diary);
      NextKeeps(h, es[0]);
      RunSound(Next(h, es[0]), es[1..], diary + Notes(h, es[0]));
      Regroup(diary, Notes(h, es[0]), DiaryOf(Next(h, es[0]), es[1..]));
    }
  }

  function Hits(diary: seq<Note>, code: string): nat {
    if diary == [] then 0
    else Hits(diary[..|diary| - 1], code) + One(diary[|diary| - 1].Hit? && diary[|diary| - 1].code == code)
  }

  function Advertisements(diary: seq<Note>, code: string): nat {
    if diary == [] then 0
    else
      Advertisements(diary[..|diary| - 1], code)
      + One(diary[|diary| - 1].Advertise? && diary[|diary| - 1].code == code)
  }

  ghost predicate Offered(diary: seq<Note>, code: string) {
    exists devId, t :: CodeStands(diary, code, devId, t)
  }

  lemma OfferedMore(diary: seq<Note>, n: Note, code: string)
    ensures Offered(diary + [n], code) ==> (n.Advertise? && n.code == code) || Offered(diary, code)
    ensures n.Hit? && n.code == code ==> !Offered(diary + [n], code)
  {
    hide CodeStands;
    forall devId, t ensures CodeStands(diary + [n], code, devId, t)
                       <==> || (n.Advertise? && n.code == code && n.devId == devId && n.expires == t)
                            || (CodeStands(diary, code, devId, t) && !Undoes(n, Advertise(code, devId, 0, t)))
    {
      CodeMore(diary, n, code, devId, t);
    }
  }

  lemma {:induction false} HitsCounted(diary: seq<Note>, code: string)
    requires Sound(diary)
    ensures Hits(diary, code) + One(Offered(diary, code)) <= Advertisements(diary, code)
  {
    if diary == [] {
      assert !Offered(diary, code);
    } else {
      var before, n := diary[..|diary| - 1], diary[|diary| - 1];
      assert diary == before + [n];
      forall i | 0 <= i < |before| ensures NoteOk(before[..i], before[i]) {
        assert NoteOk(diary[..i], diary[i]) && before[..i] == diary[..i];
      }
      assert NoteOk(before, n) by { assert NoteOk(diary[..|before|], n); }
      HitsCounted(before, code);
      OfferedMore(before, n, code);
      hide Sound, Undoes, CodeStands;
    }
  }

  /** In every run a hit takes a standing advertisement in time, and hits never outnumber advertisements. */
  lemma CodesOneShot(es: seq<Event>, code: string)
    requires Run(EMPTY, es)
    ensures Sound(DiaryOf(EMPTY, es))
    ensures Hits(DiaryOf(EMPTY, es), code) <= Advertisements(DiaryOf(EMPTY, es), code)
  {
    RunSound(EMPTY, es, []);
    assert [] + DiaryOf(EMPTY, es) == DiaryOf(EMPTY, es);
    HitsCounted(DiaryOf(EMPTY, es), code);
  }
}
