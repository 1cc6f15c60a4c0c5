/** The hub object: each handler's locked work on the tables, against the sections of module Hub. */
module RelayHub {
  import opened Basics
  import Limiter
  import opened Hub

  lemma {:induction false} DoomedAppend(streams: map<nat, Pipe>, ids: seq<nat>, id: nat)
    ensures var left := streams - Listed(ids);
            Doomed(streams, ids + [id]) == Doomed(streams, ids) + if id in left then [left[id]] else []
  {
    if ids == [] {
      assert [id][1..] == [];
      assert streams - Listed(ids) == streams;
    } else {
      assert (ids + [id])[1..] == ids[1..] + [id];
      assert ids == [ids[0]] + ids[1..];
      if ids[0] in streams {
        DoomedAppend(streams - {ids[0]}, ids[1..], id);
        assert streams - {ids[0]} - Listed(ids[1..]) == streams - Listed(ids);
      } else {
        DoomedAppend(streams, ids[1..], id);
        assert streams - Listed(ids[1..]) == streams - Listed(ids);
      }
    }
  }

  lemma {:induction false} LessAt(ids: seq<nat>, i: nat)
    requires i < |ids| && ids[i] !in ids[..i]
    ensures Less(ids, ids[i]) == ids[..i] + ids[i + 1..]
  {
    if i > 0 {
      assert ids[0] in ids[..i];
      assert ids[1..][..i - 1] == ids[..i][1..];
      LessAt(ids[1..], i - 1);
      assert ids[1..][i..] == ids[i + 1..];
    }
  }

  lemma ClosedSessions(h: State, d: SessionId)
    ensures Closed(h, d).sessions == h.sessions
  {
  }

  class RelayHub {
    var sessions: map<SessionId, Session>
    var closed: set<SessionId>
    var daemons: map<string, SessionId>
    var codes: map<string, CodeEntry>
    var claimed: map<SessionId, string>
    var streams: map<nat, Pipe>
    var bySess: map<SessionId, seq<nat>>
    var nextId: nat
    var limiters: map<string, Limiter.State>

    ghost function View(): State
      reads this
    {
      State(sessions, closed, daemons, codes, claimed, streams, bySess, nextId, limiters)
    }

    constructor ()
      ensures View() == EMPTY
    {
      sessions, closed, daemons, codes, claimed := map[], {}, map[], map[], map[];
      streams, bySess, nextId, limiters := map[], map[], 0, map[];
    }

    /** The handlers return their error, if any, and the closes sent for the session they closed. */
    method HandleReg(s: SessionId, devId: string, sign: string) returns (error: Option<ErrorCode>, told: seq<Notice>)
      requires s in sessions
      modifies this
      ensures error == if MayRegister(old(View()), s, devId, sign) then None else Some(Protocol)
      ensures View() == Next(old(View()), Reg(s, devId, sign)) && told == Told(old(View()), Reg(s, devId, sign))
    {
      hide Closed, ClosingNotices;
      error, told := None, [];
      if !sessions[s].role.DaemonRole? || !ValidToken(devId, MAX_DEV_ID_LEN) || !ValidToken(sign, MAX_SIGN_LEN) {
        ClosedSessions(old(View()), s);
        told := CloseSession(s);
        return Some(Protocol), told;
      }
      if devId in daemons && daemons[devId] != s {
        ClosedSessions(old(View()), daemons[devId]);
        told := CloseSession(daemons[devId]);
      }
      sessions := sessions[s := sessions[s].(devId := devId)];
      daemons := daemons[devId := s];
    }

    method HandleCode(s: SessionId, code: string, ttl: int, now: int)
            returns (error: Option<ErrorCode>, told: seq<Notice>)
      requires s in sessions
      modifies this
      ensures error == if MayAdvertise(old(View()), s, code) then None else Some(Protocol)
      ensures View() == Next(old(View()), Code(s, code, ttl, now)) && told == Told(old(View()), Code(s, code, ttl, now))
    {
      hide Closed, ClosingNotices;
      error, told := None, [];
      if !sessions[s].role.DaemonRole? || sessions[s].devId == "" || !ValidToken(code, MAX_CODE_LEN) {
        told := CloseSession(s);
        return Some(Protocol), told;
      }
      codes := codes[code := CodeEntry(sessions[s].devId, now + CodeTtl(ttl))];
      PurgeCodes(now);
    }

    /** Drops expired codes one by one. */
    method PurgeCodes(now: int)
      modifies this`codes
      ensures codes == Purged(old(codes), now)
    {
      var todo := codes.Keys;
      while todo != {}
        invariant forall c :: c in codes <==> c in old(codes) && (c in todo || !(now > old(codes)[c].expiresAt))
        invariant forall c :: c in codes ==> codes[c] == old(codes)[c]
        invariant todo <= codes.Keys
        decreases todo
      {
        var c :| c in todo;
        if now > codes[c].expiresAt {
          codes := codes - {c};
        }
        todo := todo - {c};
      }
    }

    /** The locked part of a claim. */
    method ClaimSection(s: SessionId, code: string, now: int) returns (answer: ClaimAnswer)
      requires s in sessions
      modifies this`limiters, this`codes, this`claimed
      ensures (View(), answer) == Claimed(old(View()), s, code, now)
    {
      if !sessions[s].role.ClientRole? {
        return Refused(Protocol);
      }
      var ip := sessions[s].remoteIp;
      if ip !in limiters {
        limiters := limiters[ip := Limiter.INITIAL];
      }
      var (lim, ok) := Limiter.Decide(Limiter.CLAIMS, limiters[ip], now);
      limiters := limiters[ip := lim];
      assert limiters == old(limiters)[ip := lim];
      if !ok {
        return Refused(RateLimited);
      }
      if code !in codes || now > codes[code].expiresAt {
        if code in codes {
          codes := codes - {code};
        }
        return Refused(InvalidCode);
      }
      var devId := codes[code].devId;
      codes := codes - {code};
      claimed := claimed[s := devId];
      return Bound(devId);
    }

    /** The locked part of an open. */
    method OpenSection(s: SessionId, devId: string) returns (answer: OpenAnswer)
      requires s in sessions
      modifies this`nextId, this`streams, this`bySess
      ensures (View(), answer) == Opening(old(View()), s, devId)
    {
      if !sessions[s].role.ClientRole? {
        return Rejected(Protocol);
      }
      var dev := devId;
      if dev == "" && s in claimed {
        dev := claimed[s];
      }
      if dev == "" {
        return Rejected(Protocol);
      }
      if s in bySess && |bySess[s]| >= MAX_STREAMS_PER_CLIENT {
        return Rejected(TooManyStreams);
      }
      if dev !in daemons {
        return Rejected(DaemonOffline);
      }
      var daemon := daemons[dev];
      if daemon in bySess && |bySess[daemon]| >= MAX_STREAMS_PER_DAEMON {
        return Rejected(TooManyStreams);
      }
      nextId := (nextId + 1) % ID_SPAN;
      var p := Pipe(nextId, s, daemon, dev);
      streams := streams[nextId := p];
      bySess := bySess[s := (if s in bySess then bySess[s] else []) + [nextId]];
      bySess := bySess[daemon := (if daemon in bySess then bySess[daemon] else []) + [nextId]];
      return Opened(p);
    }

    method HandleClaim(s: SessionId, code: string, now: int) returns (answer: ClaimAnswer, told: seq<Notice>)
      requires s in sessions
      modifies this
      ensures answer == Claimed(old(View()), s, code, now).1
      ensures View() == Next(old(View()), Claim(s, code, now)) && told == Told(old(View()), Claim(s, code, now))
    {
      hide Claimed, Closed;
      ghost var before := View();
      answer := ClaimSection(s, code, now);
      told := [];
      if answer.Refused? {
        ClaimedTables(before, s, code, now);
        told := CloseSession(s);
      }
    }

    method HandleOpen(s: SessionId, devId: string) returns (answer: OpenAnswer, told: seq<Notice>)
      requires s in sessions
      modifies this
      ensures answer == Opening(old(View()), s, devId).1
      ensures View() == Next(old(View()), Open(s, devId)) && told == Told(old(View()), Open(s, devId))
    {
      hide Closed;
      ghost var before := View();
      answer := OpenSection(s, devId);
      told := [];
      if answer.Rejected? {
        assert View() == before;
        hide Opening;
        told := CloseSession(s);
      }
    }

    method RemoveSessionStream(s: SessionId, id: nat)
      modifies this`bySess
      ensures bySess == Unlisted(old(bySess), s, id)
    {
      if s !in bySess {
        return;
      }
      var ids := bySess[s];
      for i := 0 to |ids|
        invariant id !in ids[..i]
        invariant bySess == old(bySess)
      {
        if ids[i] == id {
          LessAt(ids, i);
          bySess := bySess[s := ids[..i] + ids[i + 1..]];
          return;
        }
      }
      assert ids[..|ids|] == ids;
    }

    /** Removes a pipe if present; both its ends are then sent a close. */
    method DropStream(id: nat) returns (told: seq<Notice>)
      modifies this`streams, this`bySess
      ensures View() == Dropped(old(View()), id)
      ensures told == if id !in old(streams) then []
                      else [Notice(old(streams)[id].client, id), Notice(old(streams)[id].daemon, id)]
    {
      if id !in streams {
        return [];
      }
      var p := streams[id];
      streams := streams - {id};
      RemoveSessionStream(p.client, id);
      RemoveSessionStream(p.daemon, id);
      return [Notice(p.client, id), Notice(p.daemon, id)];
    }

    method DropCodesOf(devId: string)
      modifies this`codes
      ensures codes == CodesWithout(old(codes), devId)
    {
      var todo := codes.Keys;
      while todo != {}
        invariant forall c :: c in codes <==> c in old(codes) && (c in todo || old(codes)[c].devId != devId)
        invariant forall c :: c in codes ==> codes[c] == old(codes)[c]
        invariant todo <= codes.Keys
        decreases todo
      {
        var c :| c in todo;
        if codes[c].devId == devId {
          codes := codes - {c};
        }
        todo := todo - {c};
      }
    }

    /** Takes the pipes of a list out of the table, in list order. */
    method TakePipes(ids: seq<nat>) returns (pipes: seq<Pipe>)
      modifies this`streams
      ensures pipes == Doomed(old(streams), ids)
      ensures streams == old(streams) - Listed(ids)
    {
      pipes := [];
      for i := 0 to |ids|
        invariant pipes == Doomed(old(streams), ids[..i])
        invariant streams == old(streams) - Listed(ids[..i])
      {
        DoomedAppend(old(streams), ids[..i], ids[i]);
        assert ids[..i + 1] == ids[..i] + [ids[i]];
        if ids[i] in streams {
          pipes := pipes + [streams[ids[i]]];
          streams := streams - {ids[i]};
        }
      }
      assert ids[..|ids|] == ids;
    }

    method TellPeers(s: SessionId, pipes: seq<Pipe>) returns (told: seq<Notice>)
      ensures told == Notices(pipes, s)
    {
      told := [];
      for i := 0 to |pipes|
        invariant told == Notices(pipes[..i], s)
      {
        NoticesAt(pipes[..i], s);
        NoticesAt(pipes[..i + 1], s);
        told := told + [Notice(if s == pipes[i].daemon then pipes[i].client else pipes[i].daemon, pipes[i].id)];
      }
      assert pipes[..|pipes|] == pipes;
    }

    /** Everything the session owned by name. */
    method ForgetOwner(s: SessionId)
      modifies this`claimed, this`daemons, this`codes
      ensures var was := old(View());
              var owner := RoleOf(was, s) == Some(DaemonRole) && DevIdOf(was, s) != "";
              && claimed == old(claimed) - {s}
              && codes == (if owner then CodesWithout(old(codes), DevIdOf(was, s)) else old(codes))
              && daemons == if owner && DevIdOf(was, s) in old(daemons) && old(daemons)[DevIdOf(was, s)] == s
                            then old(daemons) - {DevIdOf(was, s)} else old(daemons)
    {
      hide CodesWithout;
      claimed := claimed - {s};
      var devId := if s in sessions then sessions[s].devId else "";
      if s in sessions && sessions[s].role.DaemonRole? && devId != "" {
        if devId !in daemons || daemons[devId] == s {
          daemons := daemons - {devId};
          assert devId !in old(daemons) ==> daemons == old(daemons);
        }
        DropCodesOf(devId);
      }
    }

    method OnSessionClose(s: SessionId) returns (told: seq<Notice>)
      requires s in closed
      modifies this`claimed, this`daemons, this`codes, this`bySess, this`streams
      ensures View() == SessionClosed(old(View()), s)
      ensures told == Notices(Doomed(old(streams), Ids(old(View()), s)), s)
    {
      hide Doomed, Notices, Listed, CodesWithout, RoleOf, DevIdOf;
      ForgetOwner(s);
      var ids := if s in bySess then bySess[s] else [];
      bySess := bySess - {s};
      assert closed + {s} == closed;
      var pipes := TakePipes(ids);
      told := TellPeers(s, pipes);
    }

    /** Runs the close callback on the first close only. */
    method CloseSession(s: SessionId) returns (told: seq<Notice>)
      modifies this
      ensures View() == Closed(old(View()), s)
      ensures told == ClosingNotices(old(View()), s)
    {
      if s in closed {
        return [];
      }
      closed := closed + {s};
      ghost var marked := View();
      told := OnSessionClose(s);
      assert marked.closed + {s} == marked.closed;
    }
  }
}
