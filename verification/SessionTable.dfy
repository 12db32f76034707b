/**
 The server's session table, changed in place under the server's lock: the
 critical sections of reconnects, cleanup, kicks and closing rooms on it, each
 proved against the value functions of Lobby.
 */
module SessionTable {
  import opened Base
  import opened Rooms
  import opened Lobby

  datatype Claim = NotFound | Expired | HostNotAllowed | Granted(entry: Entry)

  class Table {
    var sessions: map<Token, Entry>
    var next: SessionRef

    constructor ()
      ensures sessions == map[] && next == 0
    {
      sessions, next := map[], 0;
    }

    /** A disconnect files its session under the member's token. */
    method Store(token: Token, x: Session)
      modifies this
      ensures sessions == old(sessions)[token := Entry(x, old(next), false)] && next == old(next) + 1
    {
      sessions := sessions[token := Entry(x, next, false)];
      next := next + 1;
    }

    /** The claim of `handleReconnect`: an expired session stays for cleanup. */
    method TryClaim(token: Token, now: Time, allow: bool) returns (r: Claim)
      modifies this
      ensures r.NotFound? <==> token !in old(sessions) || old(sessions)[token].claimed
      ensures r.Expired? <==>
                token in old(sessions) && !old(sessions)[token].claimed
                && now - old(sessions)[token].session.at > 900_000_000_000
      ensures r.HostNotAllowed? <==>
                token in old(sessions) && !old(sessions)[token].claimed
                && now - old(sessions)[token].session.at <= 900_000_000_000
                && old(sessions)[token].session.isHost && !allow
      ensures r.Granted? ==>
                sessions == old(sessions)[token := old(sessions)[token].(claimed := true)]
                && r.entry == old(sessions)[token]
      ensures !r.Granted? ==> sessions == old(sessions)
      ensures forall s: State, c: ConnId ::
                s.sessions == old(sessions) && c in s.conns && s.conns[c].room.None? && s.conns[c].pendingRoom.None?
                && s.conns[c].allow == allow ==>
                  && (r.Granted? <==> ClaimOk(s, c, token, now))
                  && (r.Granted? ==> token in s.sessions && sessions == Claimed(s, c, token).sessions && r.entry == s.sessions[token])
    {
      if token !in sessions || sessions[token].claimed { return NotFound; }
      var e := sessions[token];
      if now - e.session.at > GRACE { return Expired; }
      if e.session.isHost && !allow { return HostNotAllowed; }
      sessions := sessions[token := e.(claimed := true)];
      return Granted(e);
    }

    /** The membership change consumes the token, if it still stands for this session. */
    method Consume(token: Token, ref: SessionRef) returns (ok: bool)
      modifies this
      ensures ok <==> token in old(sessions) && old(sessions)[token].ref == ref
      ensures sessions == if ok then old(sessions) - {token} else old(sessions)
    {
      ok := token in sessions && sessions[token].ref == ref;
      if ok { sessions := sessions - {token}; }
    }

    /** The deferred release of a claim that was not consumed. */
    method Release(token: Token, ref: SessionRef)
      modifies this
      ensures forall s: State, c: ConnId ::
                s.sessions == old(sessions) && c in s.attempts && s.attempts[c].token == token
                && s.attempts[c].ref == ref ==>
                  sessions == DoRelease(s, c).sessions
    {
      if token in sessions && sessions[token].ref == ref {
        sessions := sessions[token := sessions[token].(claimed := false)];
      }
    }

    /** The first half of `cleanupExpiredSessionsOnce`. */
    method TakeExpired(now: Time) returns (expired: set<Session>)
      modifies this
      ensures forall s: State :: s.sessions == old(sessions) ==>
                sessions == DoTake(s, now).sessions && s.expiring + expired == DoTake(s, now).expiring
    {
      expired := {};
      var todo := sessions.Keys;
      while todo != {}
        invariant todo <= old(sessions).Keys
        invariant sessions == map t | t in old(sessions)
                  && (t in todo || now - old(sessions)[t].session.at <= GRACE) :: old(sessions)[t]
        invariant expired == set t | t in old(sessions) && t !in todo
                  && now - old(sessions)[t].session.at > GRACE :: old(sessions)[t].session
      {
        var t :| t in todo;
        if now - sessions[t].session.at > GRACE {
          expired := expired + {sessions[t].session};
          sessions := sessions - {t};
        }
        todo := todo - {t};
      }
      forall s: State | s.sessions == old(sessions)
        ensures sessions == DoTake(s, now).sessions && s.expiring + expired == DoTake(s, now).expiring
      {
        assert sessions == s.sessions - ExpiredTokens(s, now);
        assert expired == set t | t in ExpiredTokens(s, now) && t in s.sessions :: s.sessions[t].session;
      }
    }

    /** The kick of a member who is away. */
    method RevokeMember(code: Code, u: UserId)
      modifies this
      ensures forall s: State :: s.sessions == old(sessions) ==> sessions == s.sessions - TokensOf(s, code, u)
    {
      var todo := sessions.Keys;
      while todo != {}
        invariant todo <= old(sessions).Keys
        invariant sessions == map t | t in old(sessions)
                  && (t in todo || !(old(sessions)[t].session.code == code && old(sessions)[t].session.user == u))
                                :: old(sessions)[t]
      {
        var t :| t in todo;
        if sessions[t].session.code == code && sessions[t].session.user == u { sessions := sessions - {t}; }
        todo := todo - {t};
      }
    }

    /** `closeRoom` removes every token of the room. */
    method RevokeRoom(code: Code)
      modifies this
      ensures forall s: State, ref: Ref :: s.sessions == old(sessions) && ref in s.rooms && s.rooms[ref].code == code ==>
                sessions == DoCloseRoom(s, ref).sessions
    {
      var todo := sessions.Keys;
      while todo != {}
        invariant todo <= old(sessions).Keys
        invariant sessions == map t | t in old(sessions)
                  && (t in todo || old(sessions)[t].session.code != code) :: old(sessions)[t]
      {
        var t :| t in todo;
        if sessions[t].session.code == code { sessions := sessions - {t}; }
        todo := todo - {t};
      }
      forall s: State, ref: Ref | s.sessions == old(sessions) && ref in s.rooms && s.rooms[ref].code == code
        ensures sessions == DoCloseRoom(s, ref).sessions
      {
        assert sessions == s.sessions - set t | t in s.sessions && s.sessions[t].session.code == code;
      }
    }
  }
}
