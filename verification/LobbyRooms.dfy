/** Every step of the server keeps every registered room's invariant. */
module LobbyRooms {
  import opened Base
  import opened Text
  import opened Tracks
  import opened Playback
  import opened Rooms
  import opened Links
  import opened Lobby

  predicate Vacant(r: Room) { r.clients == map[] && r.away == map[] && r.pending == map[] }

  /** The registry files rooms under their own codes; a room that is no longer
      registered has nobody in it. */
  ghost predicate RegInv(s: State)
  {
    && (forall code :: code in s.registry ==> s.registry[code] in s.rooms && s.rooms[s.registry[code]].code == code)
    && (forall ref :: ref in s.rooms && !Registered(s, ref) ==> Vacant(s.rooms[ref]))
  }

  ghost predicate RoomsInv(s: State)
  {
    forall ref :: Registered(s, ref) ==> RoomInv(s.rooms[ref], s.conns)
  }

  /** A room about to be closed is registered, hostless, and has clients only. */
  ghost predicate ClosingInv(s: State)
  {
    forall ref :: ref in s.closing ==> Registered(s, ref) && Dead(s.rooms[ref])
  }

  ghost predicate Linking(s: State) { LinkInv(s.conns, s.rooms, s.usedIds) }

  /** The ID is nobody's: no room has a member or a reserved seat under it. */
  ghost predicate Newcomer(s: State, u: UserId) { forall ref :: !MemberIn(s.rooms, ref, u) }

  /** No stored token leads back under the ID. */
  ghost predicate Untokened(s: State, u: UserId) { forall t :: t in s.sessions ==> s.sessions[t].session.user != u }

  /** A step is proper if nobody enters under an ID that is already a member's,
      and no expiry takes a seat that still has a token. */
  ghost predicate Proper(s: State, a: Step)
    requires Enabled(s, a)
  {
    match a
    case Create(c, raw, code, _, _, _) => CreateOk(s, c, raw, code) ==> Newcomer(s, s.conns[c].id)
    case Approve(c, key, _) =>
      Answers(s, c, key) && Admissible(s, c, key) ==> Newcomer(s, s.conns[RoomOf(s, c).pending[key]].id)
    case Expire(x, _) => x.user in s.rooms[s.registry[x.code]].away ==> Untokened(s, x.user)
    case _ => true
  }

  /** Connections only close; their tier never changes. */
  ghost predicate Ages(conns: Conns, conns': Conns)
  {
    forall c :: c in conns ==> c in conns' && conns'[c].allow == conns[c].allow && (conns[c].closed ==>
      conns'[c].closed)
  }

  /** Everything but room ref0 is where it was. */
  ghost predicate Elsewhere(s: State, t: State, ref0: Ref)
  {
    && Ages(s.conns, t.conns)
    && (forall ref :: ref != ref0 && ref in t.rooms ==> ref in s.rooms && t.rooms[ref] == s.rooms[ref])
    && (forall ref :: ref != ref0 && Registered(t, ref) ==> Registered(s, ref))
  }

  lemma ClientsExist(s: State, ref: Ref)
    requires Linking(s) && ref in s.rooms
    ensures Keyed(s.rooms[ref], s.conns)
  {
    hide BackLinked, Applicants, OneHome, Known;
  }

  lemma AgesKeeps(s: State, ref: Ref, conns': Conns)
    requires Linking(s) && ref in s.rooms && RoomInv(s.rooms[ref], s.conns) && Ages(s.conns, conns')
    ensures RoomInv(s.rooms[ref], conns')
  {
    ClientsExist(s, ref);
    hide LinkInv, RoomInv;
    RoomInvFrame(s.rooms[ref], s.conns, conns');
  }

  lemma RoomsKept(s: State, t: State, ref0: Ref)
    requires RoomsInv(s) && Linking(s) && Elsewhere(s, t, ref0)
    requires Registered(t, ref0) ==> RoomInv(t.rooms[ref0], t.conns)
    ensures RoomsInv(t)
  {
    hide LinkInv, RoomInv;
    forall ref | Registered(t, ref) ensures RoomInv(t.rooms[ref], t.conns) {
      if ref != ref0 { AgesKeeps(s, ref, t.conns); }
    }
  }

  /** The usual case: one registered room changes, its code does not. */
  lemma RoomPut(s: State, t: State, ref: Ref, q: Room)
    requires RoomsInv(s) && Linking(s) && ref in s.rooms && q.code == s.rooms[ref].code
    requires t.rooms == s.rooms[ref := q] && t.registry == s.registry && Ages(s.conns, t.conns)
    requires Registered(s, ref) ==> RoomInv(q, t.conns)
    ensures RoomsInv(t)
  {
    hide LinkInv, RoomInv;
    RoomsKept(s, t, ref);
  }

  /** The same for a room whose new state was checked against the old connections. */
  lemma RoomPutOld(s: State, t: State, ref: Ref, q: Room)
    requires RoomsInv(s) && Linking(s) && ref in s.rooms && q.code == s.rooms[ref].code
    requires t.rooms == s.rooms[ref := q] && t.registry == s.registry && Ages(s.conns, t.conns)
    requires Registered(s, ref) ==> RoomInv(q, s.conns) && forall u :: u in q.clients ==> q.clients[u] in s.conns
    ensures RoomsInv(t)
  {
    hide LinkInv, RoomInv;
    if Registered(s, ref) { RoomInvFrame(q, s.conns, t.conns); }
    RoomPut(s, t, ref, q);
  }

  /** Only connections changed. */
  lemma ConnsOnly(s: State, t: State)
    requires RoomsInv(s) && Linking(s) && t.rooms == s.rooms && t.registry == s.registry && Ages(s.conns, t.conns)
    ensures RoomsInv(t)
  {
    hide LinkInv, RoomInv;
    forall ref | Registered(t, ref) ensures RoomInv(t.rooms[ref], t.conns) { AgesKeeps(s, ref, t.conns); }
  }

  /** An active member's room is registered. */
  lemma HomeIsLive(s: State, c: ConnId)
    requires RegInv(s) && Linking(s) && c in s.conns && s.conns[c].room.Some?
    ensures Registered(s, s.conns[c].room.value)
    ensures ActiveIn(s.rooms, s.conns[c].room.value, s.conns[c].id, c)
  {
    hide Linked, Applicants, OneHome, Known;
  }

  /** The connected host is seated. */
  lemma SeatedHost(s: State, c: ConnId)
    requires RegInv(s) && RoomsInv(s) && Linking(s) && Hosting(s, c)
    ensures Seated(RoomOf(s, c), s.conns)
    ensures RoomOf(s, c).hostId == Some(s.conns[c].id)
  {
    HomeIsLive(s, c);
    ClientsExist(s, s.conns[c].room.value);
    hide LinkInv, Roster, MailInv;
    var r := RoomOf(s, c);
    assert HostInv(r, s.conns);
    assert !Deserted(r);
  }

  // ---- step by step ----

  ghost predicate RoomsOk(s: State) { RegInv(s) && RoomsInv(s) && Linking(s) }

  lemma CreateRooms(s: State, c: ConnId, raw: Str, code: Code, ref: Ref, token: Token, now: int)
    requires RoomsOk(s) && c in s.conns && ref !in s.rooms && CreateOk(s, c, raw, code)
    ensures RoomsInv(Created(s, c, Sanitize(raw, MAX_USERNAME), code, ref, token, now))
  {
    hide LinkInv, RoomInv, Sanitize, Opened;
    var name := Sanitize(raw, MAX_USERNAME);
    var t := Created(s, c, name, code, ref, token, now);
    OpenedKeeps(code, c, s.conns[c].id, name, now, t.conns);
    RoomsKept(s, t, ref);
  }

  lemma JoinRooms(s: State, c: ConnId, name: Str, ref: Ref)
    requires RoomsOk(s) && c in s.conns && ref in s.rooms
    ensures RoomsInv(Joined(s, c, name, ref))
  {
    hide LinkInv, RoomInv;
    var r := s.rooms[ref];
    var t := Joined(s, c, name, ref);
    PendingRoom(s, ref, r.pending[s.conns[c].id := c]);
    RoomPutOld(s, t, ref, t.rooms[ref]);
  }

  lemma PendingRoom(s: State, ref: Ref, p: map<UserId, ConnId>)
    requires RoomsOk(s) && ref in s.rooms
    ensures var q := s.rooms[ref].(pending := p);
            Registered(s, ref) ==> RoomInv(q, s.conns) && forall u :: u in q.clients ==> q.clients[u] in s.conns
  {
    hide LinkInv, Roster, HostInv, MailInv;
    PendingIsElsewhere(s.rooms[ref], s.conns, p);
    ClientsExist(s, ref);
  }

  lemma WithdrawRooms(s: State, c: ConnId, ref: Ref, key: UserId)
    requires RoomsOk(s) && ref in s.rooms
    ensures RoomsInv(Withdrawn(s, c, ref, key))
  {
    hide LinkInv, RoomInv;
    var t := Withdrawn(s, c, ref, key);
    PendingRoom(s, ref, s.rooms[ref].pending - {key});
    RoomPutOld(s, t, ref, t.rooms[ref]);
  }

  /** An applicant is filed under its own ID and knows where it applied. */
  lemma ApplicantKnown(s: State, ref: Ref, key: UserId)
    requires Linking(s) && ref in s.rooms && key in s.rooms[ref].pending
    ensures var j := s.rooms[ref].pending[key];
            j in s.conns && s.conns[j].id == key && s.conns[j].pendingRoom == Some(ref) && key in s.usedIds
  {
    hide Linked, BackLinked, OneHome;
  }

  lemma ApproveRooms(s: State, c: ConnId, key: UserId, token: Token)
    requires RoomsOk(s) && InRoom(s, c) && Answers(s, c, key) && Admissible(s, c, key) && Newcomer(s, key)
    ensures RoomsInv(Admit(s, RoomOf(s, c).pending[key], s.conns[c].room.value, key, token))
  {
    hide LinkInv, RoomInv, RegInv, RoomsInv, Admitted;
    var ref := s.conns[c].room.value;
    var r := s.rooms[ref];
    var j := r.pending[key];
    var t := Admit(s, j, ref, key, token);
    ApplicantKnown(s, ref, key);
    AdmittedFields(r, key, j, key, s.conns[j].name);
    ApprovedRoom(s, c, key);
    RoomPutOld(s, t, ref, t.rooms[ref]);
  }

  lemma ApprovedRoom(s: State, c: ConnId, key: UserId)
    requires RoomsOk(s) && InRoom(s, c) && Answers(s, c, key) && Admissible(s, c, key) && Newcomer(s, key)
    ensures var r := RoomOf(s, c);
            var q := Admitted(r, key, r.pending[key], key, s.conns[r.pending[key]].name);
            RoomInv(q, s.conns) && forall u :: u in q.clients ==> q.clients[u] in s.conns
  {
    hide LinkInv, RoomInv, Seated, Admitted;
    var ref := s.conns[c].room.value;
    var r := s.rooms[ref];
    var j := r.pending[key];
    HomeIsLive(s, c);
    SeatedHost(s, c);
    ApplicantKnown(s, ref, key);
    assert !MemberIn(s.rooms, ref, key);
    AdmittedKeeps(r, s.conns, key, j, key, s.conns[j].name);
    ClientsExist(s, ref);
    AdmittedFields(r, key, j, key, s.conns[j].name);
  }

  lemma AdmittedFields(r: Room, key: UserId, c: ConnId, u: UserId, name: Str)
    ensures var q := Admitted(r, key, c, u, name);
            q.code == r.code && q.clients == r.clients[u := c] && q.away == r.away && q.pending == r.pending - {key}
            && q.hostId == r.hostId && q.host == r.host
  {
  }

  lemma KickRooms(s: State, c: ConnId, u: UserId)
    requires RoomsOk(s) && InRoom(s, c) && KickOk(s, c, u)
    ensures RoomsInv(DoKick(s, c, u))
  {
    hide LinkInv, RoomInv, Seated, Kicked, TokensOf, Refs;
    var ref := s.conns[c].room.value;
    var r := s.rooms[ref];
    HomeIsLive(s, c);
    SeatedHost(s, c);
    assert !Deserted(r);
    KickedKeeps(r, s.conns, u);
    KickedFields(r, u);
    ClientsExist(s, ref);
    RoomPutOld(s, DoKick(s, c, u), ref, Kicked(r, u));
  }

  lemma KickedFields(r: Room, u: UserId)
    ensures var q := Kicked(r, u);
            && q.code == r.code && q.pending == r.pending && q.hostId == r.hostId
            && (if u in r.clients then q.clients == r.clients - {u} && q.away == r.away
                else q.clients == r.clients && q.away == r.away - {u})
  {
    hide WithoutUser, Unsuggest;
  }

  lemma TransferRooms(s: State, c: ConnId, u: UserId)
    requires RoomsOk(s) && InRoom(s, c) && TransferOk(s, c, u)
    ensures RoomsInv(DoTransfer(s, c, u))
  {
    hide LinkInv, RoomInv, Transferred;
    var ref := s.conns[c].room.value;
    var r := s.rooms[ref];
    HomeIsLive(s, c);
    ClientsExist(s, ref);
    TransferredKeeps(r, s.conns, r.clients[u]);
    TransferredFields(r, s.conns, r.clients[u]);
    RoomPutOld(s, DoTransfer(s, c, u), ref, Transferred(r, s.conns, r.clients[u]));
  }

  lemma TransferredFields(r: Room, conns: Conns, c: ConnId)
    requires c in conns
    ensures var q := Transferred(r, conns, c);
            q.code == r.code && SameSeating(r, q) && q.owner.None? && q.host == Some(c)
            && q.suggestions == r.suggestions
  {
    hide FlagHost;
  }

  lemma LeaveRooms(s: State, c: ConnId, d: Option<ConnId>)
    requires RoomsOk(s) && InRoom(s, c) && Active(s, c) && Picked(s, RoomOf(s, c).clients - {s.conns[c].id}, d)
    ensures var ref := s.conns[c].room.value;
            RoomsInv(LeftRoom(s, c, ref, Left(s.rooms[ref], s.conns, c, s.conns[c].id, d)))
  {
    hide LinkInv, RoomInv, Left, Deputy;
    var ref := s.conns[c].room.value;
    var r := s.rooms[ref];
    var u := s.conns[c].id;
    HomeIsLive(s, c);
    ClientsExist(s, ref);
    LeftKeeps(r, s.conns, c, u, d);
    LeftFields(r, s.conns, c, u, d);
    var q := Left(r, s.conns, c, u, d);
    RoomPutOld(s, LeftRoom(s, c, ref, q), ref, q);
  }

  lemma LeftFields(r: Room, conns: Conns, c: ConnId, u: UserId, d: Option<ConnId>)
    requires d.Some? ==> d.value in conns
    ensures var q := Left(r, conns, c, u, d);
            q.code == r.code && q.clients == r.clients - {u} && q.away == r.away - {u} && q.pending == r.pending - {u}
  {
    hide WithoutUser, Unsuggest, FlagHost;
  }

  lemma DetachRooms(s: State, c: ConnId, token: Token, now: Time)
    requires RoomsOk(s) && InRoom(s, c) && Active(s, c)
    ensures RoomsInv(Detached(s, c, s.conns[c].room.value, token, now))
  {
    hide LinkInv, RoomInv, Disconnected;
    var ref := s.conns[c].room.value;
    var r := s.rooms[ref];
    var u := s.conns[c].id;
    HomeIsLive(s, c);
    ClientsExist(s, ref);
    DisconnectedFields(r, c, u, s.conns[c].name, now);
    DisconnectedKeeps(r, s.conns, c, u, s.conns[c].name, now);
    RoomPutOld(s, Detached(s, c, ref, token, now), ref, Disconnected(r, c, u, s.conns[c].name, now));
  }

  lemma DisconnectedFields(r: Room, c: ConnId, u: UserId, name: Str, now: Time)
    ensures var q := Disconnected(r, c, u, name, now);
            && q.code == r.code && q.clients == r.clients - {u} && q.pending == r.pending
            && u in q.away && q.away == r.away[u := q.away[u]] && q.hostId == r.hostId && q.owner == r.owner
            && q.away[u] == Session(u, name, r.code, r.host == Some(c), now)
            && (r.host != Some(c) ==> q.host == r.host && q.hostAway == r.hostAway)
  {
    hide MarkUser;
  }

  lemma ConsumeRooms(s: State, c: ConnId, ref: Ref)
    requires RoomsOk(s) && c in s.attempts && ref in s.rooms && Succeeds(s, c, ref)
    requires s.rooms[ref].away[s.attempts[c].session.user].isHost ==> s.conns[c].allow
    ensures RoomsInv(Consumed(s, c, ref))
  {
    hide LinkInv, RoomInv, Rejoined;
    var t := Consumed(s, c, ref);
    var u := s.attempts[c].session.user;
    if Registered(s, ref) {
      AgesKeeps(s, ref, t.conns);
      RejoinedKeeps(s.rooms[ref], t.conns, c, u);
    }
    RejoinedFields(s.rooms[ref], t.conns, c, u);
    RoomPut(s, t, ref, t.rooms[ref]);
  }

  lemma RejoinedFields(r: Room, conns: Conns, c: ConnId, u: UserId)
    requires c in conns
    ensures var q := Rejoined(r, conns, c, u);
            && q.code == r.code && q.clients == r.clients[u := c] && q.away == r.away - {u} && q.pending == r.pending
            && q.suggestions == r.suggestions
  {
    hide MarkUser, FlagHost;
  }

  lemma ExpireRooms(s: State, x: Session, ref: Ref, d: Option<ConnId>)
    requires RoomsOk(s) && ref in s.rooms && x.user in s.rooms[ref].away && Picked(s, s.rooms[ref].clients, d)
    ensures RoomsInv(ExpiredIn(s, x, ref, d))
  {
    hide LinkInv, RoomInv, Expired, Deputy;
    var r := s.rooms[ref];
    ClientsExist(s, ref);
    if Registered(s, ref) { ExpiredKeeps(r, s.conns, x.user, d); }
    ExpiredFields(r, s.conns, x.user, d);
    RoomPutOld(s, ExpiredIn(s, x, ref, d), ref, Expired(r, s.conns, x.user, d));
  }

  lemma ExpiredFields(r: Room, conns: Conns, u: UserId, d: Option<ConnId>)
    requires d.Some? ==> d.value in conns
    ensures var q := Expired(r, conns, u, d);
            q.code == r.code && q.clients == r.clients && q.away == r.away - {u} && q.pending == r.pending
  {
    hide WithoutUser, Unsuggest, FlagHost;
  }

  lemma FailoverRooms(s: State, ref: Ref, now: Time, d: Option<ConnId>)
    requires RoomsOk(s) && ref in s.rooms && Picked(s, s.rooms[ref].clients, d) && FailoverDue(s.rooms[ref], now)
             && d.Some?
    ensures RoomsInv(DoFailover(s, ref, now, d))
  {
    hide LinkInv, Roster, MailInv, FailedOver;
    var r := s.rooms[ref];
    ClientsExist(s, ref);
    var u :| Best(r.clients, s.conns, u) && r.clients[u] == d.value;
    assert !Deserted(r);
    if Registered(s, ref) {
      assert HostIsAway(r);
      FailedOverKeeps(r, s.conns, d.value);
    }
    FailedOverFields(r, s.conns, d.value);
    hide RoomInv;
    RoomPutOld(s, DoFailover(s, ref, now, d), ref, FailedOver(r, s.conns, d.value));
  }

  lemma FailedOverFields(r: Room, conns: Conns, c: ConnId)
    requires c in conns
    ensures var q := FailedOver(r, conns, c);
            && q.code == r.code && SameSeating(r, q) && q.host == Some(c) && q.suggestions == r.suggestions
            && q.owner == if r.owner.None? then r.hostId else r.owner
  {
    hide FlagHost;
  }

  lemma DeleteRooms(s: State, ref: Ref)
    requires RoomsOk(s) && Registered(s, ref)
    ensures RoomsInv(Deleted(s, ref))
  {
    hide LinkInv, RoomInv;
    RoomsKept(s, Deleted(s, ref), ref);
  }

  lemma CloseRooms(s: State, ref: Ref)
    requires RoomsOk(s) && Registered(s, ref)
    ensures RoomsInv(DoCloseRoom(s, ref))
  {
    hide LinkInv, RoomInv, Refs;
    RoomsKept(s, DoCloseRoom(s, ref), ref);
  }

  lemma SuggestRooms(s: State, c: ConnId, id: SuggestionId, t: Track)
    requires RoomsOk(s) && c in s.conns && s.conns[c].room.Some? && s.conns[c].room.value in s.rooms
             && SuggestOk(s, c, t)
    requires id !in s.rooms[s.conns[c].room.value].suggestions
    ensures var k := s.conns[c];
            RoomsInv(PutRoom(s, k.room.value, Submitted(s.rooms[k.room.value], Suggestion(id, k.id, k.name, t))))
  {
    hide LinkInv, RoomInv, By;
    var k := s.conns[c];
    var ref := k.room.value;
    var x := Suggestion(id, k.id, k.name, t);
    HomeIsLive(s, c);
    ClientsExist(s, ref);
    SubmittedKeeps(s.rooms[ref], s.conns, x);
    RoomPutOld(s, PutRoom(s, ref, Submitted(s.rooms[ref], x)), ref, Submitted(s.rooms[ref], x));
  }

  lemma ResolveRooms(s: State, ref: Ref, id: SuggestionId, n: Notice, p: Play)
    requires RoomsOk(s) && ref in s.rooms && id in s.rooms[ref].suggestions
    ensures RoomsInv(PutRoom(s, ref, Resolved(s.rooms[ref], id, n).(play := p)))
  {
    hide LinkInv, RoomInv, Resolved;
    var r := s.rooms[ref];
    ClientsExist(s, ref);
    ResolvedFields(r, id, n);
    if Registered(s, ref) {
      ResolvedKeeps(r, s.conns, id, n);
      PlayIsElsewhere(Resolved(r, id, n), s.conns, p);
    }
    RoomPutOld(s, PutRoom(s, ref, Resolved(r, id, n).(play := p)), ref, Resolved(r, id, n).(play := p));
  }

  lemma SignRooms(s: State, ref: Ref, id: SuggestionId)
    requires RoomsOk(s) && ref in s.rooms && id in s.rooms[ref].suggestions
    ensures RoomsInv(PutRoom(s, ref, Signed(s.rooms[ref], id)))
  {
    hide LinkInv, RoomInv, Signed;
    var r := s.rooms[ref];
    ClientsExist(s, ref);
    SignedFields(r, id);
    if Registered(s, ref) { SignedKeeps(r, s.conns, id); }
    RoomPutOld(s, PutRoom(s, ref, Signed(r, id)), ref, Signed(r, id));
  }

  lemma SignedFields(r: Room, id: SuggestionId)
    requires id in r.suggestions
    ensures var q := Signed(r, id);
            && q == r.(suggestions := q.suggestions) && q.suggestions.Keys == r.suggestions.Keys && SameSeating(r, q)
  {
  }

  lemma ResolvedFields(r: Room, id: SuggestionId, n: Notice)
    requires id in r.suggestions
    ensures var q := Resolved(r, id, n);
            && q.code == r.code && SameSeating(r, q) && q.host == r.host && q.hostId == r.hostId && q.owner == r.owner
            && q.suggestions == r.suggestions - {id}
  {
  }

  lemma PlayIsElsewhere(r: Room, conns: Conns, p: Play)
    requires RoomInv(r, conns)
    ensures RoomInv(r.(play := p), conns)
  {
    hide Roster, HostInv, MailOf;
    Rooms.SameSeats(r, r.(play := p), conns);
  }

  lemma ControlRooms(s: State, ref: Ref, p: Play)
    requires RoomsOk(s) && ref in s.rooms
    ensures RoomsInv(PutRoom(s, ref, s.rooms[ref].(play := p)))
  {
    hide LinkInv, RoomInv;
    ClientsExist(s, ref);
    if Registered(s, ref) { PlayIsElsewhere(s.rooms[ref], s.conns, p); }
    RoomPutOld(s, PutRoom(s, ref, s.rooms[ref].(play := p)), ref, s.rooms[ref].(play := p));
  }
}
