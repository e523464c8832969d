/**
 * Friend invites on the game server. An invite is a row of `invites` with a
 * status; `UNIQUE(from_user_id, to_user_id)` in the schema lets at most one
 * row exist per ordered pair of users, whatever its status.
 */
module Invites {
  import opened Common
  import opened ServerSaves

  type InviteId = nat

  datatype InviteStatus = Pending | Accepted | Declined

  datatype Invite = Invite(from: UserId, to: UserId, status: InviteStatus)

  /** `users` (username to id) and `invites`; `nextId` is the next autoincrement row id. */
  datatype InvitesDb = InvitesDb(users: map<string, UserId>, invites: map<InviteId, Invite>, nextId: InviteId)

  /** A row exists for the ordered pair (a, b). */
  predicate PairExists(invites: map<InviteId, Invite>, a: UserId, b: UserId)
  {
    exists id :: id in invites && invites[id].from == a && invites[id].to == b
  }

  /** An accepted row links a and b in either direction (`findExistingInvite`). */
  predicate AcceptedEither(invites: map<InviteId, Invite>, a: UserId, b: UserId)
  {
    exists id :: id in invites && invites[id].status == Accepted &&
      ((invites[id].from == a && invites[id].to == b) || (invites[id].from == b && invites[id].to == a))
  }

  /** The (from, to) pairs of the accepted invites: who may trade with whom. */
  function AcceptedPairs(invites: map<InviteId, Invite>): (s: set<(UserId, UserId)>)
    ensures forall a, b :: (a, b) in s <==>
      exists id :: id in invites && invites[id].status == Accepted && invites[id].from == a && invites[id].to == b
  {
    set id | id in invites && invites[id].status == Accepted :: (invites[id].from, invites[id].to)
  }

  /** What the routes keep true of the table. */
  predicate Inv(db: InvitesDb)
  {
    (forall id :: id in db.invites ==> id < db.nextId && db.invites[id].from != db.invites[id].to) &&
    (forall i, j :: i in db.invites && j in db.invites && i != j ==>
       (db.invites[i].from, db.invites[i].to) != (db.invites[j].from, db.invites[j].to))
  }

  // ---------------------------------------------------------------------------
  // POST /send

  datatype SendError = UsernameRequired | PlayerNotFound | CannotInviteSelf | AlreadyFriends | AlreadySent

  function SendErrorStatus(e: SendError): (code: int)
    ensures code == 404 <==> e == PlayerNotFound
    ensures code == 409 <==> e == AlreadyFriends || e == AlreadySent
    ensures code in {400, 404, 409}
  {
    match e
    case PlayerNotFound => 404
    case AlreadyFriends => 409
    case AlreadySent => 409
    case _ => 400
  }

  function SendCheck(db: InvitesDb, me: UserId, username: string): (r: Option<SendError>)
    ensures r.None? <==>
      username != "" && username in db.users && db.users[username] != me &&
      !AcceptedEither(db.invites, me, db.users[username]) && !PairExists(db.invites, me, db.users[username])
    ensures r == Some(CannotInviteSelf) <==> username != "" && username in db.users && db.users[username] == me
  {
    if username == "" then Some(UsernameRequired)
    else if username !in db.users then Some(PlayerNotFound)
    else
      var target := db.users[username];
      if target == me then Some(CannotInviteSelf)
      else if AcceptedEither(db.invites, me, target) then Some(AlreadyFriends)
      else if PairExists(db.invites, me, target) then Some(AlreadySent)   // INSERT OR IGNORE changed nothing
      else None
  }

  function SendSpec(db: InvitesDb, me: UserId, username: string): (InvitesDb, Result<InviteId, SendError>)
  {
    match SendCheck(db, me, username)
    case Some(e) => (db, Err(e))
    case None =>
      (db.(invites := db.invites[db.nextId := Invite(me, db.users[username], Pending)], nextId := db.nextId + 1),
       Ok(db.nextId))
  }

  /** Sending keeps one row per ordered pair and never inviting oneself. */
  lemma SendKeepsInv(db: InvitesDb, me: UserId, username: string)
    requires Inv(db)
    ensures Inv(SendSpec(db, me, username).0)
  {
    var (db', r) := SendSpec(db, me, username);
    if r.Ok? {
      var n := db.nextId;
      forall i, j | i in db'.invites && j in db'.invites && i != j
        ensures (db'.invites[i].from, db'.invites[i].to) != (db'.invites[j].from, db'.invites[j].to)
      {
        if i == n {
          assert j in db.invites;
          assert !(db.invites[j].from == me && db.invites[j].to == db.users[username]);
        } else if j == n {
          assert i in db.invites;
          assert !(db.invites[i].from == me && db.invites[i].to == db.users[username]);
        }
      }
    }
  }

  /** Once a user's invite to someone was declined, inviting that user again is refused as already sent. */
  lemma DeclinedInviteBlocksResend(db: InvitesDb, me: UserId, username: string, id: InviteId)
    requires username != "" && username in db.users && db.users[username] != me
    requires id in db.invites && db.invites[id] == Invite(me, db.users[username], Declined)
    requires !AcceptedEither(db.invites, me, db.users[username])
    ensures SendSpec(db, me, username) == (db, Err(AlreadySent))
  {
  }

  // ---------------------------------------------------------------------------
  // POST /:id/accept and POST /:id/decline

  datatype AnswerError = InviteNotFound | NotYourInvite | AlreadyHandled

  function AnswerErrorStatus(e: AnswerError): (code: int)
    ensures code == 404 <==> e == InviteNotFound
    ensures code == 403 <==> e == NotYourInvite
    ensures code == 400 <==> e == AlreadyHandled
  {
    match e
    case InviteNotFound => 404
    case NotYourInvite => 403
    case AlreadyHandled => 400
  }

  /** Accept (`accept` true) or decline a pending invite addressed to `me`. */
  function AnswerSpec(db: InvitesDb, me: UserId, id: InviteId, accept: bool): (InvitesDb, Result<(), AnswerError>)
  {
    if id !in db.invites then (db, Err(InviteNotFound))
    else if db.invites[id].to != me then (db, Err(NotYourInvite))
    else if db.invites[id].status != Pending then (db, Err(AlreadyHandled))
    else (db.(invites := db.invites[id := db.invites[id].(status := if accept then Accepted else Declined)]), Ok(()))
  }

  /**
   * Only the recipient of a pending invite can answer it; the answer sets the
   * status and nothing else, and an accepted invite makes the two users
   * friends in both directions.
   */
  lemma AnswerEffects(db: InvitesDb, me: UserId, id: InviteId, accept: bool)
    requires Inv(db)
    ensures var (db', r) := AnswerSpec(db, me, id, accept);
      Inv(db') && db'.users == db.users && db'.invites.Keys == db.invites.Keys &&
      (r.Ok? <==> id in db.invites && db.invites[id].to == me && db.invites[id].status == Pending) &&
      (r.Ok? ==> db'.invites[id] == db.invites[id].(status := if accept then Accepted else Declined)) &&
      (r.Err? ==> db' == db) &&
      (r.Ok? && accept ==> AcceptedEither(db'.invites, me, db.invites[id].from) &&
                           AcceptedEither(db'.invites, db.invites[id].from, me))
  {
    var (db', r) := AnswerSpec(db, me, id, accept);
    if r.Ok? && accept {
      assert db'.invites[id].status == Accepted;
    }
  }

  /** A decided invite (accepted or declined) never changes again, under any route. */
  lemma DecidedInvitesStay(db: InvitesDb, me: UserId, username: string, id: InviteId, accept: bool, k: InviteId)
    requires Inv(db)
    requires k in db.invites && db.invites[k].status != Pending
    ensures SendSpec(db, me, username).0.invites[k] == db.invites[k]
    ensures AnswerSpec(db, me, id, accept).0.invites[k] == db.invites[k]
  {
  }

  class InviteRoutes {
    var users: map<string, UserId>
    var invites: map<InviteId, Invite>
    var nextId: InviteId

    function Db(): InvitesDb
      reads this
    {
      InvitesDb(users, invites, nextId)
    }

    constructor (users0: map<string, UserId>)
      ensures Db() == InvitesDb(users0, map[], 0) && Inv(Db())
    {
      users := users0;
      invites := map[];
      nextId := 0;
    }

    method Send(me: UserId, username: string) returns (r: Result<InviteId, SendError>)
      modifies this
      ensures (Db(), r) == SendSpec(old(Db()), me, username)
    {
      if username == "" {
        return Err(UsernameRequired);
      }
      if username !in users {
        return Err(PlayerNotFound);
      }
      var target := users[username];
      if target == me {
        return Err(CannotInviteSelf);
      }
      if AcceptedEither(invites, me, target) {
        return Err(AlreadyFriends);
      }
      // INSERT OR IGNORE: the UNIQUE(from, to) constraint makes a second row for the pair a no-op.
      if PairExists(invites, me, target) {
        return Err(AlreadySent);
      }
      invites := invites[nextId := Invite(me, target, Pending)];
      r := Ok(nextId);
      nextId := nextId + 1;
    }

    method Answer(me: UserId, id: InviteId, accept: bool) returns (r: Result<(), AnswerError>)
      modifies this
      ensures (Db(), r) == AnswerSpec(old(Db()), me, id, accept)
    {
      if id !in invites {
        return Err(InviteNotFound);
      }
      var invite := invites[id];
      if invite.to != me {
        return Err(NotYourInvite);
      }
      if invite.status != Pending {
        return Err(AlreadyHandled);
      }
      invites := invites[id := invite.(status := if accept then Accepted else Declined)];
      r := Ok(());
    }
  }
}
