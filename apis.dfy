/** The friendship endpoints of social_media/apis.py: the canonical ordering
    of a relationship's two users, the five POST handlers that move a
    relationship between its states, and the two list queries. */
module Apis {
  import opened Results
  import opened Text
  import opened Collections
  import opened Models

  // ---------------------------------------------------------------------
  // The canonical pair.

  /** `determine_user1_and_user2_in_user_relationship`: the smaller key goes
      first. */
  function Canonical(a: nat, b: nat): (r: Pair)
    ensures r.0 <= r.1
    ensures r == (a, b) || r == (b, a)
    ensures a != b ==> r.0 < r.1
  {
    if a < b then (a, b) else (b, a)
  }

  /** Whichever user asks, the same row is meant. */
  lemma CanonicalSymmetric(a: nat, b: nat)
    ensures Canonical(a, b) == Canonical(b, a)
  {
  }

  /** The canonical pair of two users is their only admissible key. */
  lemma CanonicalUnique(k: Pair, a: nat, b: nat)
    requires k.0 < k.1 && (k == (a, b) || k == (b, a))
    ensures k == Canonical(a, b)
  {
  }

  // ---------------------------------------------------------------------
  // Who sent a pending request.

  /** The sender of a pending row keyed by key; None for friends. */
  function Sender(key: Pair, t: RelationType): Option<nat> {
    match t
    case PendingUser1User2 => Some(key.0)
    case PendingUser2User1 => Some(key.1)
    case Friends => None
  }

  /** The pending state that records `caller` as the sender. */
  function SenderPending(caller: nat, key: Pair): (t: RelationType)
    requires caller == key.0 || caller == key.1
    requires key.0 < key.1
    ensures Sender(key, t) == Some(caller)
  {
    if caller == key.0 then PendingUser1User2 else PendingUser2User1
  }

  /** The pending state that records `caller` as the receiver. */
  function ReceiverPending(caller: nat, key: Pair): (t: RelationType)
    requires caller == key.0 || caller == key.1
    requires key.0 < key.1
    ensures t != Friends && Sender(key, t) != Some(caller)
  {
    if caller == key.0 then PendingUser2User1 else PendingUser1User2
  }

  /** a and b are friends. */
  predicate AreFriends(rels: map<Pair, UserRelationship>, a: nat, b: nat) {
    a != b && Canonical(a, b) in rels && rels[Canonical(a, b)].relationType == Friends
  }

  /** a has a pending request to b. */
  predicate HasPendingRequest(rels: map<Pair, UserRelationship>, a: nat, b: nat) {
    a != b && Canonical(a, b) in rels && Sender(Canonical(a, b), rels[Canonical(a, b)].relationType) == Some(a)
  }

  lemma AreFriendsSymmetric(rels: map<Pair, UserRelationship>, a: nat, b: nat)
    ensures AreFriends(rels, a, b) <==> AreFriends(rels, b, a)
  {
    CanonicalSymmetric(a, b);
  }

  /** Between two users there is at most one of: a request one way, a request
      the other way, a friendship. */
  lemma RelationStatesExclusive(rels: map<Pair, UserRelationship>, a: nat, b: nat)
    ensures !(HasPendingRequest(rels, a, b) && HasPendingRequest(rels, b, a))
    ensures !(HasPendingRequest(rels, a, b) && AreFriends(rels, a, b))
  {
    CanonicalSymmetric(a, b);
  }

  // ---------------------------------------------------------------------
  // The handlers as functions of the tables.

  datatype Response = NoContent | BadRequest(detail: string)

  const InvalidRequest := "Invalid request."
  const InvalidRequestId := "Invalid request Id."

  /** `not requested_user_id` for a JSON integer or a missing key. */
  predicate IsFalsy(id: Option<int>) {
    id.None? || id.value == 0
  }

  /** The checks every handler starts with: an id is given, and it is the key
      of another user. */
  function Target(users: map<nat, AppUser>, caller: nat, id: Option<int>): (r: Result<nat, string>)
    ensures r.Ok? <==> !IsFalsy(id) && id.value >= 0 && id.value as nat in users && id.value != caller
    ensures r.Ok? ==> r.value == id.value && r.value != caller && r.value in users
    ensures r.Err? ==> r.error == if IsFalsy(id) then InvalidRequest else InvalidRequestId
  {
    if IsFalsy(id) then Err(InvalidRequest)
    else if id.value < 0 || id.value == caller || id.value as nat !in users then Err(InvalidRequestId)
    else Ok(id.value as nat)
  }

  /** What a handler answers and the relationship table and clock after it. */
  datatype Outcome = Outcome(response: Response, rels: map<Pair, UserRelationship>, clock: nat)

  /** `SendFriendRequest.post`. */
  function Send(users: map<nat, AppUser>, rels: map<Pair, UserRelationship>, clock: nat, caller: nat, id: Option<int>): (r: Outcome)
    requires caller in users
    ensures r.response.NoContent? <==> Target(users, caller, id).Ok? && Canonical(caller, Target(users, caller, id).value) !in rels
    ensures r.response.BadRequest? ==> && r.rels == rels && r.clock == clock
                                       && r.response.detail == (if Target(users, caller, id).Err? then Target(users, caller, id).error else InvalidRequest)
    ensures r.response.NoContent? ==>
              var t := Target(users, caller, id).value;
              && HasPendingRequest(r.rels, caller, t)
              && r.rels[Canonical(caller, t)].dateModified == clock
              && r.rels - {Canonical(caller, t)} == rels
              && r.clock == clock + 1
  {
    match Target(users, caller, id)
    case Err(e) => Outcome(BadRequest(e), rels, clock)
    case Ok(t) =>
      var key := Canonical(caller, t);
      if key !in rels then
        var rels' := rels[key := UserRelationship(SenderPending(caller, key), clock)];
        assert rels' - {key} == rels;
        Outcome(NoContent, rels', clock + 1)
      else Outcome(BadRequest(InvalidRequest), rels, clock)
  }

  /** `CancelFriendRequest.post`: only the sender may withdraw a request. */
  function Cancel(users: map<nat, AppUser>, rels: map<Pair, UserRelationship>, clock: nat, caller: nat, id: Option<int>): (r: Outcome)
    requires caller in users
    ensures r.clock == clock
    ensures r.response.NoContent? <==> Target(users, caller, id).Ok? && HasPendingRequest(rels, caller, Target(users, caller, id).value)
    ensures r.response.BadRequest? ==> && r.rels == rels
                                       && r.response.detail == (if Target(users, caller, id).Err? then Target(users, caller, id).error else InvalidRequestId)
    ensures r.response.NoContent? ==> r.rels == rels - {Canonical(caller, Target(users, caller, id).value)}
  {
    match Target(users, caller, id)
    case Err(e) => Outcome(BadRequest(e), rels, clock)
    case Ok(t) =>
      var key := Canonical(caller, t);
      if key in rels && rels[key].relationType == SenderPending(caller, key) then Outcome(NoContent, rels - {key}, clock)
      else Outcome(BadRequest(InvalidRequestId), rels, clock)
  }

  /** `AcceptFriendRequest.post`: only the receiver may accept, and the row
      becomes `friends`. */
  function Accept(users: map<nat, AppUser>, rels: map<Pair, UserRelationship>, clock: nat, caller: nat, id: Option<int>): (r: Outcome)
    requires caller in users
    ensures r.response.NoContent? <==> Target(users, caller, id).Ok? && HasPendingRequest(rels, Target(users, caller, id).value, caller)
    ensures r.response.BadRequest? ==> && r.rels == rels && r.clock == clock
                                       && r.response.detail == (if Target(users, caller, id).Err? then Target(users, caller, id).error else InvalidRequestId)
    ensures r.response.NoContent? ==>
              var t := Target(users, caller, id).value;
              && AreFriends(r.rels, caller, t)
              && r.rels == rels[Canonical(caller, t) := UserRelationship(Friends, clock)]
              && r.clock == clock + 1
  {
    match Target(users, caller, id)
    case Err(e) => Outcome(BadRequest(e), rels, clock)
    case Ok(t) =>
      var key := Canonical(caller, t);
      CanonicalSymmetric(caller, t);
      if key in rels && rels[key].relationType == ReceiverPending(caller, key) then
        Outcome(NoContent, rels[key := UserRelationship(Friends, clock)], clock + 1)
      else Outcome(BadRequest(InvalidRequestId), rels, clock)
  }

  /** `DeclineFriendRequest.post`: only the receiver may decline, and the row
      goes. */
  function Decline(users: map<nat, AppUser>, rels: map<Pair, UserRelationship>, clock: nat, caller: nat, id: Option<int>): (r: Outcome)
    requires caller in users
    ensures r.clock == clock
    ensures r.response.NoContent? <==> Target(users, caller, id).Ok? && HasPendingRequest(rels, Target(users, caller, id).value, caller)
    ensures r.response.BadRequest? ==> && r.rels == rels
                                       && r.response.detail == (if Target(users, caller, id).Err? then Target(users, caller, id).error else InvalidRequestId)
    ensures r.response.NoContent? ==> r.rels == rels - {Canonical(caller, Target(users, caller, id).value)}
  {
    match Target(users, caller, id)
    case Err(e) => Outcome(BadRequest(e), rels, clock)
    case Ok(t) =>
      var key := Canonical(caller, t);
      CanonicalSymmetric(caller, t);
      if key in rels && rels[key].relationType == ReceiverPending(caller, key) then Outcome(NoContent, rels - {key}, clock)
      else Outcome(BadRequest(InvalidRequestId), rels, clock)
  }

  /** `RemoveFriend.post`: either friend may end the friendship. */
  function Remove(users: map<nat, AppUser>, rels: map<Pair, UserRelationship>, clock: nat, caller: nat, id: Option<int>): (r: Outcome)
    requires caller in users
    ensures r.clock == clock
    ensures r.response.NoContent? <==> Target(users, caller, id).Ok? && AreFriends(rels, caller, Target(users, caller, id).value)
    ensures r.response.BadRequest? ==> && r.rels == rels
                                       && r.response.detail == (if Target(users, caller, id).Err? then Target(users, caller, id).error else InvalidRequestId)
    ensures r.response.NoContent? ==> r.rels == rels - {Canonical(caller, Target(users, caller, id).value)}
  {
    match Target(users, caller, id)
    case Err(e) => Outcome(BadRequest(e), rels, clock)
    case Ok(t) =>
      var key := Canonical(caller, t);
      if key in rels && rels[key].relationType == Friends then Outcome(NoContent, rels - {key}, clock)
      else Outcome(BadRequest(InvalidRequestId), rels, clock)
  }

  // ---------------------------------------------------------------------
  // Sequences of requests.

  datatype Op =
    | SendOp(caller: nat, id: Option<int>)
    | CancelOp(caller: nat, id: Option<int>)
    | AcceptOp(caller: nat, id: Option<int>)
    | DeclineOp(caller: nat, id: Option<int>)
    | RemoveOp(caller: nat, id: Option<int>)

  function Step(users: map<nat, AppUser>, rels: map<Pair, UserRelationship>, clock: nat, op: Op): Outcome
    requires op.caller in users
  {
    match op
    case SendOp(c, id) => Send(users, rels, clock, c, id)
    case CancelOp(c, id) => Cancel(users, rels, clock, c, id)
    case AcceptOp(c, id) => Accept(users, rels, clock, c, id)
    case DeclineOp(c, id) => Decline(users, rels, clock, c, id)
    case RemoveOp(c, id) => Remove(users, rels, clock, c, id)
  }

  /** Every handler keeps the relationship table well formed: keys ordered,
      users existing, modification times distinct and in the past. */
  lemma StepPreservesWellFormed(users: map<nat, AppUser>, rels: map<Pair, UserRelationship>, clock: nat, op: Op)
    requires op.caller in users
    requires RelationsWellFormed(users, rels) && RelationDatesWellFormed(rels, clock)
    ensures var o := Step(users, rels, clock, op);
            RelationsWellFormed(users, o.rels) && RelationDatesWellFormed(o.rels, o.clock) && o.clock >= clock
  {
  }

  /** Requests applied one after another, by authenticated users. */
  function Run(users: map<nat, AppUser>, rels: map<Pair, UserRelationship>, clock: nat, ops: seq<Op>): Outcome
    requires forall i :: 0 <= i < |ops| ==> ops[i].caller in users
    decreases |ops|
  {
    if ops == [] then Outcome(NoContent, rels, clock)
    else
      var o := Step(users, rels, clock, ops[0]);
      Run(users, o.rels, o.clock, ops[1..])
  }

  lemma {:induction false} RunPreservesWellFormed(users: map<nat, AppUser>, rels: map<Pair, UserRelationship>, clock: nat, ops: seq<Op>)
    requires forall i :: 0 <= i < |ops| ==> ops[i].caller in users
    requires RelationsWellFormed(users, rels) && RelationDatesWellFormed(rels, clock)
    ensures var o := Run(users, rels, clock, ops);
            RelationsWellFormed(users, o.rels) && RelationDatesWellFormed(o.rels, o.clock) && o.clock >= clock
    decreases |ops|
  {
    if ops != [] {
      StepPreservesWellFormed(users, rels, clock, ops[0]);
      var o := Step(users, rels, clock, ops[0]);
      RunPreservesWellFormed(users, o.rels, o.clock, ops[1..]);
    }
  }

  // ---------------------------------------------------------------------
  // How the handlers combine.

  /** Once a has asked b, b cannot ask a back: b has to accept instead. */
  lemma SendThenReverseSendRejected(users: map<nat, AppUser>, rels: map<Pair, UserRelationship>, clock: nat, a: nat, b: nat)
    requires UsersWellFormed(users) && a in users && b in users
    requires Send(users, rels, clock, a, Some(b)).response.NoContent?
    ensures var o := Send(users, rels, clock, a, Some(b));
            && Send(users, o.rels, o.clock, b, Some(a)).response == BadRequest(InvalidRequest)
            && Send(users, o.rels, o.clock, a, Some(b)).response == BadRequest(InvalidRequest)
  {
    CanonicalSymmetric(a, b);
  }

  /** After a asks b, the sender cannot accept, the receiver can, and a
      friendship follows. */
  lemma SendThenAccept(users: map<nat, AppUser>, rels: map<Pair, UserRelationship>, clock: nat, a: nat, b: nat)
    requires UsersWellFormed(users) && a in users && b in users
    requires Send(users, rels, clock, a, Some(b)).response.NoContent?
    ensures var o := Send(users, rels, clock, a, Some(b));
            && Accept(users, o.rels, o.clock, a, Some(b)).response == BadRequest(InvalidRequestId)
            && Accept(users, o.rels, o.clock, b, Some(a)).response == NoContent
            && AreFriends(Accept(users, o.rels, o.clock, b, Some(a)).rels, a, b)
  {
    var o := Send(users, rels, clock, a, Some(b));
    CanonicalSymmetric(a, b);
    RelationStatesExclusive(o.rels, a, b);
    AreFriendsSymmetric(Accept(users, o.rels, o.clock, b, Some(a)).rels, a, b);
  }

  /** Cancelling a request one has just sent restores the table. */
  lemma SendThenCancel(users: map<nat, AppUser>, rels: map<Pair, UserRelationship>, clock: nat, a: nat, b: nat)
    requires UsersWellFormed(users) && a in users && b in users
    requires Send(users, rels, clock, a, Some(b)).response.NoContent?
    ensures var o := Send(users, rels, clock, a, Some(b));
            && Cancel(users, o.rels, o.clock, a, Some(b)).response == NoContent
            && Cancel(users, o.rels, o.clock, a, Some(b)).rels == rels
            && Cancel(users, o.rels, o.clock, b, Some(a)).response == BadRequest(InvalidRequestId)
  {
    CanonicalSymmetric(a, b);
  }

  /** Declining a request restores the table as it was before the request. */
  lemma SendThenDecline(users: map<nat, AppUser>, rels: map<Pair, UserRelationship>, clock: nat, a: nat, b: nat)
    requires UsersWellFormed(users) && a in users && b in users
    requires Send(users, rels, clock, a, Some(b)).response.NoContent?
    ensures var o := Send(users, rels, clock, a, Some(b));
            && Decline(users, o.rels, o.clock, b, Some(a)).response == NoContent
            && Decline(users, o.rels, o.clock, b, Some(a)).rels == rels
            && Decline(users, o.rels, o.clock, a, Some(b)).response == BadRequest(InvalidRequestId)
  {
    CanonicalSymmetric(a, b);
  }

  /** A friendship removed by either side frees the pair for a new request. */
  lemma RemoveThenSend(users: map<nat, AppUser>, rels: map<Pair, UserRelationship>, clock: nat, a: nat, b: nat)
    requires UsersWellFormed(users) && a in users && b in users
    requires AreFriends(rels, a, b)
    ensures var o := Remove(users, rels, clock, b, Some(a));
            && o.response == NoContent && !AreFriends(o.rels, a, b)
            && Send(users, o.rels, o.clock, a, Some(b)).response == NoContent
  {
    CanonicalSymmetric(a, b);
  }

  // ---------------------------------------------------------------------
  // The handlers on the database.

  /** The outcome a handler reports against its specification. */
  function Observed(response: Response, db: Db): Outcome
    reads db
  {
    Outcome(response, db.rels, db.clock)
  }

  method SendFriendRequest(db: Db, caller: nat, id: Option<int>) returns (response: Response)
    requires db.Valid() && caller in db.users
    modifies db`rels, db`clock
    ensures db.Valid()
    ensures Observed(response, db) == Send(db.users, old(db.rels), old(db.clock), caller, id)
  {
    var target := Target(db.users, caller, id);
    if target.Err? {
      return BadRequest(target.error);
    }
    var key := Canonical(caller, target.value);
    if key !in db.rels {
      db.InsertRelationship(key, SenderPending(caller, key));
      response := NoContent;
    } else {
      response := BadRequest(InvalidRequest);
    }
  }

  method CancelFriendRequest(db: Db, caller: nat, id: Option<int>) returns (response: Response)
    requires db.Valid() && caller in db.users
    modifies db`rels
    ensures db.Valid()
    ensures Observed(response, db) == Cancel(db.users, old(db.rels), db.clock, caller, id)
  {
    var target := Target(db.users, caller, id);
    if target.Err? {
      return BadRequest(target.error);
    }
    var key := Canonical(caller, target.value);
    if key in db.rels && db.rels[key].relationType == SenderPending(caller, key) {
      db.DeleteRelationship(key);
      response := NoContent;
    } else {
      response := BadRequest(InvalidRequestId);
    }
  }

  method AcceptFriendRequest(db: Db, caller: nat, id: Option<int>) returns (response: Response)
    requires db.Valid() && caller in db.users
    modifies db`rels, db`clock
    ensures db.Valid()
    ensures Observed(response, db) == Accept(db.users, old(db.rels), old(db.clock), caller, id)
  {
    var target := Target(db.users, caller, id);
    if target.Err? {
      return BadRequest(target.error);
    }
    var key := Canonical(caller, target.value);
    if key in db.rels && db.rels[key].relationType == ReceiverPending(caller, key) {
      db.AcceptFriendRequest(key);
      response := NoContent;
    } else {
      response := BadRequest(InvalidRequestId);
    }
  }

  method DeclineFriendRequest(db: Db, caller: nat, id: Option<int>) returns (response: Response)
    requires db.Valid() && caller in db.users
    modifies db`rels
    ensures db.Valid()
    ensures Observed(response, db) == Decline(db.users, old(db.rels), db.clock, caller, id)
  {
    var target := Target(db.users, caller, id);
    if target.Err? {
      return BadRequest(target.error);
    }
    var key := Canonical(caller, target.value);
    if key in db.rels && db.rels[key].relationType == ReceiverPending(caller, key) {
      db.DeleteRelationship(key);
      response := NoContent;
    } else {
      response := BadRequest(InvalidRequestId);
    }
  }

  method RemoveFriend(db: Db, caller: nat, id: Option<int>) returns (response: Response)
    requires db.Valid() && caller in db.users
    modifies db`rels
    ensures db.Valid()
    ensures Observed(response, db) == Remove(db.users, old(db.rels), db.clock, caller, id)
  {
    var target := Target(db.users, caller, id);
    if target.Err? {
      return BadRequest(target.error);
    }
    var key := Canonical(caller, target.value);
    if key in db.rels && db.rels[key].relationType == Friends {
      db.DeleteRelationship(key);
      response := NoContent;
    } else {
      response := BadRequest(InvalidRequestId);
    }
  }

  // ---------------------------------------------------------------------
  // The list endpoints.

  /** A `FriendListSerializer` entry. */
  datatype UserCard = UserCard(id: nat, profileImage: string, username: string)

  function CardOf(users: map<nat, AppUser>, pk: nat): UserCard
    requires pk in users
  {
    UserCard(pk, users[pk].profileImage, users[pk].username)
  }

  /** `key=lambda x: x.username`. */
  predicate ByUsername(a: UserCard, b: UserCard) {
    StrLe(a.username, b.username)
  }

  lemma ByUsernameTotalPreorder()
    ensures TotalPreorder(ByUsername)
  {
    forall a: UserCard, b: UserCard ensures ByUsername(a, b) || ByUsername(b, a) {
      StrLeTotal(a.username, b.username);
    }
    forall a: UserCard, b: UserCard, c: UserCard | ByUsername(a, b) && ByUsername(b, c) ensures ByUsername(a, c) {
      StrLeTransitive(a.username, b.username, c.username);
    }
  }

  /** The other user of a row that involves u. */
  function Other(key: Pair, u: nat): nat {
    if u == key.0 then key.1 else key.0
  }

  /** Every card shows its user as the users table has them. */
  predicate CardsOfUsers(users: map<nat, AppUser>, cards: seq<UserCard>) {
    forall k :: 0 <= k < |cards| ==> cards[k].id in users && cards[k] == CardOf(users, cards[k].id)
  }

  predicate DistinctIds(cards: seq<UserCard>) {
    forall i, j :: 0 <= i < j < |cards| ==> cards[i].id != cards[j].id
  }

  /** The cards are those of u's friends. */
  ghost predicate FriendsOf(users: map<nat, AppUser>, rels: map<Pair, UserRelationship>, u: nat, cards: seq<UserCard>) {
    forall pk :: pk in users ==> (CardOf(users, pk) in cards <==> AreFriends(rels, u, pk))
  }

  /** A `friends` row with u on one side. */
  predicate FriendRowOf(rels: map<Pair, UserRelationship>, u: nat, key: Pair) {
    key in rels && (key.0 == u || key.1 == u) && rels[key].relationType == Friends
  }

  /** The loop of `get_queryset` over the matching relationship rows. */
  method CollectFriends(users: map<nat, AppUser>, rels: map<Pair, UserRelationship>, u: nat, rows: seq<Pair>)
    returns (friends: seq<UserCard>)
    requires RelationsWellFormed(users, rels)
    requires NoDuplicates(rows) && forall k :: k in rows <==> k in rels
    ensures CardsOfUsers(users, friends) && DistinctIds(friends) && FriendsOf(users, rels, u, friends)
  {
    friends := [];
    for i := 0 to |rows|
      invariant CardsOfUsers(users, friends) && DistinctIds(friends)
      invariant forall k :: 0 <= k < |friends| ==> AreFriends(rels, u, friends[k].id) && Canonical(u, friends[k].id) in rows[..i]
      invariant forall j :: 0 <= j < i && FriendRowOf(rels, u, rows[j]) ==> CardOf(users, Other(rows[j], u)) in friends
    {
      var key := rows[i];
      if (key.0 == u || key.1 == u) && rels[key].relationType == Friends {
        var v := Other(key, u);
        assert key == Canonical(u, v);
        assert key !in rows[..i];
        friends := friends + [CardOf(users, v)];
      }
    }
    assert rows[..|rows|] == rows;
    forall pk | pk in users && AreFriends(rels, u, pk) ensures CardOf(users, pk) in friends {
      var key := Canonical(u, pk);
      var j :| 0 <= j < |rows| && rows[j] == key;
      assert FriendRowOf(rels, u, rows[j]) && Other(key, u) == pk;
    }
  }

  /** Reordering cards keeps them consistent, distinct and the same set. */
  lemma PermutedCards(users: map<nat, AppUser>, a: seq<UserCard>, b: seq<UserCard>)
    requires multiset(a) == multiset(b)
    requires CardsOfUsers(users, a) && DistinctIds(a)
    ensures CardsOfUsers(users, b) && DistinctIds(b)
    ensures forall c :: c in a <==> c in b
  {
    assert forall c :: c in a <==> c in b by {
      forall c ensures c in a <==> c in b {
        assert c in a <==> c in multiset(a);
        assert c in b <==> c in multiset(b);
      }
    }
    forall k | 0 <= k < |b| ensures b[k].id in users && b[k] == CardOf(users, b[k].id) {
      assert b[k] in a;
    }
    assert NoDuplicates(a);
    NoDuplicatesPermutation(a, b);
    forall i, j | 0 <= i < j < |b| ensures b[i].id != b[j].id {
      assert b[i] in a && b[j] in a;
    }
  }

  /** `FriendList.get_queryset`: the requested user's friends, each once,
      ordered by username; `Http404` (Err) for an unknown username. */
  method FriendList(db: Db, username: string) returns (r: Result<seq<UserCard>, ()>)
    requires db.Valid()
    ensures r.Err? <==> UserWithUsername(db.users, username).None?
    ensures r.Ok? ==>
              var u := UserWithUsername(db.users, username).value;
              && FriendsOf(db.users, db.rels, u, r.value)
              && CardsOfUsers(db.users, r.value) && DistinctIds(r.value)
              && SortedBy(r.value, ByUsername)
  {
    var found := UserWithUsername(db.users, username);
    if found.None? {
      return Err(());
    }
    var rows := Enumerate(db.rels.Keys);
    var friends := CollectFriends(db.users, db.rels, found.value, rows);
    ByUsernameTotalPreorder();
    var sorted := SortBy(friends, ByUsername);
    PermutedCards(db.users, friends, sorted);
    r := Ok(sorted);
  }

  /** `order_by('-date_created')`. */
  predicate NewestFirst(p: Post, q: Post) {
    p.dateCreated >= q.dateCreated
  }

  /** `filter(owner__username=username)`. */
  predicate OwnedBy(users: map<nat, AppUser>, username: string, p: Post) {
    p.owner in users && users[p.owner].username == username
  }

  /** `UserPostList.get_queryset`: the posts whose owner has the given
      username, newest first; no user, no posts. */
  function UserPosts(users: map<nat, AppUser>, posts: seq<Post>, username: string): (r: seq<Post>)
    ensures forall p :: p in r <==> p in posts && OwnedBy(users, username, p)
    ensures forall p :: multiset(r)[p] == (if OwnedBy(users, username, p) then multiset(posts)[p] else 0)
    ensures SortedBy(r, NewestFirst)
  {
    var owned := (p: Post) => OwnedBy(users, username, p);
    var mine := Filter(posts, owned);
    forall p ensures multiset(mine)[p] == (if OwnedBy(users, username, p) then multiset(posts)[p] else 0) {
      FilterMultiset(posts, owned, p);
    }
    var r := SortBy(mine, NewestFirst);
    assert forall p :: p in r <==> p in multiset(r);
    r
  }
}
