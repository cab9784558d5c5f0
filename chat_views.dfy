/** chat/views.py: the room name of a pair of users and the chat page, which
    only friends may open. */
module ChatViews {
  import opened Results
  import opened Text
  import opened Collections
  import opened Models
  import opened Apis

  /** `create_room_name`: the two keys in ascending order, joined by '_'. */
  function CreateRoomName(a: nat, b: nat): (r: string)
    ensures r == NatToString(Canonical(a, b).0) + "_" + NatToString(Canonical(a, b).1)
  {
    if a < b then NatToString(a) + "_" + NatToString(b) else NatToString(b) + "_" + NatToString(a)
  }

  /** Both users of a chat compute the same room. */
  lemma RoomNameSymmetric(a: nat, b: nat)
    ensures CreateRoomName(a, b) == CreateRoomName(b, a)
  {
  }

  lemma NumeralHasNoUnderscore(n: nat)
    ensures '_' !in NatToString(n)
  {
  }

  /** Splitting a room name at '_' gives back the two keys, smaller first. */
  lemma RoomNameSplits(a: nat, b: nat)
    ensures Split(CreateRoomName(a, b), '_') == [NatToString(Canonical(a, b).0), NatToString(Canonical(a, b).1)]
  {
    var k := Canonical(a, b);
    NumeralHasNoUnderscore(k.0);
    NumeralHasNoUnderscore(k.1);
    assert CreateRoomName(a, b) == NatToString(k.0) + ['_'] + NatToString(k.1);
    SplitJoin(NatToString(k.0), '_', NatToString(k.1));
  }

  /** Distinct pairs of users get distinct rooms. */
  lemma RoomNameInjective(a: nat, b: nat, c: nat, d: nat)
    requires CreateRoomName(a, b) == CreateRoomName(c, d)
    ensures Canonical(a, b) == Canonical(c, d)
  {
    RoomNameSplits(a, b);
    RoomNameSplits(c, d);
    NatToStringInjective(Canonical(a, b).0, Canonical(c, d).0);
    NatToStringInjective(Canonical(a, b).1, Canonical(c, d).1);
  }

  // ---------------------------------------------------------------------
  // chat_room

  /** One element of the page's message history. */
  datatype ChatEntry = ChatEntry(
    content: string,
    senderProfileImage: string,
    senderUsername: string,
    receiverProfileImage: string,
    receiverUsername: string,
    dateCreated: nat)

  function ChatEntryOf(users: map<nat, AppUser>, m: Message): (e: ChatEntry)
    requires m.sender in users && m.receiver in users
    ensures e.content == m.content && e.dateCreated == m.dateCreated
    ensures e.senderUsername == users[m.sender].username && e.receiverUsername == users[m.receiver].username
    ensures e.senderProfileImage == users[m.sender].profileImage && e.receiverProfileImage == users[m.receiver].profileImage
  {
    ChatEntry(m.content, users[m.sender].profileImage, users[m.sender].username,
              users[m.receiver].profileImage, users[m.receiver].username, m.dateCreated)
  }

  /** A message from one of the two users to the other. */
  predicate Between(m: Message, lo: nat, hi: nat) {
    (m.sender == lo && m.receiver == hi) || (m.sender == hi && m.receiver == lo)
  }

  /** Messages in creation order (`ordering = ('date_created',)`). */
  predicate OlderFirst(m: Message, n: Message) {
    m.dateCreated < n.dateCreated
  }

  /** The history query: the two users' messages, oldest first. */
  function History(messages: seq<Message>, lo: nat, hi: nat): (r: seq<Message>)
    ensures forall m :: m in r <==> m in messages && Between(m, lo, hi)
  {
    Filter(messages, (m: Message) => Between(m, lo, hi))
  }

  /** The history shows each of the pair's messages once, in the order they
      were sent. */
  lemma HistoryOrdered(users: map<nat, AppUser>, messages: seq<Message>, clock: nat, lo: nat, hi: nat)
    requires MessagesWellFormed(users, messages, clock)
    ensures SortedBy(History(messages, lo, hi), OlderFirst)
    ensures forall m :: multiset(History(messages, lo, hi))[m] == if Between(m, lo, hi) then multiset(messages)[m] else 0
  {
    assert SortedBy(messages, OlderFirst);
    FilterSorted(messages, (m: Message) => Between(m, lo, hi), OlderFirst);
    forall m ensures multiset(History(messages, lo, hi))[m] == if Between(m, lo, hi) then multiset(messages)[m] else 0 {
      FilterMultiset(messages, (m: Message) => Between(m, lo, hi), m);
    }
  }

  /** The context of the chat page. */
  datatype ChatRoomContext = ChatRoomContext(
    roomName: string,
    messages: seq<ChatEntry>,
    targetUsername: string,
    targetProfileImage: string)

  const InvalidChatRequest := "Invalid request"

  /** The loop of `chat_room` turning the history into entries. */
  method HistoryEntries(users: map<nat, AppUser>, messages: seq<Message>, clock: nat, lo: nat, hi: nat)
    returns (entries: seq<ChatEntry>)
    requires MessagesWellFormed(users, messages, clock)
    ensures |entries| == |History(messages, lo, hi)|
    ensures forall i :: 0 <= i < |entries| ==> (
              var m := History(messages, lo, hi)[i];
              m.sender in users && m.receiver in users && entries[i] == ChatEntryOf(users, m))
  {
    var shown := History(messages, lo, hi);
    entries := [];
    for i := 0 to |shown|
      invariant |entries| == i
      invariant forall k :: 0 <= k < i ==> (
                  shown[k].sender in users && shown[k].receiver in users && entries[k] == ChatEntryOf(users, shown[k]))
    {
      var m := shown[i];
      assert m in messages;
      var j :| 0 <= j < |messages| && messages[j] == m;
      entries := entries + [ChatEntryOf(users, m)];
    }
  }

  /** `chat_room`: Err is the `HttpResponseBadRequest` answered unless the
      viewer and the target are friends. */
  method ChatRoom(db: Db, me: nat, target: nat) returns (r: Result<ChatRoomContext, string>)
    requires db.Valid() && me in db.users
    ensures r.Err? <==> !AreFriends(db.rels, me, target)
    ensures r.Err? ==> r.error == InvalidChatRequest
    ensures r.Ok? ==>
              var k := Canonical(me, target);
              var shown := History(db.messages, k.0, k.1);
              && target in db.users
              && r.value.roomName == CreateRoomName(me, target)
              && |r.value.messages| == |shown|
              && (forall i :: 0 <= i < |shown| ==> (
                    shown[i].sender in db.users && shown[i].receiver in db.users
                    && r.value.messages[i] == ChatEntryOf(db.users, shown[i])))
              && r.value.targetUsername == db.users[target].username
              && r.value.targetProfileImage == db.users[target].profileImage
  {
    var lo := if me < target then me else target;
    var hi := if me < target then target else me;
    if !((lo, hi) in db.rels && db.rels[(lo, hi)].relationType == Friends) {
      return Err(InvalidChatRequest);
    }
    var entries := HistoryEntries(db.users, db.messages, db.clock, lo, hi);
    var u := db.users[target];
    r := Ok(ChatRoomContext(CreateRoomName(lo, hi), entries, u.username, u.profileImage));
  }
}
