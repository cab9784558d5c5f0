/** chat/consumers.py: the websocket consumer of a chat room. A connection
    joins the room's group, every message it receives is stored and then sent
    to every connection of the group. The channel layer is modelled by the
    group memberships and, per connection, the frames sent to its socket. */
module ChatConsumers {
  import opened Results
  import opened Text
  import opened Collections
  import opened Models
  import opened Apis
  import opened ChatViews

  /** The JSON object a client sends, and the one each member is sent. */
  datatype Frame = Frame(message: string, username: string, profileImagePath: string)

  /** The event `group_send` hands to each consumer of the group. */
  datatype GroupEvent = GroupEvent(eventType: string, message: string, username: string, profileImagePath: string)

  /** The group of a room: `'chat_{}'.format(room_name)`. */
  function GroupName(roomName: string): (g: string)
    ensures |g| == |roomName| + 5 && g[..5] == "chat_" && g[5..] == roomName
  {
    "chat_" + roomName
  }

  lemma GroupNameInjective(a: string, b: string)
    requires GroupName(a) == GroupName(b)
    ensures a == b
  {
    assert a == GroupName(a)[5..];
  }

  /** The event `receive` builds from a client frame. */
  function EventOf(frame: Frame): (e: GroupEvent)
    ensures e.eventType == "chat_message"
  {
    GroupEvent("chat_message", frame.message, frame.username, frame.profileImagePath)
  }

  /** `chat_message`: the frame sent to the socket for an event. */
  function ChatMessage(event: GroupEvent): (f: Frame)
    ensures event.eventType == "chat_message" ==> EventOf(f) == event
  {
    Frame(event.message, event.username, event.profileImagePath)
  }

  /** What a client sends is what every member of the room is sent. */
  lemma EchoRoundTrip(frame: Frame)
    ensures EventOf(frame).eventType == "chat_message"
    ensures ChatMessage(EventOf(frame)) == frame
  {
  }

  /** The effects of the chat, in the order they happen. */
  datatype ChatEffect = Persisted(stored: Message) | Broadcast(group: string, frame: Frame)

  /** Every broadcast directly follows the storing of its message. */
  ghost predicate PersistedBeforeBroadcast(effects: seq<ChatEffect>) {
    forall i :: 0 <= i < |effects| && effects[i].Broadcast? ==>
      i > 0 && effects[i - 1].Persisted? && effects[i - 1].stored.content == effects[i].frame.message
  }

  /** Storing a message and then broadcasting it keeps the order. */
  lemma PersistThenBroadcast(effects: seq<ChatEffect>, m: Message, group: string, frame: Frame)
    requires PersistedBeforeBroadcast(effects) && m.content == frame.message
    ensures PersistedBeforeBroadcast(effects + [Persisted(m), Broadcast(group, frame)])
  {
    var e := effects + [Persisted(m), Broadcast(group, frame)];
    forall i | 0 <= i < |e| && e[i].Broadcast?
      ensures i > 0 && e[i - 1].Persisted? && e[i - 1].stored.content == e[i].frame.message
    {
      if i < |effects| {
        assert e[i] == effects[i] && e[i - 1] == effects[i - 1];
      }
    }
  }

  /** The receiver named by a room: `room_name.split('_')`, then the id that
      is not the sender's. None where the source raises (a part that is not a
      number, a missing second part, no such user). */
  function ReceiverFromRoom(users: map<nat, AppUser>, roomName: string, sender: nat): (r: Option<nat>)
    ensures r.Some? ==> r.value in users
  {
    var ids := Split(roomName, '_');
    match ParseInt(ids[0])
    case None => None
    case Some(first) =>
      if first == sender then
        if |ids| < 2 then None
        else
          match ParseInt(ids[1])
          case None => None
          case Some(second) => if second >= 0 && second as nat in users then Some(second as nat) else None
      else if first >= 0 && first as nat in users then Some(first as nat)
      else None
  }

  /** In the room of two users, each one's messages go to the other. */
  lemma ReceiverOfOwnRoom(users: map<nat, AppUser>, s: nat, r: nat)
    requires s != r && r in users
    ensures ReceiverFromRoom(users, CreateRoomName(s, r), s) == Some(r)
  {
    var k := Canonical(s, r);
    RoomNameSplits(s, r);
    ParseIntOfNumeral(k.0);
    ParseIntOfNumeral(k.1);
  }

  /** The room name is trusted: a sender who is not one of the room's users
      has their messages addressed to the room's first user. */
  lemma OutsiderAddressesFirstUser(users: map<nat, AppUser>, a: nat, b: nat, s: nat)
    requires s != Canonical(a, b).0 && Canonical(a, b).0 in users
    ensures ReceiverFromRoom(users, CreateRoomName(a, b), s) == Some(Canonical(a, b).0)
  {
    RoomNameSplits(a, b);
    ParseIntOfNumeral(Canonical(a, b).0);
  }

  /** Any room name of the form "<x>_<y>" over stored users, canonical or
      not: a sender who is the first user writes to the second, anyone else
      writes to the first. */
  lemma ReceiverOfAnyNumeralRoom(users: map<nat, AppUser>, x: nat, y: nat, s: nat)
    requires x in users && y in users
    ensures ReceiverFromRoom(users, NatToString(x) + "_" + NatToString(y), s) == Some(if x == s then y else x)
  {
    NumeralHasNoUnderscore(x);
    NumeralHasNoUnderscore(y);
    SplitJoin(NatToString(x), '_', NatToString(y));
    ParseIntOfNumeral(x);
    ParseIntOfNumeral(y);
  }

  // ---------------------------------------------------------------------
  // The channel layer.

  class ChannelLayer {
    /** Group name to the channel names in it. */
    var groups: map<string, set<string>>
    /** Channel name to the frames its socket has been sent. */
    var inboxes: map<string, seq<Frame>>
    /** The chat's effects so far. */
    ghost var effects: seq<ChatEffect>

    constructor ()
      ensures groups == map[] && inboxes == map[] && effects == []
    {
      groups, inboxes, effects := map[], map[], [];
    }

    function Members(group: string): set<string>
      reads this
    {
      if group in groups then groups[group] else {}
    }

    function Inbox(channel: string): seq<Frame>
      reads this
    {
      if channel in inboxes then inboxes[channel] else []
    }

    /** `group_add`. */
    method GroupAdd(group: string, channel: string)
      modifies this`groups
      ensures groups == old(groups)[group := old(Members(group)) + {channel}]
    {
      groups := groups[group := Members(group) + {channel}];
    }

    /** `group_discard`: an unknown group is left alone. */
    method GroupDiscard(group: string, channel: string)
      modifies this`groups
      ensures group in old(groups) ==> groups == old(groups)[group := old(groups)[group] - {channel}]
      ensures group !in old(groups) ==> groups == old(groups)
    {
      if group in groups {
        groups := groups[group := groups[group] - {channel}];
      }
    }

    /** `group_send`: each channel of the group runs `chat_message` on the
        event, which sends one frame to its socket; other channels are not
        sent anything. */
    method GroupSend(group: string, event: GroupEvent)
      modifies this`inboxes, this`effects
      ensures effects == old(effects) + [Broadcast(group, ChatMessage(event))]
      ensures forall c :: c in inboxes <==> c in old(inboxes) || c in old(Members(group))
      ensures forall c :: c in old(Members(group)) ==> Inbox(c) == old(Inbox(c)) + [ChatMessage(event)]
      ensures forall c :: c !in old(Members(group)) ==> Inbox(c) == old(Inbox(c))
    {
      var frame := ChatMessage(event);
      var members := Enumerate(Members(group));
      ghost var before := inboxes;
      for i := 0 to |members|
        invariant effects == old(effects)
        invariant forall c :: c in inboxes <==> c in before || c in members[..i]
        invariant forall c :: c in members[..i] ==> Inbox(c) == (if c in before then before[c] else []) + [frame]
        invariant forall c :: c !in members[..i] ==> Inbox(c) == (if c in before then before[c] else [])
      {
        var c := members[i];
        assert c !in members[..i];
        assert members[..i + 1] == members[..i] + [c];
        inboxes := inboxes[c := Inbox(c) + [frame]];
      }
      assert members[..|members|] == members;
      effects := effects + [Broadcast(group, frame)];
    }
  }

  // ---------------------------------------------------------------------
  // The consumer.

  class ChatConsumer {
    /** The channel of this connection. */
    const channelName: string
    /** `str(self.scope['user'])`: the email of the logged-in user. */
    const user: string
    /** `self.scope['url_route']['kwargs']['room_name']`. */
    const routeRoomName: string
    var roomName: Option<string>
    var roomGroupName: Option<string>
    var accepted: bool

    constructor (channelName: string, user: string, routeRoomName: string)
      ensures this.channelName == channelName && this.user == user && this.routeRoomName == routeRoomName
      ensures roomName.None? && roomGroupName.None? && !accepted
    {
      this.channelName, this.user, this.routeRoomName := channelName, user, routeRoomName;
      roomName, roomGroupName, accepted := None, None, false;
    }

    /** `connect`: join the room's group and accept the socket. */
    method Connect(layer: ChannelLayer)
      modifies this`roomName, this`roomGroupName, this`accepted, layer`groups
      ensures roomName == Some(routeRoomName) && roomGroupName == Some(GroupName(routeRoomName)) && accepted
      ensures layer.groups == old(layer.groups)[GroupName(routeRoomName) := old(layer.Members(GroupName(routeRoomName))) + {channelName}]
    {
      roomName := Some(routeRoomName);
      roomGroupName := Some(GroupName(routeRoomName));
      layer.GroupAdd(GroupName(routeRoomName), channelName);
      accepted := true;
    }

    /** `disconnect`: leave the room's group. */
    method Disconnect(layer: ChannelLayer)
      requires roomGroupName.Some?
      modifies layer`groups
      ensures roomGroupName.value in old(layer.groups) ==>
                layer.groups == old(layer.groups)[roomGroupName.value := old(layer.groups)[roomGroupName.value] - {channelName}]
      ensures roomGroupName.value !in old(layer.groups) ==> layer.groups == old(layer.groups)
    {
      layer.GroupDiscard(roomGroupName.value, channelName);
    }

    /** `save_message_to_db`: the sender is the logged-in user, the receiver
        is read from the room name; None where the source raises. */
    method SaveMessageToDb(db: Db, message: string) returns (m: Option<Message>)
      requires db.Valid()
      modifies db`messages, db`clock
      ensures db.Valid()
      ensures var s := UserWithEmail(db.users, user);
              && (m.Some? <==> s.Some? && ReceiverFromRoom(db.users, routeRoomName, s.value).Some? && |message| <= MessageMaxLength)
              && (m.Some? ==> && m.value == Message(s.value, ReceiverFromRoom(db.users, routeRoomName, s.value).value, message, old(db.clock))
                              && db.messages == old(db.messages) + [m.value] && db.clock == old(db.clock) + 1)
      ensures m.None? ==> db.messages == old(db.messages) && db.clock == old(db.clock)
    {
      var sender := UserWithEmail(db.users, user);
      if sender.None? {
        return None;
      }
      var receiver := ReceiverFromRoom(db.users, routeRoomName, sender.value);
      if receiver.None? {
        return None;
      }
      m := db.CreateMessage(sender.value, receiver.value, message);
    }

    /** `receive`: store the message, then send the frame to the group. When
        storing fails the handler stops and nothing is sent. */
    method Receive(db: Db, layer: ChannelLayer, frame: Frame) returns (stored: Option<Message>)
      requires db.Valid() && roomGroupName.Some?
      modifies db`messages, db`clock, layer`inboxes, layer`effects
      ensures db.Valid()
      ensures var s := UserWithEmail(db.users, user);
              stored.Some? <==> s.Some? && ReceiverFromRoom(db.users, routeRoomName, s.value).Some? && |frame.message| <= MessageMaxLength
      ensures stored.Some? ==> && stored.value.content == frame.message
                               && stored.value.sender == UserWithEmail(db.users, user).value
                               && stored.value.receiver == ReceiverFromRoom(db.users, routeRoomName, stored.value.sender).value
                               && db.messages == old(db.messages) + [stored.value]
      ensures db.clock == old(db.clock) + (if stored.Some? then 1 else 0)
      ensures stored.Some? ==> && layer.effects == old(layer.effects) + [Persisted(stored.value), Broadcast(roomGroupName.value, frame)]
                               && (forall c :: c in old(layer.Members(roomGroupName.value)) ==> layer.Inbox(c) == old(layer.Inbox(c)) + [frame])
                               && (forall c :: c !in old(layer.Members(roomGroupName.value)) ==> layer.Inbox(c) == old(layer.Inbox(c)))
      ensures stored.None? ==> && db.messages == old(db.messages)
                               && layer.inboxes == old(layer.inboxes) && layer.effects == old(layer.effects)
      ensures PersistedBeforeBroadcast(old(layer.effects)) ==> PersistedBeforeBroadcast(layer.effects)
    {
      stored := SaveMessageToDb(db, frame.message);
      if stored.None? {
        return;
      }
      ghost var before := layer.effects;
      layer.effects := layer.effects + [Persisted(stored.value)];
      EchoRoundTrip(frame);
      layer.GroupSend(roomGroupName.value, EventOf(frame));
      assert layer.effects == before + [Persisted(stored.value), Broadcast(roomGroupName.value, frame)];
      if PersistedBeforeBroadcast(before) {
        PersistThenBroadcast(before, stored.value, roomGroupName.value, frame);
      }
    }
  }
}
