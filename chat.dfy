/**
 * The chat state of server.js: the map of identified sockets and the chat
 * history, which keeps at most the last 100 messages. Each Socket.IO
 * handler runs to completion as one event callback, so each is one method
 * of ChatServer.
 */
module Chat {
  import opened Tables

  /** The largest number of messages the history keeps. */
  const HistoryLimit: nat := 100

  /** The part of the `user_identified` payload the server reads. */
  datatype UserData = UserData(id: Option<int>, nombre: Option<string>, email: Option<string>, role: Option<string>)

  /** An entry of `connectedUsers`: the payload plus the socket id and the admin flag. */
  datatype ConnectedUser = ConnectedUser(data: UserData, socketId: string, isAdmin: bool)

  /** An entry of `chatMessages`; `id` and `timestamp` both come from the clock. */
  datatype ChatMessage = ChatMessage(
    id: int,
    userId: Option<int>,
    userName: Option<string>,
    userEmail: Option<string>,
    isAdmin: bool,
    message: Option<string>,
    timestamp: int)

  /** The entry stored for a socket that identifies itself. */
  function Identified(socketId: string, data: UserData): ConnectedUser {
    ConnectedUser(data, socketId, data.role == Some("admin"))
  }

  /** The message a connected user's text becomes. */
  function MessageFrom(u: ConnectedUser, text: Option<string>, now: int): ChatMessage {
    ChatMessage(now, u.data.id, u.data.nombre, u.data.email, u.isAdmin, text, now)
  }

  /** Push `m`, then drop the oldest message once the history exceeds the limit. */
  function Push(h: seq<ChatMessage>, m: ChatMessage): (r: seq<ChatMessage>)
    ensures |h| <= HistoryLimit ==> |r| <= HistoryLimit
    ensures |r| > 0 && r[|r| - 1] == m
    ensures |h| < HistoryLimit ==> r == h + [m]
    ensures |h| >= HistoryLimit ==> r == h[1..] + [m]
  {
    var pushed := h + [m];
    if |pushed| > HistoryLimit then pushed[1..] else pushed
  }

  /** The history after a run of accepted messages. */
  function PushAll(h: seq<ChatMessage>, ms: seq<ChatMessage>): seq<ChatMessage>
    decreases |ms|
  {
    if ms == [] then h else PushAll(Push(h, ms[0]), ms[1..])
  }

  function Max(a: int, b: int): int {
    if a >= b then a else b
  }

  /** Starting from at most 100 messages, the history is always the last 100 messages ever pushed. */
  lemma {:induction false} PushAllKeepsLatest(h: seq<ChatMessage>, ms: seq<ChatMessage>)
    requires |h| <= HistoryLimit
    ensures PushAll(h, ms) == (h + ms)[Max(0, |h| + |ms| - HistoryLimit)..]
    decreases |ms|
  {
    if ms == [] {
      assert h + ms == h;
    } else {
      var h1 := Push(h, ms[0]);
      var rest := ms[1..];
      PushAllKeepsLatest(h1, rest);
      var d := if |h| < HistoryLimit then 0 else 1;
      assert h1 + rest == (h + ms)[d..];
    }
  }

  class ChatServer {
    /** `connectedUsers`, by socket id. */
    var connected: map<string, ConnectedUser>
    /** `chatMessages`, oldest first. */
    var history: seq<ChatMessage>

    predicate Valid()
      reads this
    {
      && |history| <= HistoryLimit
      && (forall s :: s in connected ==> connected[s].socketId == s)
    }

    constructor ()
      ensures Valid() && connected == map[] && history == []
    {
      connected := map[];
      history := [];
    }

    /**
     * `user_identified`: stores (or overwrites) the socket's entry and
     * returns the history sent back and the `userCount` broadcast.
     */
    method UserIdentified(socketId: string, data: UserData) returns (historial: seq<ChatMessage>, userCount: int)
      requires Valid()
      modifies this
      ensures Valid()
      ensures connected == old(connected)[socketId := Identified(socketId, data)]
      ensures connected[socketId].data == data && connected[socketId].socketId == socketId
      ensures connected[socketId].isAdmin <==> data.role == Some("admin")
      ensures history == old(history) && historial == history
      ensures userCount == |connected|
      ensures socketId in old(connected) ==> userCount == |old(connected)|
      ensures socketId !in old(connected) ==> userCount == |old(connected)| + 1
    {
      connected := connected[socketId := Identified(socketId, data)];
      historial := history;
      userCount := |connected|;
    }

    /**
     * `send_message`: ignored for a socket that has not identified itself;
     * otherwise the message is pushed and the oldest dropped past the limit.
     */
    method SendMessage(socketId: string, text: Option<string>, now: int) returns (sent: Option<ChatMessage>)
      requires Valid()
      modifies this
      ensures Valid()
      ensures connected == old(connected)
      ensures sent.None? <==> socketId !in old(connected)
      ensures sent.None? ==> history == old(history)
      ensures sent.Some? ==>
        && sent.value == MessageFrom(old(connected)[socketId], text, now)
        && history == Push(old(history), sent.value)
      ensures sent.Some? ==>
        var u := old(connected)[socketId];
        && sent.value.userId == u.data.id && sent.value.userName == u.data.nombre
        && sent.value.userEmail == u.data.email && sent.value.isAdmin == u.isAdmin
        && sent.value.message == text && history[|history| - 1] == sent.value
    {
      if socketId !in connected {
        return None;
      }
      var user := connected[socketId];
      var message := MessageFrom(user, text, now);
      history := history + [message];
      if |history| > HistoryLimit {
        history := history[1..];
      }
      sent := Some(message);
    }

    /** `disconnect`: removes the socket's entry, if any, and then reports the new `userCount`. */
    method Disconnect(socketId: string) returns (userCount: Option<int>)
      requires Valid()
      modifies this
      ensures Valid()
      ensures connected == old(connected) - {socketId} && history == old(history)
      ensures userCount.Some? <==> socketId in old(connected)
      ensures userCount.Some? ==> userCount.value == |connected| == |old(connected)| - 1
    {
      if socketId !in connected {
        return None;
      }
      connected := connected - {socketId};
      userCount := Some(|connected|);
    }
  }
}
