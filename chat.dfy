/**
 * The chat screen: the room two users share, the live list of its messages,
 * and sending a message into it.
 */
module Chat {
  import opened Options
  import opened Text
  import opened Profiles

  /** The fields of a `chats/{room}/messages/{id}` document (its timestamp is not modelled). */
  datatype MessageData = MessageData(text: string, sender: string)

  /** A message document as a snapshot delivers it. */
  datatype MessageDoc = MessageDoc(id: string, data: MessageData)

  /** `{ id: doc.id, ...doc.data() }`: what the screen keeps in `messages`. */
  datatype Message = Message(id: string, text: string, sender: string)

  /** The document `sendMessage` asks the store to add, and the room it goes to. */
  datatype Outgoing = Outgoing(room: string, text: string, sender: string)

  /** What the awaited `addDoc` call did. */
  datatype WriteOutcome = Added | AddFailed

  /**
   * `[a, b].sort().join('_')`: the two uids, the one that sorts first in front,
   * joined by an underscore.
   */
  function RoomId(a: string, b: string): (id: string)
    ensures id == a + "_" + b || id == b + "_" + a
    ensures Less(a, b) ==> id == a + "_" + b
    ensures Less(b, a) ==> id == b + "_" + a
  {
    var sorted := if Less(b, a) then [b, a] else [a, b];
    assert Less(a, b) ==> sorted == [a, b] by {
      if Less(a, b) { LessAsymmetric(a, b); }
    }
    sorted[0] + "_" + sorted[1]
  }

  /**
   * `[currentUser.uid, user.uid].sort().join('_')` when the partner's record may
   * lack a uid: `sort` moves `undefined` to the end and `join` writes it as "".
   */
  function ChatId(current: string, partner: Option<string>): (id: string)
    ensures partner.Some? ==> id == RoomId(current, partner.value)
    ensures partner.None? ==> id == current + "_"
  {
    if partner.Some? then RoomId(current, partner.value) else current + "_"
  }

  /** The room id does not depend on which of the two participants computes it. */
  lemma RoomIdSymmetric(a: string, b: string)
    ensures RoomId(a, b) == RoomId(b, a)
  {
    LessTotal(a, b);
    if Less(a, b) {
      LessAsymmetric(a, b);
    } else if Less(b, a) {
      LessAsymmetric(b, a);
    }
  }

  /** Alice (uid1) and Bob (uid2) both land in `uid1_uid2`. */
  lemma RoomIdExample()
    ensures RoomId("uid1", "uid2") == "uid1_uid2"
    ensures RoomId("uid2", "uid1") == "uid1_uid2"
  {
  }

  /** In `x + "_" + y` with no underscore in `x`, the first underscore is at `|x|`. */
  lemma FirstSeparator(x: string, y: string)
    requires '_' !in x
    ensures (x + "_" + y)[|x|] == '_'
    ensures forall i :: 0 <= i < |x| ==> (x + "_" + y)[i] != '_'
  {
  }

  /** Splitting at the only underscore recovers both halves. */
  lemma SplitAtSeparator(x: string, y: string, x': string, y': string)
    requires '_' !in x && '_' !in x'
    requires x + "_" + y == x' + "_" + y'
    ensures x == x' && y == y'
  {
    var s := x + "_" + y;
    FirstSeparator(x, y);
    FirstSeparator(x', y');
    if |x| < |x'| {
      assert false;
    } else if |x'| < |x| {
      assert false;
    }
    assert x == s[..|x|] && x' == s[..|x'|];
    assert y == s[|x| + 1..] && y' == s[|x'| + 1..];
  }

  /**
   * Uids without an underscore (the auth service issues alphanumeric ones)
   * give different pairs different rooms.
   */
  lemma RoomIdDeterminesPair(a: string, b: string, c: string, d: string)
    requires '_' !in a && '_' !in b && '_' !in c && '_' !in d
    requires RoomId(a, b) == RoomId(c, d)
    ensures {a, b} == {c, d}
  {
    var id := RoomId(a, b);
    if id == a + "_" + b {
      if id == c + "_" + d { SplitAtSeparator(a, b, c, d); } else { SplitAtSeparator(a, b, d, c); }
    } else {
      if id == c + "_" + d { SplitAtSeparator(b, a, c, d); } else { SplitAtSeparator(b, a, d, c); }
    }
  }

  /** With an underscore inside a uid, two different pairs can share a room. */
  lemma RoomIdCollision()
    ensures RoomId("a_b", "c") == RoomId("a", "b_c") == "a_b_c"
  {
  }

  /**
   * The room the live subscription watches, or None when the effect returns
   * early because nobody is signed in. The partner's record is always there:
   * without it the screen fails on `user.uid` before the effect runs, so the
   * `!user` test never fires.
   */
  function SubscriptionRoom(currentUser: Option<AuthUser>, user: UserRecord): (room: Option<string>)
    ensures room.Some? <==> currentUser.Some?
    ensures room.Some? && user.uid.Some? ==> room.value == RoomId(currentUser.value.uid, user.uid.value)
    ensures room.Some? && user.uid.None? ==> room.value == currentUser.value.uid + "_"
  {
    if currentUser.None? then None
    else Some(ChatId(currentUser.value.uid, user.uid))
  }

  /**
   * The document `sendMessage` writes, or None when it writes nothing: the input
   * is blank after trimming, or nobody is signed in. The text is the input
   * as typed, not trimmed.
   */
  function PlanSend(input: string, currentUser: Option<AuthUser>, user: UserRecord): (out: Option<Outgoing>)
    ensures out.Some? <==> !AllWhitespace(input) && currentUser.Some?
    ensures out.Some? ==> out.value.text == input && out.value.sender == currentUser.value.uid
    ensures out.Some? ==> SubscriptionRoom(currentUser, user) == Some(out.value.room)
  {
    if Trim(input) != "" && currentUser.Some? then
      Some(Outgoing(ChatId(currentUser.value.uid, user.uid), input, currentUser.value.uid))
    else None
  }

  /**
   * When a signed-in user and the partner each open the chat with the other,
   * both subscribe to the same room and both send into it.
   */
  lemma PartnersShareRoom(a: string, b: string, recordOfA: UserRecord, recordOfB: UserRecord,
                          inputOfA: string, inputOfB: string)
    requires recordOfA.uid == Some(a) && recordOfB.uid == Some(b)
    ensures SubscriptionRoom(Some(AuthUser(a)), recordOfB) == SubscriptionRoom(Some(AuthUser(b)), recordOfA)
    ensures var fromA := PlanSend(inputOfA, Some(AuthUser(a)), recordOfB);
            var fromB := PlanSend(inputOfB, Some(AuthUser(b)), recordOfA);
            fromA.Some? && fromB.Some? ==> fromA.value.room == fromB.value.room
  {
    RoomIdSymmetric(a, b);
  }

  /** `querySnapshot.docs.map(...)`: every delivered document, in delivered order. */
  function SnapshotMessages(docs: seq<MessageDoc>): (messages: seq<Message>)
    ensures |messages| == |docs|
    ensures forall i :: 0 <= i < |docs| ==>
              messages[i].id == docs[i].id && MessageData(messages[i].text, messages[i].sender) == docs[i].data
  {
    seq(|docs|, i requires 0 <= i < |docs| => Message(docs[i].id, docs[i].data.text, docs[i].data.sender))
  }

  /** The state of one chat screen. */
  class ChatScreen {
    /** `auth.currentUser` when the screen renders. */
    const currentUser: Option<AuthUser>
    /** `route.params.user`: the partner's directory record. */
    const user: UserRecord
    var messages: seq<Message>
    var input: string
    /** The room whose `messages` collection the live query watches, if any. */
    var subscription: Option<string>

    constructor (currentUser: Option<AuthUser>, user: UserRecord)
      ensures this.currentUser == currentUser && this.user == user
      ensures messages == [] && input == "" && subscription == None
    {
      this.currentUser := currentUser;
      this.user := user;
      messages := [];
      input := "";
      subscription := None;
    }

    /** The effect run on mount: subscribe to the pair's room when someone is signed in. */
    method Subscribe()
      requires subscription == None
      modifies this`subscription
      ensures subscription == SubscriptionRoom(currentUser, user)
    {
      if currentUser.None? {
        return;
      }
      var chatId := ChatId(currentUser.value.uid, user.uid);
      subscription := Some(chatId);
    }

    /** A snapshot arrives: `messages` becomes exactly its documents; nothing earlier is kept. */
    method OnSnapshot(docs: seq<MessageDoc>)
      requires subscription.Some?
      modifies this`messages
      ensures messages == SnapshotMessages(docs)
    {
      messages := SnapshotMessages(docs);
    }

    /** `onChangeText={setInput}`. */
    method SetInput(text: string)
      modifies this`input
      ensures input == text
    {
      input := text;
    }

    /**
     * `sendMessage`: writes `PlanSend` of the current input (if any) and clears
     * the input only when that write succeeded. `messages` is left to the
     * subscription: there is no local insert.
     */
    method SendMessage(outcome: WriteOutcome) returns (written: Option<Outgoing>)
      modifies this`input
      ensures written == PlanSend(old(input), currentUser, user)
      ensures input == if written.Some? && outcome == Added then "" else old(input)
    {
      written := None;
      if Trim(input) != "" && currentUser.Some? {
        var chatId := ChatId(currentUser.value.uid, user.uid);
        written := Some(Outgoing(chatId, input, currentUser.value.uid));
        if outcome == Added {
          input := "";
        }
      }
    }
  }
}
