/** The three tables of the chat database: one datatype per row type, the
    column projections, and the invariants the column declarations impose
    (primary keys, the UNIQUE username, non-null columns as non-optional
    fields, a nullable transcription as an Option). */
module Models {
  import opened Wrappers
  import opened Database

  /** A row of the user table: an integer primary key and a username that is
      non-null and unique. */
  datatype User = User(id: int, username: string)

  /** A row of the text-message table. The timestamp is a reading of the
      server clock taken when the row is inserted. Sender and recipient are
      the integer ids the handler looked up in the user table. */
  datatype Message = Message(id: int, content: string, timestamp: nat, senderId: int, recipientId: int)

  /** A row of the voice-message table. Sender and recipient are the form
      fields as the INTEGER column stores them, which need not name a user;
      the transcription column is nullable. */
  datatype VoiceMessage = VoiceMessage(
    id: int,
    filename: string,
    timestamp: nat,
    senderId: Key,
    recipientId: Key,
    transcription: Option<string>)

  function UserIds(t: seq<User>): seq<int> {
    seq(|t|, i requires 0 <= i < |t| => t[i].id)
  }

  function Usernames(t: seq<User>): seq<string> {
    seq(|t|, i requires 0 <= i < |t| => t[i].username)
  }

  function MessageIds(t: seq<Message>): seq<int> {
    seq(|t|, i requires 0 <= i < |t| => t[i].id)
  }

  function VoiceIds(t: seq<VoiceMessage>): seq<int> {
    seq(|t|, i requires 0 <= i < |t| => t[i].id)
  }

  function MessageSender(m: Message): Key { Int(m.senderId) }
  function MessageRecipient(m: Message): Key { Int(m.recipientId) }
  function MessageTime(m: Message): nat { m.timestamp }

  function VoiceSender(v: VoiceMessage): Key { v.senderId }
  function VoiceRecipient(v: VoiceMessage): Key { v.recipientId }
  function VoiceTime(v: VoiceMessage): nat { v.timestamp }

  /** `id` is the primary key of the user table and `username` is UNIQUE. */
  predicate UserTableValid(t: seq<User>) {
    Distinct(UserIds(t)) && Distinct(Usernames(t))
  }

  /** `id` is the primary key of the text-message table. */
  predicate MessageTableValid(t: seq<Message>) {
    Distinct(MessageIds(t))
  }

  /** `id` is the primary key of the voice-message table. */
  predicate VoiceTableValid(t: seq<VoiceMessage>) {
    Distinct(VoiceIds(t))
  }

  /** A new user row whose id and username are both unused keeps both keys
      unique; nothing else is needed of it. */
  lemma AddUserKeepsKeys(t: seq<User>, u: User)
    requires UserTableValid(t)
    requires u.id !in UserIds(t) && u.username !in Usernames(t)
    ensures UserTableValid(t + [u])
    ensures UserIds(t + [u]) == UserIds(t) + [u.id]
    ensures Usernames(t + [u]) == Usernames(t) + [u.username]
  {
    assert UserIds(t + [u]) == UserIds(t) + [u.id];
    assert Usernames(t + [u]) == Usernames(t) + [u.username];
  }

  lemma AddMessageKeepsKey(t: seq<Message>, m: Message)
    requires MessageTableValid(t) && m.id !in MessageIds(t)
    ensures MessageTableValid(t + [m])
    ensures MessageIds(t + [m]) == MessageIds(t) + [m.id]
  {
    assert MessageIds(t + [m]) == MessageIds(t) + [m.id];
  }

  lemma AddVoiceKeepsKey(t: seq<VoiceMessage>, v: VoiceMessage)
    requires VoiceTableValid(t) && v.id !in VoiceIds(t)
    ensures VoiceTableValid(t + [v])
    ensures VoiceIds(t + [v]) == VoiceIds(t) + [v.id]
  {
    assert VoiceIds(t + [v]) == VoiceIds(t) + [v.id];
  }

  /** Rows with distinct primary keys are distinct rows: a table with a valid
      key holds no duplicate row. */
  lemma KeyedRowsDistinct(t: seq<Message>)
    requires MessageTableValid(t)
    ensures Distinct(t)
  {
    forall i, j | 0 <= i < j < |t| ensures t[i] != t[j] {
      assert MessageIds(t)[i] == t[i].id && MessageIds(t)[j] == t[j].id;
    }
  }

  lemma KeyedVoiceRowsDistinct(t: seq<VoiceMessage>)
    requires VoiceTableValid(t)
    ensures Distinct(t)
  {
    forall i, j | 0 <= i < j < |t| ensures t[i] != t[j] {
      assert VoiceIds(t)[i] == t[i].id && VoiceIds(t)[j] == t[j].id;
    }
  }

  /** A row whose id is not yet in use is not yet in the table. */
  lemma UnusedIdIsNewMessage(t: seq<Message>, m: Message)
    requires m.id !in MessageIds(t)
    ensures m !in t
  {
    forall i | 0 <= i < |t| ensures t[i] != m {
      assert MessageIds(t)[i] == t[i].id;
    }
  }

  lemma UnusedIdIsNewVoice(t: seq<VoiceMessage>, v: VoiceMessage)
    requires v.id !in VoiceIds(t)
    ensures v !in t
  {
    forall i | 0 <= i < |t| ensures t[i] != v {
      assert VoiceIds(t)[i] == t[i].id;
    }
  }
}
