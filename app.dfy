/** The request handlers of the chat server, as methods and functions of one
    in-memory store that holds the three tables, the server clock and the
    files present in the upload folder. */
module App {
  import opened Wrappers
  import opened Database
  import opened Models
  import opened Queries
  import opened Uploads

  /** The content-length bound the send handler enforces (its error text
      speaks of 500 characters, but the comparison is against 10). */
  const MaxContentLength: nat := 10

  const UsernameRequired: string := "Username is required"
  const UsernameTaken: string := "Username already exists"
  const MessageFieldsRequired: string := "sender_id, recipient_id, and content are required"
  const MessageTooLong: string := "message is longer than 500 characters"
  const PartyNotFound: string := "Sender or recipient not found"
  const BothUsersRequired: string := "Both user1_id and user2_id are required"
  const NoFilePart: string := "No file part"
  const NoSelectedFile: string := "No selected file"
  const VoicePartiesRequired: string := "sender_id and recipient_id are required"
  const FileTypeNotAllowed: string := "File type not allowed. Only WAV, MP3, and OGG files are accepted."

  /** The JSON payload of a response. */
  datatype Body =
    | ErrorBody(error: string)
    | UserBody(user: User)
    | UserListBody(users: seq<User>)
    | MessageBody(message: Message)
    | MessageListBody(messages: seq<Message>)
    | VoiceBody(voice: VoiceMessage)
    | VoiceListBody(voices: seq<VoiceMessage>)

  /** An exception a handler does not catch (the framework answers it with an
      internal server error). */
  datatype Exception =
    | IndexError   // `rsplit('.', 1)[1]` on a filename without '.'
    | SaveError    // the sanitized filename is empty, so the save targets the folder itself
    | CommitError  // the database refused the commit

  datatype Response = Reply(status: int, body: Body) | Unhandled(exception: Exception)

  /** The `file` part of a multipart upload. */
  datatype FilePart = FilePart(filename: string)

  /** A text field (JSON string, query or form value) that Python treats as
      false: absent or empty. */
  predicate MissingText(v: Option<string>) {
    v.None? || v.value == ""
  }

  /** A JSON integer field that Python treats as false: absent or zero. */
  predicate MissingId(v: Option<int>) {
    v.None? || v.value == 0
  }

  /** The table invariants the column declarations impose, what the handlers
      keep besides (non-empty usernames, text messages whose sender and
      recipient are users), and timestamps handed out in clock order, none
      later than the last clock reading. */
  ghost predicate StoreValid(users: seq<User>, messages: seq<Message>, voices: seq<VoiceMessage>, clock: nat) {
    && UserTableValid(users)
    && MessageTableValid(messages)
    && VoiceTableValid(voices)
    && (forall u :: u in users ==> u.username != "")
    && (forall m :: m in messages ==> m.senderId in UserIds(users) && m.recipientId in UserIds(users))
    && SortedBy(messages, MessageTime)
    && SortedBy(voices, VoiceTime)
    && (forall m :: m in messages ==> m.timestamp <= clock)
    && (forall v :: v in voices ==> v.timestamp <= clock)
  }

  /** A user with an unused id and an unused, non-empty username keeps the store
      consistent. */
  lemma AddUserKeepsStoreValid(users: seq<User>, messages: seq<Message>, voices: seq<VoiceMessage>, clock: nat, u: User)
    requires StoreValid(users, messages, voices, clock)
    requires u.id !in UserIds(users) && u.username !in Usernames(users) && u.username != ""
    ensures StoreValid(users + [u], messages, voices, clock)
  {
    AddUserKeepsKeys(users, u);
  }

  /** A text message with an unused id, between existing users, stamped no
      earlier than the clock, keeps the store consistent once the clock has
      moved to its timestamp. */
  lemma AddMessageKeepsStoreValid(users: seq<User>, messages: seq<Message>, voices: seq<VoiceMessage>, clock: nat, m: Message)
    requires StoreValid(users, messages, voices, clock)
    requires m.id !in MessageIds(messages)
    requires m.senderId in UserIds(users) && m.recipientId in UserIds(users)
    requires clock <= m.timestamp
    ensures StoreValid(users, messages + [m], voices, m.timestamp)
  {
    AddMessageKeepsKey(messages, m);
    AppendLatestKeepsSorted(messages, MessageTime, m);
  }

  /** A voice message with an unused id, stamped no earlier than the clock,
      keeps the store consistent once the clock has moved to its timestamp;
      its sender and recipient need not be users. */
  lemma AddVoiceKeepsStoreValid(users: seq<User>, messages: seq<Message>, voices: seq<VoiceMessage>, clock: nat, v: VoiceMessage)
    requires StoreValid(users, messages, voices, clock)
    requires v.id !in VoiceIds(voices)
    requires clock <= v.timestamp
    ensures StoreValid(users, messages, voices + [v], v.timestamp)
  {
    AddVoiceKeepsKey(voices, v);
    AppendLatestKeepsSorted(voices, VoiceTime, v);
  }

  /** Whatever the table held before, a text message stored with an unused id
      is returned exactly once by the conversation query for its sender and
      recipient, asked either way round, with every field as stored. */
  lemma SentMessageFetchedOnce(t: seq<Message>, m: Message)
    requires m.id !in MessageIds(t)
    ensures multiset(Conversation(t + [m], TextColumns, Int(m.senderId), Int(m.recipientId)))[m] == 1
    ensures multiset(Conversation(t + [m], TextColumns, Int(m.recipientId), Int(m.senderId)))[m] == 1
  {
    UnusedIdIsNewMessage(t, m);
    AppendedRowInConversation(t, TextColumns, m, Int(m.senderId), Int(m.recipientId));
  }

  /** The same for a voice message, asked for with the keys its sender and
      recipient fields were stored as. */
  lemma UploadedVoiceFetchedOnce(t: seq<VoiceMessage>, v: VoiceMessage)
    requires v.id !in VoiceIds(t)
    ensures multiset(Conversation(t + [v], VoiceColumns, v.senderId, v.recipientId))[v] == 1
    ensures multiset(Conversation(t + [v], VoiceColumns, v.recipientId, v.senderId))[v] == 1
  {
    UnusedIdIsNewVoice(t, v);
    AppendedRowInConversation(t, VoiceColumns, v, v.senderId, v.recipientId);
  }

  /** The upload carries a file with a name, a sender and a recipient. */
  predicate UploadFieldsPresent(file: Option<FilePart>, senderId: Option<string>, recipientId: Option<string>) {
    file.Some? && file.value.filename != "" && !MissingText(senderId) && !MissingText(recipientId)
  }

  /** The upload passes every check the handler makes before saving the file. */
  predicate UploadAccepted(file: Option<FilePart>, senderId: Option<string>, recipientId: Option<string>) {
    && UploadFieldsPresent(file, senderId, recipientId)
    && '.' in file.value.filename
    && IsAllowedExtension(Extension(file.value.filename).value)
  }

  class ChatStore {
    var users: seq<User>
    var messages: seq<Message>
    var voiceMessages: seq<VoiceMessage>
    /** The timestamp handed to the most recent row (every later reading of
        the clock is at least this). */
    var clock: nat
    /** Names of the files present in the upload folder. */
    var uploads: set<string>

    ghost predicate Valid()
      reads this
    {
      StoreValid(users, messages, voiceMessages, clock)
    }

    /** A fresh database; the upload folder may already hold files. */
    constructor (existingUploads: set<string>)
      ensures Valid()
      ensures users == [] && messages == [] && voiceMessages == []
      ensures clock == 0 && uploads == existingUploads
    {
      users, messages, voiceMessages := [], [], [];
      clock := 0;
      uploads := existingUploads;
    }

    /** POST /users */
    method CreateUser(username: Option<string>) returns (r: Response)
      requires Valid()
      modifies this`users
      ensures Valid()
      ensures MissingText(username) ==>
        r == Reply(400, ErrorBody(UsernameRequired)) && users == old(users)
      ensures !MissingText(username) && username.value in Usernames(old(users)) ==>
        r == Reply(409, ErrorBody(UsernameTaken)) && users == old(users)
      ensures !MissingText(username) && username.value !in Usernames(old(users)) ==>
        var u := User(NextRowId(UserIds(old(users))), username.value);
        && u.id !in UserIds(old(users))
        && users == old(users) + [u]
        && r == Reply(201, UserBody(u))
    {
      if MissingText(username) {
        return Reply(400, ErrorBody(UsernameRequired));
      }
      var name := username.value;
      if name in Usernames(users) {
        return Reply(409, ErrorBody(UsernameTaken));
      }
      var u := User(NextRowId(UserIds(users)), name);
      AddUserKeepsStoreValid(users, messages, voiceMessages, clock, u);
      users := users + [u];
      r := Reply(201, UserBody(u));
    }

    /** GET /users */
    function GetUsers(): (r: Response)
      reads this
      requires Valid()
      ensures r.Reply? && r.status == 200 && r.body.UserListBody?
      ensures forall u :: u in r.body.users <==> u in users
      ensures Distinct(Usernames(r.body.users)) && Distinct(UserIds(r.body.users))
    {
      Reply(200, UserListBody(users))
    }

    /** POST /messages */
    method SendMessage(senderId: Option<int>, recipientId: Option<int>, content: Option<string>, elapsed: nat)
      returns (r: Response)
      requires Valid()
      modifies this`messages, this`clock
      ensures Valid()
      ensures MissingId(senderId) || MissingId(recipientId) || MissingText(content) ==>
        r == Reply(400, ErrorBody(MessageFieldsRequired)) && messages == old(messages) && clock == old(clock)
      ensures !(MissingId(senderId) || MissingId(recipientId) || MissingText(content)) &&
              |content.value| > MaxContentLength ==>
        r == Reply(401, ErrorBody(MessageTooLong)) && messages == old(messages) && clock == old(clock)
      ensures !(MissingId(senderId) || MissingId(recipientId) || MissingText(content)) &&
              |content.value| <= MaxContentLength &&
              (senderId.value !in UserIds(users) || recipientId.value !in UserIds(users)) ==>
        r == Reply(404, ErrorBody(PartyNotFound)) && messages == old(messages) && clock == old(clock)
      ensures !(MissingId(senderId) || MissingId(recipientId) || MissingText(content)) &&
              |content.value| <= MaxContentLength &&
              senderId.value in UserIds(users) && recipientId.value in UserIds(users) ==>
        var m := Message(NextRowId(MessageIds(old(messages))), content.value, old(clock) + elapsed,
                         senderId.value, recipientId.value);
        && m.id !in MessageIds(old(messages))
        && messages == old(messages) + [m]
        && clock == m.timestamp
        && r == Reply(201, MessageBody(m))
    {
      if MissingId(senderId) || MissingId(recipientId) || MissingText(content) {
        return Reply(400, ErrorBody(MessageFieldsRequired));
      } else if |content.value| > MaxContentLength {
        return Reply(401, ErrorBody(MessageTooLong));
      }
      if senderId.value !in UserIds(users) || recipientId.value !in UserIds(users) {
        return Reply(404, ErrorBody(PartyNotFound));
      }
      var m := Message(NextRowId(MessageIds(messages)), content.value, clock + elapsed,
                       senderId.value, recipientId.value);
      AddMessageKeepsStoreValid(users, messages, voiceMessages, clock, m);
      messages := messages + [m];
      clock := m.timestamp;
      r := Reply(201, MessageBody(m));
    }

    /** GET /messages?user1_id=&user2_id= */
    function GetMessages(user1: Option<string>, user2: Option<string>): (r: Response)
      reads this
      requires Valid()
      ensures MissingText(user1) || MissingText(user2) ==> r == Reply(400, ErrorBody(BothUsersRequired))
      ensures !(MissingText(user1) || MissingText(user2)) ==>
        && r.Reply? && r.status == 200 && r.body.MessageListBody?
        && SortedBy(r.body.messages, MessageTime)
        && Distinct(r.body.messages)
        && (forall m :: m in r.body.messages <==>
              m in messages && Between(m, TextColumns, Affinity(user1.value), Affinity(user2.value)))
    {
      if MissingText(user1) || MissingText(user2) then
        Reply(400, ErrorBody(BothUsersRequired))
      else
        var rows := Conversation(messages, TextColumns, Affinity(user1.value), Affinity(user2.value));
        KeyedRowsDistinct(messages);
        ConversationDistinct(messages, TextColumns, Affinity(user1.value), Affinity(user2.value));
        Reply(200, MessageListBody(rows))
    }

    /** POST /voice_messages. `sanitize` stands for the library's filename
        sanitizer, `transcription` for what the speech-to-text call returned,
        `commitSucceeds` for whether the database accepted the new row, and
        `elapsed` for the time since the previous row was stamped. */
    method UploadVoiceMessage(
      file: Option<FilePart>, senderId: Option<string>, recipientId: Option<string>,
      sanitize: string -> string, transcription: Transcription, commitSucceeds: bool, elapsed: nat)
      returns (r: Response)
      requires Valid()
      modifies this`voiceMessages, this`clock, this`uploads
      ensures Valid()
      ensures file.None? ==>
        r == Reply(400, ErrorBody(NoFilePart)) && unchanged(this)
      ensures file.Some? && file.value.filename == "" ==>
        r == Reply(400, ErrorBody(NoSelectedFile)) && unchanged(this)
      ensures file.Some? && file.value.filename != "" && (MissingText(senderId) || MissingText(recipientId)) ==>
        r == Reply(400, ErrorBody(VoicePartiesRequired)) && unchanged(this)
      ensures UploadFieldsPresent(file, senderId, recipientId) && '.' !in file.value.filename ==>
        r == Unhandled(IndexError) && unchanged(this)
      ensures UploadFieldsPresent(file, senderId, recipientId) && '.' in file.value.filename &&
              !IsAllowedExtension(Extension(file.value.filename).value) ==>
        r == Reply(400, ErrorBody(FileTypeNotAllowed)) && unchanged(this)
      ensures UploadAccepted(file, senderId, recipientId) && sanitize(file.value.filename) == "" ==>
        r == Unhandled(SaveError) && unchanged(this)
      ensures UploadAccepted(file, senderId, recipientId) && sanitize(file.value.filename) != "" && !commitSucceeds ==>
        && r == Unhandled(CommitError)
        && voiceMessages == old(voiceMessages) && clock == old(clock)
        && uploads == old(uploads) + {sanitize(file.value.filename)}
      ensures UploadAccepted(file, senderId, recipientId) && sanitize(file.value.filename) != "" && commitSucceeds ==>
        var v := VoiceMessage(NextRowId(VoiceIds(old(voiceMessages))), sanitize(file.value.filename),
                              old(clock) + elapsed, Affinity(senderId.value), Affinity(recipientId.value),
                              Some(TranscriptionText(transcription)));
        && v.id !in VoiceIds(old(voiceMessages))
        && voiceMessages == old(voiceMessages) + [v]
        && clock == v.timestamp
        && uploads == old(uploads) - {sanitize(file.value.filename)}
        && r == Reply(201, VoiceBody(v))
    {
      if file.None? {
        return Reply(400, ErrorBody(NoFilePart));
      }
      var name := file.value.filename;
      if name == "" {
        return Reply(400, ErrorBody(NoSelectedFile));
      }
      if MissingText(senderId) || MissingText(recipientId) {
        return Reply(400, ErrorBody(VoicePartiesRequired));
      }
      var ext := Extension(name);
      if ext.None? {
        return Unhandled(IndexError);
      }
      if !IsAllowedExtension(ext.value) {
        return Reply(400, ErrorBody(FileTypeNotAllowed));
      }
      var stored := sanitize(name);
      if stored == "" {
        return Unhandled(SaveError);
      }
      r := IngestVoice(stored, Affinity(senderId.value), Affinity(recipientId.value),
                       transcription, commitSucceeds, elapsed);
    }

    /** The upload handler once the upload has passed its checks: save the file
        under its sanitized name, transcribe it (a failure becomes the
        sentinel text), add the row and commit, then remove the file. */
    method IngestVoice(
      stored: string, sender: Key, recipient: Key,
      transcription: Transcription, commitSucceeds: bool, elapsed: nat)
      returns (r: Response)
      requires Valid() && stored != ""
      modifies this`voiceMessages, this`clock, this`uploads
      ensures Valid()
      ensures !commitSucceeds ==>
        && r == Unhandled(CommitError)
        && voiceMessages == old(voiceMessages) && clock == old(clock)
        && uploads == old(uploads) + {stored}
      ensures commitSucceeds ==>
        var v := VoiceMessage(NextRowId(VoiceIds(old(voiceMessages))), stored, old(clock) + elapsed,
                              sender, recipient, Some(TranscriptionText(transcription)));
        && v.id !in VoiceIds(old(voiceMessages))
        && voiceMessages == old(voiceMessages) + [v]
        && clock == v.timestamp
        && uploads == old(uploads) - {stored}
        && r == Reply(201, VoiceBody(v))
    {
      uploads := uploads + {stored};
      var text := TranscriptionText(transcription);
      if !commitSucceeds {
        return Unhandled(CommitError);
      }
      var v := VoiceMessage(NextRowId(VoiceIds(voiceMessages)), stored, clock + elapsed,
                            sender, recipient, Some(text));
      AddVoiceKeepsStoreValid(users, messages, voiceMessages, clock, v);
      voiceMessages := voiceMessages + [v];
      clock := v.timestamp;
      uploads := uploads - {stored};
      r := Reply(201, VoiceBody(v));
    }

    /** GET /voice_messages?user1_id=&user2_id= */
    function GetVoiceMessages(user1: Option<string>, user2: Option<string>): (r: Response)
      reads this
      requires Valid()
      ensures MissingText(user1) || MissingText(user2) ==> r == Reply(400, ErrorBody(BothUsersRequired))
      ensures !(MissingText(user1) || MissingText(user2)) ==>
        && r.Reply? && r.status == 200 && r.body.VoiceListBody?
        && SortedBy(r.body.voices, VoiceTime)
        && Distinct(r.body.voices)
        && (forall v :: v in r.body.voices <==>
              v in voiceMessages && Between(v, VoiceColumns, Affinity(user1.value), Affinity(user2.value)))
    {
      if MissingText(user1) || MissingText(user2) then
        Reply(400, ErrorBody(BothUsersRequired))
      else
        var rows := Conversation(voiceMessages, VoiceColumns, Affinity(user1.value), Affinity(user2.value));
        KeyedVoiceRowsDistinct(voiceMessages);
        ConversationDistinct(voiceMessages, VoiceColumns, Affinity(user1.value), Affinity(user2.value));
        Reply(200, VoiceListBody(rows))
    }
  }
}
