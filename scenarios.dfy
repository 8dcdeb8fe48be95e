/** Request sequences against a fresh store, with what the handlers' contracts
    promise about their outcome. */
module Scenarios {
  import opened Wrappers
  import opened Database
  import opened Models
  import opened Queries
  import opened Uploads
  import opened App

  /** The only sequence without duplicates whose elements are exactly `x`. */
  lemma SingletonRows<T>(r: seq<T>, x: T)
    requires Distinct(r)
    requires forall y :: y in r <==> y == x
    ensures r == [x]
  {
    assert x in r;
    var i :| 0 <= i < |r| && r[i] == x;
    assert r[0] in r && r[|r| - 1] in r;
    assert r[0] == r[i] == r[|r| - 1];
  }

  /** The upload fields the scenarios below send: "clip.wav" passes every check
      before the save, "clip.EXE" fails only the extension check, and the ids
      "1" and "2" are stored as the integers 1 and 2. */
  lemma ClipNames()
    ensures UploadAccepted(Some(FilePart("clip.wav")), Some("1"), Some("2"))
    ensures UploadFieldsPresent(Some(FilePart("clip.EXE")), Some("1"), Some("2"))
    ensures '.' in "clip.EXE" && !IsAllowedExtension(Extension("clip.EXE").value)
    ensures Affinity("1") == Int(1) && Affinity("2") == Int(2)
  {
    ExtensionOfJoin("clip", "wav");
    assert "clip" + "." + "wav" == "clip.wav";
    AllowedExtensionSpelledOut("wav");
    ExtensionOfJoin("clip", "EXE");
    assert "clip" + "." + "EXE" == "clip.EXE";
    AllowedExtensionSpelledOut("EXE");
    AffinityOfShowInt(1);
    AffinityOfShowInt(2);
    assert ShowInt(1) == "1" && ShowInt(2) == "2";
  }

  /** Registering the same username twice stores it once and answers the
      second request with a conflict. */
  method RegisterTwice() returns (first: Response, second: Response, listed: seq<User>)
    ensures first == Reply(201, UserBody(User(1, "alice")))
    ensures second == Reply(409, ErrorBody(UsernameTaken))
    ensures listed == [User(1, "alice")]
  {
    var store := new ChatStore({});
    first := store.CreateUser(Some("alice"));
    assert Usernames(store.users) == ["alice"];
    second := store.CreateUser(Some("alice"));
    listed := store.GetUsers().body.users;
  }

  /** A fresh store in which "alice" and then "bob" have registered. */
  method AliceAndBob() returns (store: ChatStore)
    ensures fresh(store) && store.Valid()
    ensures store.users == [User(1, "alice"), User(2, "bob")]
    ensures store.messages == [] && store.clock == 0
  {
    store := new ChatStore({});
    var alice := store.CreateUser(Some("alice"));
    assert Usernames(store.users) == ["alice"] && UserIds(store.users) == [1];
    var bob := store.CreateUser(Some("bob"));
  }

  /** A message sent from one user to another comes back, field for field and
      exactly once, from the conversation query for the pair, whichever way
      round the two ids are given; the ids travel as decimal text in the query
      string. */
  method SendThenFetch() returns (sent: Response, forward: Response, backward: Response)
    ensures sent == Reply(201, MessageBody(Message(1, "hello", 5, 1, 2)))
    ensures forward == Reply(200, MessageListBody([sent.body.message]))
    ensures backward == forward
  {
    var store := AliceAndBob();
    assert UserIds(store.users) == [1, 2];
    sent := store.SendMessage(Some(1), Some(2), Some("hello"), 5);
    var m := Message(1, "hello", 5, 1, 2);
    assert store.messages == [m];
    AffinityOfShowInt(1);
    AffinityOfShowInt(2);
    forward := store.GetMessages(Some(ShowInt(1)), Some(ShowInt(2)));
    SingletonRows(forward.body.messages, m);
    backward := store.GetMessages(Some(ShowInt(2)), Some(ShowInt(1)));
    SingletonRows(backward.body.messages, m);
  }

  /** A message from an id no user carries is refused with 404 and stores
      nothing. */
  method SendFromStranger() returns (r: Response, stored: seq<Message>)
    ensures r == Reply(404, ErrorBody(PartyNotFound))
    ensures stored == []
  {
    var store := new ChatStore({});
    var alice := store.CreateUser(Some("alice"));
    assert UserIds(store.users) == [1];
    r := store.SendMessage(Some(7), Some(1), Some("hi"), 1);
    stored := store.messages;
  }

  /** An upload whose extension is not on the allow-list is refused before
      anything is written to the folder or the table. */
  method UploadExecutable(sanitize: string -> string, transcription: Transcription)
    returns (r: Response, folder: set<string>, stored: seq<VoiceMessage>)
    ensures r == Reply(400, ErrorBody(FileTypeNotAllowed))
    ensures folder == {} && stored == []
  {
    var store := new ChatStore({});
    ClipNames();
    r := store.UploadVoiceMessage(Some(FilePart("clip.EXE")), Some("1"), Some("2"),
                                  sanitize, transcription, true, 1);
    folder, stored := store.uploads, store.voiceMessages;
  }

  /** A failed transcription does not stop the upload: the row is stored with
      the failure sentinel, and the saved audio file is gone afterwards. The
      store holds no users at all, and the row is stored anyway. */
  method UploadWithFailedTranscription(reason: string)
    returns (r: Response, folder: set<string>, stored: seq<VoiceMessage>)
    ensures r.Reply? && r.status == 201 && r.body.VoiceBody?
    ensures r.body.voice.transcription == Some(FailurePrefix + reason)
    ensures r.body.voice.senderId == Int(1) && r.body.voice.recipientId == Int(2)
    ensures stored == [r.body.voice]
    ensures folder == {}
  {
    var store := new ChatStore({});
    ClipNames();
    r := store.UploadVoiceMessage(Some(FilePart("clip.wav")), Some("1"), Some("2"),
                                  (s: string) => s, TranscriptionFailed(reason), true, 1);
    folder, stored := store.uploads, store.voiceMessages;
  }

  /** When the commit fails the saved audio file stays in the folder: nothing
      removes it on that path. */
  method UploadWithFailedCommit(transcription: Transcription)
    returns (r: Response, folder: set<string>, stored: seq<VoiceMessage>)
    ensures r == Unhandled(CommitError)
    ensures folder == {"clip.wav"} && stored == []
  {
    var store := new ChatStore({});
    ClipNames();
    r := store.UploadVoiceMessage(Some(FilePart("clip.wav")), Some("1"), Some("2"),
                                  (s: string) => s, transcription, false, 1);
    folder, stored := store.uploads, store.voiceMessages;
  }
}
