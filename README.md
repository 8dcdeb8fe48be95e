# Chat server with voice messages: a Dafny model of the request handlers

The server keeps three tables: users, text messages and voice messages.
It exposes six routes over them:

- `POST /users` registers a username.
- `GET /users` lists the users.
- `POST /messages` stores a text message between two registered users.
- `GET /messages` returns the conversation of two users, ordered by timestamp.
- `POST /voice_messages` accepts an audio upload. The handler saves the file
  in the upload folder and has it transcribed by a speech-to-text service. It
  then stores a row with the transcription (or a failure sentinel) and
  deletes the file.
- `GET /voice_messages` returns the voice conversation of two users.

The model is one class, `App.ChatStore`. Its fields are the three tables (as
sequences), the server clock and the set of file names in the upload folder.
The three POST handlers are methods that return a status and a payload, or an
unhandled exception. Their contracts state the new value of every field they
may change. The three GET handlers are functions of the store. Each module
follows one part of the program:

- `Models` (app/models.py) holds the row datatypes and the key invariants the
  column declarations impose.
- `Database` holds what SQLite adds to the handlers' behaviour: the rowid of
  a new row, and the integer affinity that turns text into an integer when it
  is stored in, or compared with, an INTEGER column.
- `Queries` holds the filter, the `order_by(timestamp)` sort and the
  two-party conversation query.
- `Uploads` holds the extension check and the transcription text.
- `App` holds the handlers and the store invariant they keep.
- `Scenarios` holds request sequences run against a fresh store, with the
  outcome their contracts guarantee.

External pieces are inputs:

- The filename sanitizer (`secure_filename`) is a function parameter.
- The speech-to-text result is a `Transcription` value, either
  `Transcribed(text)` or `TranscriptionFailed(reason)`.
- Whether the database accepts the voice row's commit is a boolean.
- The clock reading is the last timestamp plus an `elapsed: nat` argument, so
  timestamps never decrease.

Request fields are modelled as follows:

- JSON ids are `Option<int>`. Python treats them as missing when they are
  absent or zero.
- JSON strings, query parameters and form fields are `Option<string>`.
  Python treats them as missing when they are absent or empty.

Four behaviours of the code are modelled as written, although a reader might
expect otherwise:

- The content-length rule rejects content longer than 10 characters with
  status 401 (`App.MaxContentLength`). The error text speaks of 500
  characters.
- A filename without a '.' makes `rsplit('.', 1)[1]` raise. The model gives
  `Unhandled(IndexError)`, not a 400.
- The voice handler does not check that the sender and recipient exist. Its
  rows keep whatever key the form text becomes under integer affinity, so the
  store invariant asks foreign keys of text messages only.
- The saved audio file is removed only after a successful commit. When the
  commit fails, the file stays in the folder
  (`Scenarios.UploadWithFailedCommit`). The folder ends as it began only when
  no file of that sanitized name was there before. An upload that reuses a
  name overwrites the earlier file and then removes it.

## Model

| member | source | states |
|---|---|---|
| Database.Affinity | app/app.py:126-131 | a form field's text is stored as an integer exactly when it is an integer literal; any other text is kept unchanged |
| Database.AffinityOfShowInt | client.py:181-183 | an id that a client writes in decimal into a query string is read back by the INTEGER column as that same id |
| Database.NextRowId | app/models.py:7 | a new row's id is larger than every id in use. It is 1 for an empty table, otherwise one more than an id in use |
| Models.AddUserKeepsKeys | app/models.py:6-8 | a user row with an unused id and an unused username keeps the primary key and the UNIQUE username intact |
| Models.AddMessageKeepsKey | app/models.py:10-11 | a message row with an unused id keeps the primary key of the text-message table |
| Models.AddVoiceKeepsKey | app/models.py:20-21 | a voice row with an unused id keeps the primary key of the voice-message table |
| Models.KeyedRowsDistinct | app/models.py:11 | a text-message table with unique ids holds no duplicate row |
| Models.KeyedVoiceRowsDistinct | app/models.py:21 | a voice-message table with unique ids holds no duplicate row |
| Models.UnusedIdIsNewMessage | app/models.py:11 | a message whose id is unused is not already in the table |
| Models.UnusedIdIsNewVoice | app/models.py:21 | a voice message whose id is unused is not already in the table |
| Queries.Filter | app/app.py:85-87 | the result holds exactly the rows that satisfy the condition, each as many times as the table holds it |
| Queries.FilterKeepsSorted | app/app.py:85-88 | filtering a timestamp-ordered table gives a timestamp-ordered result |
| Queries.AppendLatestKeepsSorted | app/models.py:13 | a row stamped no earlier than every existing row keeps the table in timestamp order |
| Queries.SortByKey | app/app.py:88 | the result is ordered by timestamp and is a permutation of the input |
| Queries.SortByKeyOfSorted | app/app.py:88 | rows already in timestamp order are returned unchanged |
| Queries.Conversation | app/app.py:85-88 | the result is ordered by timestamp. It holds every row whose (sender, recipient) is (a, b) or (b, a), as often as the table does, and no other row |
| Queries.ConversationSymmetric | app/app.py:85-87 | swapping the two user ids gives the same rows in the same order |
| Queries.ConversationInInsertionOrder | app/app.py:88 | when timestamps never decrease along the table, the conversation is the selected rows in insertion order |
| Queries.ConversationDistinct | app/app.py:85-88 | a table without duplicate rows gives a conversation without duplicate rows |
| Queries.AppendedRowInConversation | app/app.py:63-65 | an appended row shows up exactly once in its own pair's conversation, asked either way round. Every other pair's conversation is unchanged |
| Uploads.Extension | app/app.py:113 | the result is None exactly when the name has no '.'. Otherwise it is the text after the last '.', which holds no '.' |
| Uploads.ExtensionOfJoin | app/app.py:113 | the extension of stem + "." + ext is ext whenever ext holds no '.' |
| Uploads.AllowedExtensionSpelledOut | app/app.py:113 | an extension is allowed exactly when it is three characters that lower-case to wav, mp3 or ogg |
| Uploads.TranscriptionText | app/app.py:118-123 | a successful transcription is stored as the transcript text; a failed one as "Transcription failed: " followed by the failure reason, which can be read back after the prefix |
| App.AddUserKeepsStoreValid | app/app.py:35-37 | adding a user with a fresh id and an unused, non-empty username preserves the store invariant |
| App.AddMessageKeepsStoreValid | app/app.py:63-65 | adding a message with a fresh id between existing users, stamped at or after the clock, preserves the store invariant |
| App.AddVoiceKeepsStoreValid | app/app.py:126-134 | adding a voice row with a fresh id, stamped at or after the clock, preserves the store invariant whoever its sender and recipient are |
| App.SentMessageFetchedOnce | app/app.py:63-96 | a message stored with an unused id comes back exactly once, with all its fields, from its pair's conversation query in either argument order |
| App.UploadedVoiceFetchedOnce | app/app.py:126-162 | a voice row stored with an unused id comes back exactly once from the voice conversation query for its stored keys, in either order |
| App.ChatStore.constructor | app/app.py:14-23 | the store starts with empty tables, clock 0 and the folder's existing files, and satisfies the invariant |
| App.ChatStore.CreateUser | app/app.py:27-38 | missing or empty username gives 400 and a taken one 409, both leaving the table unchanged. Otherwise one user with a fresh id is appended and 201 echoes it. The invariant (unique ids and usernames) is kept |
| App.ChatStore.GetUsers | app/app.py:42-44 | 200 with every stored user, usernames and ids pairwise distinct |
| App.ChatStore.SendMessage | app/app.py:48-73 | the checks run in order: 400 (a field is missing), 401 (content over 10 characters), 404 (unknown sender or recipient). Each leaves the table and the clock unchanged. Otherwise exactly one message with the given fields, a fresh id and a new clock timestamp is appended, and 201 echoes it |
| App.ChatStore.GetMessages | app/app.py:77-96 | 400 when either id is missing. Otherwise 200 with the pair's messages in both directions, ordered by timestamp and without duplicates |
| App.ChatStore.UploadVoiceMessage | app/app.py:100-147 | missing file part, empty filename or missing ids give 400 and change nothing. No '.' raises IndexError and a disallowed extension gives 400, also changing nothing. An empty sanitized name fails the save. A failed commit leaves the file behind and adds no row. Otherwise one row is appended with the sanitized name and the transcription or failure sentinel, the file is removed, and 201 is returned |
| App.ChatStore.IngestVoice | app/app.py:114-146 | after validation: the file is saved and transcribed and the row committed. On success the row is appended, the clock moves to its timestamp and the file is removed. On commit failure the file stays and no row is added |
| App.ChatStore.GetVoiceMessages | app/app.py:151-171 | 400 when either id is missing. Otherwise 200 with the pair's voice messages in both directions, ordered by timestamp and without duplicates |
| Scenarios.ClipNames | app/app.py:113 | "clip.wav" passes the upload checks, "clip.EXE" fails only the extension check, and form ids "1" and "2" are stored as 1 and 2 |
| Scenarios.AliceAndBob | app/app.py:27-38 | registering alice then bob gives ids 1 and 2 |
| Scenarios.RegisterTwice | app/app.py:30-38 | registering "alice" twice stores one user and answers the second request with 409 |
| Scenarios.SendThenFetch | app/app.py:48-96 | a sent message comes back field for field as the only row of the pair's conversation, in both argument orders |
| Scenarios.SendFromStranger | app/app.py:58-61 | a message from an unknown id gives 404 and stores nothing |
| Scenarios.UploadExecutable | app/app.py:113-147 | "clip.EXE" is refused with 400 before anything reaches the folder or the table |
| Scenarios.UploadWithFailedTranscription | app/app.py:114-146 | with a failed transcription the row is still stored (201) with the failure sentinel, even though neither party is a user, and the folder is empty afterwards |
| Scenarios.UploadWithFailedCommit | app/app.py:133-137 | when the commit fails the saved file is left in the folder and no row is stored |

## Left out

- client.py is not part of this model beyond the decimal form in which it writes user ids into query strings; it is a console front end.
- app/config.py: the database URI, folder name and secret key are constants with no behaviour. Its 100 MB request-size limit, which Werkzeug enforces with a 413 when a POST handler first reads the request body, before any effect, is not modelled.
- Request decoding: bodies that are not JSON and JSON values of other types (booleans, floats, lists, ids sent as strings) are not modelled. Ids are JSON integers and username and content are JSON strings.
- Integer width: ids and timestamps are unbounded. SQLite's 64-bit rowid limit and its behaviour at the largest rowid are not modelled.
- Database.Affinity: the model treats only an optional sign followed by digits as an integer. SQLite also converts text with surrounding whitespace and real literals such as "3.0"; the model keeps these as text.
- Uploads.AsciiLower: only ASCII letters are lower-cased. No other character lower-cases to a letter of wav, mp3 or ogg, so the allow-list decision is the same as with Python's full `lower`.
- `secure_filename` is an uninterpreted parameter. Nothing is claimed about path traversal or about the names it produces.
- The speech-to-text call, its timeout and the file read before it are one injected outcome.
- File system faults other than an empty sanitized name (disk full, permissions, a failing `os.remove`) are not modelled.
- Commit failures are modelled only for the voice upload. In the other POST handlers, and in a race between two registrations of one username, a failed commit is left out.
- Concurrency: simultaneous requests, and uploads sharing the folder at the same time, are not modelled. Each handler runs alone and atomically.
- Equal timestamps: the model's insertion sort fixes one order for equal-timestamp rows. SQLite does not promise an order for ties, so the handler contracts state only timestamp order.
- App.ChatStore.GetUsers: states which users are listed, not their order, because the query has no ORDER BY.
- Timestamps are natural numbers, not datetimes. JSON rendering of the responses is not modelled.
- The constructor starts from empty tables. A database that already exists at start-up is not modelled.
- The declared column lengths (80, 500, 255) are not modelled: SQLite does not enforce them.
