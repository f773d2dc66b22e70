# Chat system: per-parent sequence numbers, in Dafny

The chat system has two front ends over one MySQL database and one Redis
server:

- **The Rails API** (`chat-system-api`) manages applications, chats and messages.
- **The Go service** (`golang-service`) creates chats and messages only.

Every chat has a number that is unique within its application. Every message
has a number that is unique within its chat. Both services take these numbers
from the same Redis counters: `app:<token>:chat_counter` and
`chat:<chat id>:message_counter`.

On the Rails side the model covers:

- the allocator (`RedisCounterService`) and its database fallback;
- the three models with their callbacks, validations and `counter_cache`;
- the chats and messages controllers, including paging and search;
- the API-key guard;
- the three reconciliation workers and the hourly sweep;
- the `NullRedis` stand-in that boot installs when Redis cannot be reached.

On the Go side it covers:

- the counter service;
- the request validators;
- the chat and message handlers, with their plain SQL inserts.

How the state is represented:

| State | Representation |
|---|---|
| Redis | `Redis.Server`, a class with a key space `map<string, int>` and a reachability flag |
| What `$redis` holds in Ruby | a `Handle` value; `Redis.ModeOf` derives the mode Live, Null or Failing |
| The tables | `Tables.Db`, a class with one `seq` per table in primary-key order |
| The primary keys and the migrations' unique indexes | the invariant `Db.Valid()` |
| The Sidekiq queue | `Jobs.Queue` |
| The Elasticsearch index | `SearchIndex.Index` |

The request and response path is modelled as values, in `Http` and the
controllers.

The model is organised around three properties:

- **The counters are the single source of numbers.** Both services produce the
  same keys (`CounterService.KeysAgreeWithRuby`). So a create in one service
  is followed by the next number in the other
  (`ChatHandler.SharedSequenceWithRails`, `MessageHandler.SharedSequenceWithRails`).
- **Creates keep the counter ahead of the rows.** While a counter is at least
  every number in its scope (`CounterAhead`), every create by either service
  gets a free number and keeps the counter ahead. A create is rejected for a
  taken number only after the counter has fallen behind.
- **Reconciliation copies counters into the count columns.** It is idempotent.
  Since the counter holds the last number issued, the column can exceed the
  number of rows.

## Model

| member | source | states |
|---|---|---|
| Redis.AfterIncr | chat-system-api/app/services/redis_counter_service.rb:8 | INCR sets the key to its old value plus one, counting an absent key as 0; every other key keeps its presence and value |
| Redis.AfterSetNX | golang-service/internal/services/counter.go:50 | SETNX adds the key with the value only when it is absent; an existing key and every other key are untouched |
| Redis.SetNXIdempotent | golang-service/internal/services/counter.go:47-56 | a second SETNX on the same key, with any value, changes nothing |
| Redis.IncrTimesMovesOneCounter | chat-system-api/app/services/redis_counter_service.rb:8 | n INCRs move the counter by exactly n and no other counter |
| Redis.IncrRepliesConsecutive | chat-system-api/app/services/redis_counter_service.rb:8 | successive INCRs on a key answer c+1, ..., c+n |
| Redis.IncrRepliesIncreasing | chat-system-api/app/services/redis_counter_service.rb:8 | the numbers issued on one key are strictly increasing, hence distinct |
| Redis.FreshKeyRepliesFromOne | chat-system-api/app/services/redis_counter_service.rb:8 | on an absent or zero key the numbers issued are 1, 2, ..., n |
| Redis.Incr | chat-system-api/app/services/redis_counter_service.rb:8 | live: the new value and the incremented key space; NullRedis: nil, nothing written; unreachable: raises, nothing written |
| Redis.Get | chat-system-api/app/workers/update_chat_count_worker.rb:10 | live: the stored value or nil; NullRedis: nil; unreachable: raises |
| Redis.Set | chat-system-api/app/services/redis_counter_service.rb:41 | live: "OK" and the key overwritten; otherwise nothing written |
| Redis.SetNX | golang-service/internal/services/counter.go:50 | live: whether the key was absent, and the key space after SETNX |
| Redis.Exists | chat-system-api/app/models/application.rb:22 | live: the count 0 or 1, which is truthy in both cases; NullRedis: nil, falsy |
| Redis.ExistsQ | chat-system-api/app/models/chat.rb:34 | live: a boolean whose truthiness is exactly the key's presence |
| Redis.Ping | chat-system-api/config/initializers/redis.rb:12-14 | NullRedis answers PONG whatever the server; a real client answers PONG iff the server is up, else raises |
| Redis.NullRespondsTo | chat-system-api/config/initializers/redis.rb:8-10 | NullRedis claims to respond to every method |
| Redis.Install | chat-system-api/config/initializers/redis.rb:18-36 | boot installs NullRedis exactly when the server is unreachable, so `$redis` is never a failing client right after boot |
| Redis.CheckRedis | chat-system-api/app/controllers/health_controller.rb:35-40 | the Redis health check passes iff NullRedis is installed or the server is up |
| Jobs.AfterRun | chat-system-api/app/workers/update_chat_count_worker.rb:3 | a run that raised is retried iff fewer than the limit of retries were made; a run that did not raise is done |
| Jobs.AlwaysRaisingJobRuns | chat-system-api/app/workers/index_message_worker.rb:3 | a job that always raises runs limit - k + 1 times from its k-th retry |
| Jobs.Queue.Push | chat-system-api/app/models/chat.rb:43 | a reachable queue appends the job; an unreachable one raises and keeps its jobs |
| SearchIndex.Upsert | chat-system-api/app/workers/index_message_worker.rb:9 | the document is stored under its id, replacing only that id's document |
| SearchIndex.UpsertIdempotent | chat-system-api/app/workers/index_message_worker.rb:5-17 | indexing the same document twice gives one document, and adds at most one key |
| SearchIndex.Index.IndexDocument | chat-system-api/app/models/message.rb:3 | a reachable index upserts the document; an unreachable one raises and is unchanged |
| SearchIndex.Hits | chat-system-api/app/models/message.rb:62 | the engine returns the first min(100, matches) ranked ids, in rank order |
| Http.NotFoundResponse | chat-system-api/app/controllers/api/v1/base_controller.rb:20-26 | a RecordNotFound becomes 404 with error "Not Found" |
| Tables.ChatNumbers | chat-system-api/app/models/chat.rb:7 | an application's chat numbers, at most one per row |
| Tables.ChatNumbersMembers | chat-system-api/app/models/chat.rb:7 | a number is among the application's chat numbers iff one of its chats has it |
| Tables.MessageNumbers | chat-system-api/app/models/message.rb:9 | a chat's message numbers, at most one per row |
| Tables.MessageNumbersMembers | chat-system-api/app/models/message.rb:9 | a number is among the chat's message numbers iff one of its messages has it |
| Tables.Max | chat-system-api/app/services/redis_counter_service.rb:16 | `maximum(:number)`: nil iff the scope is empty, else a member at least every member |
| Tables.MaxPlusOne | chat-system-api/app/models/chat.rb:18-29 | one past the largest number (1 for an empty scope): above every number, so free |
| Tables.Range | chat-system-api/app/services/redis_counter_service.rb:40 | exactly the integers 1..n, n of them |
| Tables.DenseScopeHasNRows | chat-system-api/app/services/redis_counter_service.rb:40 | a scope numbered exactly 1..n without repeats has n rows |
| Tables.DenseScopeMax | chat-system-api/app/services/redis_counter_service.rb:16 | in a scope numbered exactly 1..n the largest number is n |
| Tables.ChatNumbersAppend | chat-system-api/app/models/chat.rb:3-13 | a new chat adds its number to its own application's numbers only |
| Tables.MessageNumbersAppend | chat-system-api/app/models/message.rb:6-16 | a new message adds its number to its own chat's numbers only |
| Tables.SetMessagesCount | chat-system-api/app/workers/update_message_count_worker.rb:13 | `update_column(:messages_count)` changes that column of the chat with that id and nothing else |
| Tables.SetChatsCount | chat-system-api/app/workers/update_chat_count_worker.rb:13 | `update_column(:chats_count)` changes that column of the application with that id and nothing else |
| Tables.BumpChatsCountByOne | chat-system-api/app/models/chat.rb:3 | `counter_cache` raises the application's `chats_count` by one and leaves every other row as it was |
| Tables.BumpMessagesCountByOne | chat-system-api/app/models/message.rb:6 | `counter_cache` raises the chat's `messages_count` by one and leaves every other row as it was |
| Tables.SetMessagesCountKeepsNumbers | chat-system-api/app/workers/update_message_count_worker.rb:13 | writing a count column changes no chat number |
| Tables.AppendKeepsChatNumbersUnique | chat-system-api/app/models/chat.rb:7 | a chat with a free number keeps chat numbers unique per application |
| Tables.AppendKeepsMessageNumbersUnique | chat-system-api/app/models/message.rb:9 | a message with a free number keeps message numbers unique per chat |
| Tables.FindApplicationByToken | chat-system-api/app/controllers/api/v1/chats_controller.rb:44-46 | finds a row with that token, and answers nil iff no row has it |
| Tables.FindApplication | chat-system-api/app/workers/update_chat_count_worker.rb:6 | finds the row with that id, nil iff there is none |
| Tables.FindChat | chat-system-api/app/controllers/api/v1/chats_controller.rb:48-50 | the application's chat with that number, nil iff the number is not among its chats |
| Tables.FindMessageByNumber | chat-system-api/app/controllers/api/v1/messages_controller.rb:102-104 | the chat's message with that number, nil iff the number is not among its messages |
| Tables.FindChatById | chat-system-api/app/services/redis_counter_service.rb:31 | `Chat.find`: the row with that id, nil iff there is none |
| Tables.FindMessage | chat-system-api/app/workers/index_message_worker.rb:6 | `Message.find`: the row with that id, nil iff there is none |
| Tables.ChatsOf | chat-system-api/app/controllers/api/v1/chats_controller.rb:9 | exactly the application's chats, in table order |
| Tables.MessagesOf | chat-system-api/app/controllers/api/v1/messages_controller.rb:10 | exactly the chat's messages, in table order |
| Tables.Db.InsertApplication | chat-system-api/app/models/application.rb:7 | rejected iff the token is taken; otherwise one row appended with `chats_count` 0 and nothing else changed |
| Tables.Db.InsertChat | golang-service/internal/repository/chat.go:20-46 | rejected iff the number is taken in the application; otherwise one row appended with `messages_count` 0 |
| Tables.Db.InsertMessage | golang-service/internal/repository/message.go:20-46 | rejected iff the number is taken in the chat; otherwise one row appended |
| Tables.Db.UpdateChatsCount | chat-system-api/app/workers/update_chat_count_worker.rb:13 | the applications table becomes `SetChatsCount` of the old one |
| Tables.Db.UpdateMessagesCount | chat-system-api/app/workers/update_message_count_worker.rb:13 | the chats table becomes `SetMessagesCount` of the old one, and the unique indexes still hold |
| Tables.Db.IncrementChatsCount | chat-system-api/app/models/chat.rb:3 | the counter_cache increment of the application |
| Tables.Db.IncrementMessagesCount | chat-system-api/app/models/message.rb:6 | the counter_cache increment of the chat |
| Text.Utf8LengthBounds | golang-service/internal/services/validator.go:29 | Go's byte length is between the character count and four times it |
| Text.Utf8LengthIsCharsIffAscii | golang-service/internal/services/validator.go:29 | byte length equals character length iff the text is ASCII |
| Text.NatToString | golang-service/internal/services/counter.go:36 | decimal text, non-empty and all digits |
| Text.ParseNatToString | golang-service/internal/services/counter.go:36 | reading the decimal text back gives the number |
| Text.IntToString | chat-system-api/app/services/redis_counter_service.rb:21 | a leading '-' iff negative, digits otherwise |
| Text.IntToStringInjective | chat-system-api/app/services/redis_counter_service.rb:21 | two integers with the same text are equal |
| Text.HexEncode | chat-system-api/app/models/application.rb:16 | two lower-case hex digits per byte |
| Text.HexRoundTrip | chat-system-api/app/models/application.rb:16 | decoding the hex text of bytes gives the bytes back |
| Ordering.InsertBy | chat-system-api/app/controllers/api/v1/chats_controller.rb:10 | inserting into sorted rows keeps them sorted and adds exactly that row |
| Ordering.SortBy | chat-system-api/app/controllers/api/v1/chats_controller.rb:10 | `order(number: :asc)`: sorted, and a permutation of the input |
| Ordering.SortByKeepsRows | chat-system-api/app/controllers/api/v1/messages_controller.rb:11 | sorting keeps the length and the members |
| Ordering.SortedDistinctIsStrict | chat-system-api/app/controllers/api/v1/chats_controller.rb:10 | with distinct numbers the order is strictly increasing |
| Paging.Paginate | chat-system-api/app/controllers/api/v1/chats_controller.rb:11-12 | the page is min(size, rows after the offset) long and is the rows from the offset on, in order |
| Paging.PageOfSorted | chat-system-api/app/controllers/api/v1/chats_controller.rb:10-12 | a page of sorted rows is sorted and holds only input rows |
| Paging.PageIsSubMultiset | chat-system-api/app/controllers/api/v1/chats_controller.rb:11-12 | a page holds each row at most as often as the rows do |
| Paging.FirstPageHoldsLowest | chat-system-api/app/controllers/api/v1/chats_controller.rb:10-12 | on the first page of sorted rows, a row left off has a key at least that of every row on it |
| Paging.ConsecutivePagesAdjoin | chat-system-api/app/controllers/api/v1/messages_controller.rb:12-13 | pages p and p+1 together are exactly rows (p-1)n .. (p+1)n, clipped to the rows |
| Paging.LowPageIsFirstPage | chat-system-api/app/controllers/api/v1/chats_controller.rb:11 | a page number below 1 shows the first page |
| RedisCounterService.ChatCounterKeyInjective | chat-system-api/app/services/redis_counter_service.rb:5 | different tokens have different chat counters |
| RedisCounterService.MessageCounterKeyInjective | chat-system-api/app/services/redis_counter_service.rb:21 | different chat ids have different message counters |
| RedisCounterService.CounterKindsDisjoint | chat-system-api/app/services/redis_counter_service.rb:5-21 | no chat counter key is a message counter key |
| RedisCounterService.ChatNumberFallback | chat-system-api/app/services/redis_counter_service.rb:12-16 | RecordNotFound iff no application has the token; otherwise a free number, 1 or the maximum plus one |
| RedisCounterService.MessageNumberFallback | chat-system-api/app/services/redis_counter_service.rb:28-32 | RecordNotFound iff no chat has the id; otherwise a free number, 1 or the maximum plus one |
| RedisCounterService.NextChatNumber | chat-system-api/app/services/redis_counter_service.rb:4-17 | live: the incremented counter; NullRedis: nil; raising: the fallback, counter untouched |
| RedisCounterService.NextMessageNumber | chat-system-api/app/services/redis_counter_service.rb:20-33 | the same, on the chat's message counter |
| RedisCounterService.SyncChatCounter | chat-system-api/app/services/redis_counter_service.rb:36-45 | as written: the counter is set to the number of the application's chats; a missing application or a raising store propagates |
| RedisCounterService.SyncMessageCounter | chat-system-api/app/services/redis_counter_service.rb:48-57 | as written: the counter is set to the number of the chat's messages |
| RedisCounterService.DenseScopeSyncThenNext | chat-system-api/app/services/redis_counter_service.rb:40-41 | in a scope numbered 1..n the count is n and the next INCR issues the free number n+1 |
| RedisCounterService.SyncByCountReissuesTakenNumber | chat-system-api/app/services/redis_counter_service.rb:40-41 | chats 1, 2, 4: the sync writes 3, and the next INCR issues the taken number 4 |
| RedisCounterService.SyncByCountReissuesTakenMessageNumber | chat-system-api/app/services/redis_counter_service.rb:40-41 | messages 1, 2, 4 of a chat: the sync writes 3, and the next INCR issues the taken number 4 |
| RedisCounterService.SyncTarget | chat-system-api/app/services/redis_counter_service.rb:40 | the evidently intended value, the largest number: the next INCR after it is free, and it is 0 for an empty scope |
| RedisCounterService.SyncTargetOfDenseScope | chat-system-api/app/services/redis_counter_service.rb:40 | on a dense scope 1..n the corrected value equals the count n |
| RedisCounterService.SyncChatCounterToMax | chat-system-api/app/services/redis_counter_service.rb:36-45 | corrected sync: the counter is set to the largest chat number, so the next allocation is free |
| RedisCounterService.SyncMessageCounterToMax | chat-system-api/app/services/redis_counter_service.rb:48-57 | corrected sync of a chat's message counter, with the same guarantee |
| ApplicationModel.GenerateToken | chat-system-api/app/models/application.rb:15-17 | a present token is kept; a blank one becomes 20 lower-case hex characters that decode to the random bytes |
| ApplicationModel.GeneratedTokenIsPresent | chat-system-api/app/models/application.rb:7-10 | after `generate_token` the token presence validation always passes |
| ApplicationModel.Errors | chat-system-api/app/models/application.rb:6-7 | each message appears iff its rule fails; no message iff the name is present and the token is present and free |
| ApplicationModel.InitializeRedisCounterAsWritten | chat-system-api/app/models/application.rb:19-27 | as written (`exists`): the key space is never changed |
| ApplicationModel.InitializeRedisCounter | chat-system-api/app/models/application.rb:19-27 | corrected (`exists?`): on a live store 0 is written iff the key is absent; nothing is written otherwise |
| ApplicationModel.MissingInitializationIsHarmless | chat-system-api/app/models/application.rb:22 | on an absent key the first INCR gives 1 with or without the initialisation |
| ApplicationModel.Create | chat-system-api/app/models/application.rb:6-27 | invalid: the messages, nothing written; valid: the row with `chats_count` 0, and the hook as written leaves the key space unchanged |
| Tables.FilledNumber | chat-system-api/app/models/chat.rb:18-29 | `set_number`, the same code for messages (message.rb:69-80): a given number is kept; otherwise a number free in the scope (1 when empty, maximum plus one otherwise); 1 when the query raises |
| ChatModel.Errors | chat-system-api/app/models/chat.rb:3-8 | "Application must exist" iff the application is missing; "Number has already been taken" iff the number is taken |
| ChatModel.FilledNumberIsFree | chat-system-api/app/models/chat.rb:7-11 | a number filled in by `set_number` always passes validation |
| ChatModel.InitializeRedisCounter | chat-system-api/app/models/chat.rb:31-39 | on a live store the message counter gets 0 iff absent; nothing otherwise |
| ChatModel.ScheduleCounterUpdate | chat-system-api/app/models/chat.rb:41-46 | one delayed `UpdateChatCount` job when the queue is reachable, none otherwise |
| ChatModel.Persist | chat-system-api/app/models/chat.rb:3 | the row appended and the application's `chats_count` bumped, in one step |
| ChatModel.Save | chat-system-api/app/models/chat.rb:1-46 | invalid: nothing changes; valid: the row, the bump, the counter initialisation and the job, each as stated |
| MessageModel.BodyErrors | chat-system-api/app/models/message.rb:11 | no message iff the body is non-blank and 1..5000 characters long; each message iff its rule fails |
| MessageModel.BodyErrorsNameTheBody | chat-system-api/app/models/message.rb:11 | the body rules produce no message of another attribute |
| MessageModel.Errors | chat-system-api/app/models/message.rb:6-11 | no message iff the chat exists, the number is free and the body passes |
| MessageModel.AsIndexedJson | chat-system-api/app/models/message.rb:33-41 | the document carries exactly the id, number, body, chat id and creation time |
| MessageModel.AsIndexedJsonIgnoresUpdatedAt | chat-system-api/app/models/message.rb:33-41 | rows that differ only in `updated_at` index alike |
| MessageModel.IndexToElasticsearchAsync | chat-system-api/app/models/message.rb:82-88 | one `IndexMessage` job when the queue is reachable |
| MessageModel.ScheduleCounterUpdate | chat-system-api/app/models/message.rb:90-96 | one delayed `UpdateMessageCount` job when the queue is reachable |
| MessageModel.Persist | chat-system-api/app/models/message.rb:6 | the row appended and the chat's `messages_count` bumped |
| MessageModel.Save | chat-system-api/app/models/message.rb:1-96 | invalid: nothing; valid: the row, the bump, both jobs, the document; an unreachable index raises after the row is stored |
| ChatsController.Views | chat-system-api/app/controllers/api/v1/chats_controller.rb:52-59 | one view per row, in the same order |
| ChatsController.ListedChats | chat-system-api/app/controllers/api/v1/chats_controller.rb:8-18 | only the application's chats, each at most as often as it is stored, by ascending number; on the first page no chat left off has a lower number than a listed one; by default min(50, count) of them |
| ChatsController.Index | chat-system-api/app/controllers/api/v1/chats_controller.rb:8-18 | 404 for an unknown token; otherwise 200 with the views of the listed chats |
| ChatsController.IndexOrderAndDefaultPage | chat-system-api/app/controllers/api/v1/chats_controller.rb:9-12 | without parameters: the views of the min(50, count) lowest-numbered chats of the application, each at most once, in ascending order |
| ChatsController.Show | chat-system-api/app/controllers/api/v1/chats_controller.rb:21-23 | 404 for an unknown token or number; otherwise 200 with that chat's view |
| ChatsController.AllocateNumber | chat-system-api/app/controllers/api/v1/chats_controller.rb:27-28 | the number the chat is saved with is the planned one: the INCR's reply when live, else the maximum plus one |
| ChatsController.CreateIn | chat-system-api/app/controllers/api/v1/chats_controller.rb:26-40 | a free planned number: 201 and the row; a taken one: 422 "Number has already been taken"; the counter advances either way |
| ChatsController.Create | chat-system-api/app/controllers/api/v1/chats_controller.rb:26-46 | 404 for an unknown token with nothing changed; otherwise 201 with the row, the `chats_count` bump, the job and the counters, or 422 with the counter advanced and nothing else changed |
| ChatsController.RejectedOnlyBehindCounter | chat-system-api/app/controllers/api/v1/chats_controller.rb:26-40 | a create is rejected only on a live store whose counter fell behind the rows |
| ChatsController.CreateKeepsCounterAhead | chat-system-api/app/controllers/api/v1/chats_controller.rb:26-40 | from a counter ahead of the rows, the number is free and the counter stays ahead |
| MessagesController.Views | chat-system-api/app/controllers/api/v1/messages_controller.rb:106-113 | one view per row, in the same order |
| MessagesController.FindScope | chat-system-api/app/controllers/api/v1/messages_controller.rb:94-100 | no application iff the token is unknown; no chat iff the number is not the application's; otherwise that chat |
| MessagesController.ListedMessages | chat-system-api/app/controllers/api/v1/messages_controller.rb:9-19 | only the chat's messages, each at most as often as it is stored, by ascending number; on the first page no message left off has a lower number than a listed one; by default min(50, count) of them |
| MessagesController.Index | chat-system-api/app/controllers/api/v1/messages_controller.rb:9-19 | the lookup's 404, or 200 with the views of the listed messages |
| MessagesController.IndexOrderAndDefaultPage | chat-system-api/app/controllers/api/v1/messages_controller.rb:10-13 | without parameters: the views of the min(50, count) lowest-numbered messages of the chat, each at most once, in ascending order |
| MessagesController.Show | chat-system-api/app/controllers/api/v1/messages_controller.rb:22-24 | a 404 from any of the three lookups, or 200 with that message's view |
| MessagesController.AllocateNumber | chat-system-api/app/controllers/api/v1/messages_controller.rb:28-29 | the number validated is the planned one |
| MessagesController.CreateErrors | chat-system-api/app/controllers/api/v1/messages_controller.rb:27-44 | for an existing chat only a taken number and the body can be objected to |
| MessagesController.Store | chat-system-api/app/controllers/api/v1/messages_controller.rb:28-36 | the planned number, the counter advanced, and the outcome of `save` |
| MessagesController.Render | chat-system-api/app/controllers/api/v1/messages_controller.rb:36-43 | 201 with the view, 422 with the messages, 500 for the exception |
| MessagesController.Create | chat-system-api/app/controllers/api/v1/messages_controller.rb:27-44 | the lookup's 404 with nothing changed; otherwise the counter advanced in every case, then 422 with nothing else changed, or the row, the `messages_count` bump, both jobs and the index document, with 201, or 500 when indexing raises |
| MessagesController.RejectedOnlyForBodyOrBehindCounter | chat-system-api/app/controllers/api/v1/messages_controller.rb:27-44 | a rejection means a bad body or a live counter behind the rows |
| MessagesController.CreateKeepsCounterAhead | chat-system-api/app/controllers/api/v1/messages_controller.rb:27-44 | from a counter ahead of the rows, the number is free and the counter stays ahead |
| MessagesController.Records | chat-system-api/app/controllers/api/v1/messages_controller.rb:64 | the rows of the hits, in hit order; every hit with a row contributes it |
| MessagesController.InChat | chat-system-api/app/controllers/api/v1/messages_controller.rb:64 | exactly the rows of the chat |
| MessagesController.InChatOfOwnRows | chat-system-api/app/controllers/api/v1/messages_controller.rb:64 | rows of the chat pass the filter unchanged |
| MessagesController.ChatHits | chat-system-api/app/controllers/api/v1/messages_controller.rb:58-66 | exactly this chat's rows among the hits: each result is a hit of this chat, every hit whose row exists and belongs to the chat is a result, at most one per hit |
| MessagesController.ChatHitsFollowHitOrder | chat-system-api/app/controllers/api/v1/messages_controller.rb:58-66 | results follow the hit order: split the hits and the results split alike |
| MessagesController.Search | chat-system-api/app/controllers/api/v1/messages_controller.rb:47-90 | the lookup's 404; 400 for a blank query; 200 with at most 100 of the chat's hits and their count; 503 for a missing index or another engine error |
| IndexMessageWorker.Perform | chat-system-api/app/workers/index_message_worker.rb:5-17 | a missing message is skipped; otherwise it is indexed, or the job fails for a retry |
| IndexMessageWorker.CallbackThenWorkerIndexOnce | chat-system-api/app/workers/index_message_worker.rb:5-17 | the callback and the worker together leave one document for the message |
| UpdateChatCountWorker.Perform | chat-system-api/app/workers/update_chat_count_worker.rb:5-21 | missing application: skipped; raising store: failed, nothing written; otherwise the column gets the counter (0 when absent or NullRedis) |
| UpdateChatCountWorker.ReconcileIdempotent | chat-system-api/app/workers/update_chat_count_worker.rb:5-21 | a second run with the same counter changes nothing |
| UpdateChatCountWorker.ReconciledCountIsLastIssued | chat-system-api/app/workers/update_chat_count_worker.rb:9-13 | two allocations with one chat saved: the column gets 2 for one chat |
| UpdateChatCountWorker.NullStoreZeroesColumn | chat-system-api/app/workers/update_chat_count_worker.rb:10 | under NullRedis the column is reset to 0 |
| UpdateMessageCountWorker.Perform | chat-system-api/app/workers/update_message_count_worker.rb:5-21 | the same for a chat's `messages_count` |
| UpdateMessageCountWorker.ReconcileIdempotent | chat-system-api/app/workers/update_message_count_worker.rb:5-21 | a second run with the same counter changes nothing |
| UpdateMessageCountWorker.ReconcileTouchesOneColumn | chat-system-api/app/workers/update_message_count_worker.rb:13 | only that chat's `messages_count` changes |
| CounterSyncWorker.ApplicationJobs | chat-system-api/app/workers/counter_sync_worker.rb:9-11 | one `UpdateChatCount` job per application, in table order |
| CounterSyncWorker.ChatJobs | chat-system-api/app/workers/counter_sync_worker.rb:14-16 | one `UpdateMessageCount` job per chat, in table order |
| CounterSyncWorker.EnqueueApplications | chat-system-api/app/workers/counter_sync_worker.rb:9-11 | reachable queue: all application jobs appended; otherwise nothing, and failure iff there was a row to push |
| CounterSyncWorker.EnqueueChats | chat-system-api/app/workers/counter_sync_worker.rb:14-16 | the same for the chat jobs |
| CounterSyncWorker.Perform | chat-system-api/app/workers/counter_sync_worker.rb:5-19 | reachable queue: completed with every application job then every chat job; otherwise nothing queued, failed iff any row exists |
| CounterSyncWorker.OneJobPerApplication | chat-system-api/app/workers/counter_sync_worker.rb:9-11 | with distinct ids each application gets exactly one job |
| CounterSyncWorker.OneJobPerChat | chat-system-api/app/workers/counter_sync_worker.rb:14-16 | with distinct ids each chat gets exactly one job |
| CounterSyncWorker.SweepQueuesOneJobPerRow | chat-system-api/app/workers/counter_sync_worker.rb:5-19 | on tables that keep their primary keys, the sweep queues exactly one job per application and one per chat |
| CounterSyncWorker.SweepShape | chat-system-api/app/workers/counter_sync_worker.rb:5-19 | one job per row, every application job before every chat job |
| ApiAuthenticatable.Fields | chat-system-api/app/controllers/concerns/api_authenticatable.rb:28 | at least one field, none containing a comma |
| ApiAuthenticatable.JoinFields | chat-system-api/app/controllers/concerns/api_authenticatable.rb:28 | the fields joined with commas give the text back |
| ApiAuthenticatable.DropTrailingEmpty | chat-system-api/app/controllers/concerns/api_authenticatable.rb:28 | no trailing empty field; the same non-empty members |
| ApiAuthenticatable.RubySplit | chat-system-api/app/controllers/concerns/api_authenticatable.rb:28 | `split(',')`: no trailing empty key, the same non-empty keys as the fields, none containing a comma |
| ApiAuthenticatable.EmptyKeyListHasNoKeys | chat-system-api/app/controllers/concerns/api_authenticatable.rb:28 | an empty `API_KEYS` gives no key |
| ApiAuthenticatable.ValidApiKeyIsAField | chat-system-api/app/controllers/concerns/api_authenticatable.rb:25-30 | a non-empty key is valid iff it is a whole field of `API_KEYS` or the master key |
| ApiAuthenticatable.ListedKeysHaveNoSeparator | chat-system-api/app/controllers/concerns/api_authenticatable.rb:25-30 | a valid key containing a comma can only be the master key |
| ApiAuthenticatable.VerifyApiKey | chat-system-api/app/controllers/concerns/api_authenticatable.rb:10-23 | the request passes iff the development skip is on, or the key is non-blank and valid; otherwise the 401 |
| ApiAuthenticatable.NothingConfiguredRefusesAll | chat-system-api/app/controllers/concerns/api_authenticatable.rb:25-30 | with no key configured every request outside the skip is refused |
| ApiAuthenticatable.BeforeAction | chat-system-api/app/controllers/concerns/api_authenticatable.rb:4-6 | the health controller always passes; every other controller gets `verify_api_key` |
| CounterService.KeysAgreeWithRuby | golang-service/internal/services/counter.go:24-48 | the Go keys are exactly the Ruby keys |
| CounterService.CounterService.GetNextChatNumber | golang-service/internal/services/counter.go:23-32 | up: the incremented counter and no error; down: 0 and the error, nothing written |
| CounterService.CounterService.GetNextMessageNumber | golang-service/internal/services/counter.go:35-44 | the same on the chat's message counter |
| CounterService.CounterService.InitializeMessageCounter | golang-service/internal/services/counter.go:47-56 | up: SETNX of 0; down: the error, nothing written |
| CounterService.InitializeKeepsCounter | golang-service/internal/services/counter.go:47-56 | initialising never changes any counter's value |
| CounterService.FirstNumberAfterInitialize | golang-service/internal/services/counter.go:47-56 | on a fresh chat the first message number is 1 |
| Validator.ValidateToken | golang-service/internal/services/validator.go:8-22 | no error iff the token is 20 lower-case hex characters; each error text for its case, in order |
| Validator.UpperCaseTokenRejected | golang-service/internal/services/validator.go:8 | a token with an upper-case hex letter is rejected |
| Validator.GeneratedTokenPasses | golang-service/internal/services/validator.go:8-22 | every token the Rails model generates passes the Go check |
| Validator.ValidateMessageBody | golang-service/internal/services/validator.go:25-33 | no error iff the body is non-empty and at most 5000 bytes |
| Validator.ValidateChatNumber | golang-service/internal/services/validator.go:36-41 | no error iff the number is at least 1 |
| Validator.GoAcceptedBodyFitsRailsLength | golang-service/internal/services/validator.go:25-33 | a body Go accepts has 1..5000 characters, so the Rails length rule accepts it |
| Validator.AsciiBodyLimitsAgree | golang-service/internal/services/validator.go:29 | on ASCII bodies the Go and Rails limits coincide |
| Validator.WhitespaceBodyPassesOnlyGo | golang-service/internal/services/validator.go:26 | " " passes Go and fails the Rails presence rule |
| Validator.MultibyteBodyPassesOnlyRails | golang-service/internal/services/validator.go:29 | 2501 copies of 'é' pass Rails and fail Go |
| ChatHandler.Precheck | golang-service/internal/handlers/chat.go:34-50 | 400 for an undecodable body or a bad token; 404 for an unknown token; proceeds iff decoded, matching and found |
| ChatHandler.ValidationPrecedesLookup | golang-service/internal/handlers/chat.go:34-43 | a 400 does not depend on the tables |
| ChatHandler.ChatHandler.CreateFor | golang-service/internal/handlers/chat.go:53-82 | store down: 500, nothing written; number taken: 500, counter advanced; otherwise 201, the row, the counter advanced and the message counter set |
| ChatHandler.ChatHandler.Insert | golang-service/internal/handlers/chat.go:61-82 | taken: 500, nothing written; free: the row, the message counter initialised, 201 |
| ChatHandler.ChatHandler.ServeHTTP | golang-service/internal/handlers/chat.go:31-83 | the precheck's answer with nothing changed; otherwise a store error gives its 500 with nothing written, a taken number its 500 with the counter advanced, and a free one 201 with the row, the counter advanced and the message counter added |
| ChatHandler.SharedSequenceWithRails | golang-service/internal/handlers/chat.go:53-58 | after a Rails create Go takes the next number, and the other way round |
| ChatHandler.InsertFailsOnlyBehindCounter | golang-service/internal/handlers/chat.go:61-66 | a Go insert hits a taken number only if the counter fell behind |
| ChatHandler.CreateKeepsCounterAhead | golang-service/internal/handlers/chat.go:53-71 | from a counter ahead of the rows, the number is free and the counter stays ahead |
| ChatHandler.CreateLeavesChatsCountBehind | golang-service/internal/repository/chat.go:20-46 | a Go create adds a chat without touching `chats_count` |
| MessageHandler.Precheck | golang-service/internal/handlers/message.go:38-71 | the 400s in the order token, chat number, body; then 404 for the application and the chat |
| MessageHandler.ValidationPrecedesLookup | golang-service/internal/handlers/message.go:38-57 | a 400 does not depend on the tables |
| MessageHandler.MessageHandler.CreateFor | golang-service/internal/handlers/message.go:74-98 | store down: 500, nothing written; number taken: 500, counter advanced; otherwise 201 and the row |
| MessageHandler.MessageHandler.Insert | golang-service/internal/handlers/message.go:82-98 | taken: 500, nothing written; free: the row and 201 |
| MessageHandler.MessageHandler.ServeHTTP | golang-service/internal/handlers/message.go:35-99 | the precheck's answer with nothing changed; otherwise a store error gives its 500 with nothing written, a taken number its 500 with the counter advanced, and a free one 201 with the row and the counter advanced |
| MessageHandler.CounterKeyedByChatId | golang-service/internal/handlers/message.go:74 | chats with different ids never share a message counter |
| MessageHandler.SharedSequenceWithRails | golang-service/internal/handlers/message.go:74-79 | after a Rails create Go takes the next number, and the other way round |
| MessageHandler.InsertFailsOnlyBehindCounter | golang-service/internal/handlers/message.go:82-87 | a Go insert hits a taken number only if the counter fell behind |
| MessageHandler.CreateKeepsCounterAhead | golang-service/internal/handlers/message.go:74-87 | from a counter ahead of the rows, the number is free and the counter stays ahead |

## Left out

- Concurrency is not modelled: each request runs to completion before the next, so races between INCR and the inserts are not modelled. The atomicity of INCR is why a counter ahead of the rows stays ahead.
- INCR overflow at 2^63 - 1 and Go's `int64` are not modelled; every number is unbounded.
- `Redis.Incr`: the error a real server gives for a non-integer value is not modelled; the key space maps every key to an integer.
- Time is an input `now`. The delay of `perform_in(5.minutes)` is carried as a number on the job. The Sidekiq scheduler itself (config/initializers/sidekiq_scheduler.rb) is not modelled: it only triggers the sweep every hour. Retry back-off is not modelled either.
- The random bytes of `SecureRandom.hex` are an input.
- Elasticsearch query semantics are an input of `MessagesController.Search`: the engine's ranked ids or its error. Left out are fuzzy matching, the English analyzer, the highlight section, and the creation of the development index (config/initializers/elasticsearch.rb).
- Tables.FindApplicationByToken: token comparison is modelled as exact equality, although the migrations set no collation and MySQL's default `utf8mb4_0900_ai_ci` is case-insensitive. So on the Rails side an upper-cased token would also find its application (`find_by!(token:)`), and the unique index and the uniqueness validation of `ApplicationModel.Errors` and `Tables.Db.InsertApplication` would also refuse a token that differs only in case. The Go side is unaffected, because `Validator.ValidateToken` rejects upper case before any lookup.
- Database failures other than unique-index violations are not modelled. Left out are the Go "database error" paths, outages and foreign-key errors. A Go insert with a taken number fails through the unique indexes of the migrations.
- `CounterService.CounterService.GetNextChatNumber` and the other Go error paths carry the fixed text before `: %w`. The wrapped driver error after it is not modelled.
- `ChatHandler.ChatHandler.Insert`: the handler logs and ignores the error of `InitializeMessageCounter`, and the model does the same. Its log line is omitted.
- JSON decoding is an input: the decoded request or the decoder's error text. Integer overflow while decoding is not modelled.
- The `status` field of Go's error body repeats the HTTP status, so it is not repeated in `Http.RespondError`.
- The `page` and `per_page` parameters are modelled as the integers Kaminari reads from them. `page` is the string's `to_i`. `per` is also the `to_i` of a string that starts with a digit; a string that does not (`"abc"`, `" 5"`, `"+5"`) keeps the default page size, as a negative value does. The conversion from strings is not modelled. The `pagination` object that `pagination_meta` of the base controller adds to the `index` bodies (current_page, per_page, total_pages, total_count) is not modelled; `Index` states only the listed views.
- The `search_engine` payload field of `search` and the WHERE text of Rails' RecordNotFound messages are not modelled; the 404 names only the model.
- Rails' rendering of an unhandled exception is approximated by one fixed 500 body (`MessagesController.UnhandledError`).
- The applications controller, the health endpoints other than the Redis check, security headers, rack-attack, CORS, logging and the Go middleware are not part of this model.

## Findings

| source | as written | input that shows it | evidently intended | confidence | as-written member | corrected member |
|---|---|---|---|---|---|---|
| chat-system-api/app/services/redis_counter_service.rb:40-41 | the sync sets the counter to the number of rows in the scope | a chat whose messages are numbered 1, 2 and 4, because number 3 went to a create rejected for a blank body (`MessagesController.Store` advances the counter on that 422): the sync writes 3 and the next INCR issues 4, which is taken | restore the counter to the largest number in the scope, after which the next INCR is always free | high (proved; not executed; `sync_*` has no caller among the modelled files) | RedisCounterService.SyncByCountReissuesTakenMessageNumber | RedisCounterService.SyncMessageCounterToMax |
| chat-system-api/app/models/application.rb:22 | `set(key, 0) unless $redis.exists(key)`; in redis-rb 5 `exists` returns the integer count, and 0 is truthy in Ruby | any new application on a reachable Redis: `exists` answers 0, so the SET is skipped | `exists?`, as chat.rb:34 writes it: set 0 exactly when the key is absent | medium (proved; not executed; rests on redis-rb 5, and the Gemfile that pins the version is not part of this model) | ApplicationModel.InitializeRedisCounterAsWritten | ApplicationModel.InitializeRedisCounter |

The first finding also shows in `RedisCounterService.SyncMessageCounter` and
`RedisCounterService.SyncChatCounter`, which model the sync as written. The
chat witness `RedisCounterService.SyncByCountReissuesTakenNumber` needs a gap
among an application's chat numbers, which no create in the model leaves.
`RedisCounterService.SyncChatCounterToMax` is the corrected chat-counter sync.
`ApplicationModel.Create` runs the hook as written and leaves the key space
unchanged. The second finding has no visible effect:
INCR counts an absent key as 0 (`ApplicationModel.MissingInitializationIsHarmless`).
