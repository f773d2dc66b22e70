/**
 * The Go allocator (`CounterService`), holding a real Redis client. It formats
 * the same keys as the Ruby allocator, so both services draw from one sequence
 * per scope. A store error is returned to the caller with number 0; there is
 * no database fallback.
 */
module CounterService {
  import opened Common
  import opened Text
  import opened Redis
  import RedisCounterService

  /** `fmt.Sprintf("app:%s:chat_counter", appToken)`. */
  function ChatKey(appToken: string): string {
    "app:" + appToken + ":chat_counter"
  }

  /** `fmt.Sprintf("chat:%d:message_counter", chatID)`. */
  function MessageKey(chatId: int): string {
    "chat:" + IntToString(chatId) + ":message_counter"
  }

  /** Both services name every counter alike, so they share one sequence per scope. */
  lemma KeysAgreeWithRuby(token: string, chatId: int)
    ensures ChatKey(token) == RedisCounterService.ChatCounterKey(token)
    ensures MessageKey(chatId) == RedisCounterService.MessageCounterKey(chatId)
  {
  }

  class CounterService {
    const redis: Server

    constructor (redisClient: Server)
      ensures redis == redisClient
    {
      redis := redisClient;
    }

    /** `GetNextChatNumber`: the post-increment value, or `(0, err)`. */
    method GetNextChatNumber(appToken: string) returns (number: int, err: Option<string>)
      modifies redis`data
      ensures redis.up ==>
        && err == None
        && number == Counter(old(redis.data), ChatKey(appToken)) + 1
        && redis.data == AfterIncr(old(redis.data), ChatKey(appToken))
      ensures !redis.up ==>
        number == 0 && err == Some("failed to increment chat counter") && redis.data == old(redis.data)
    {
      var reply := Incr(RealRedis, redis, ChatKey(appToken));
      if reply.Int? {
        number, err := reply.n, None;
      } else {
        number, err := 0, Some("failed to increment chat counter");
      }
    }

    /** `GetNextMessageNumber`: the same on the chat's message counter, keyed by chat id. */
    method GetNextMessageNumber(chatId: int) returns (number: int, err: Option<string>)
      modifies redis`data
      ensures redis.up ==>
        && err == None
        && number == Counter(old(redis.data), MessageKey(chatId)) + 1
        && redis.data == AfterIncr(old(redis.data), MessageKey(chatId))
      ensures !redis.up ==>
        number == 0 && err == Some("failed to increment message counter") && redis.data == old(redis.data)
    {
      var reply := Incr(RealRedis, redis, MessageKey(chatId));
      if reply.Int? {
        number, err := reply.n, None;
      } else {
        number, err := 0, Some("failed to increment message counter");
      }
    }

    /** `InitializeMessageCounter`: SETNX of 0, so an existing counter is never reset. */
    method InitializeMessageCounter(chatId: int) returns (err: Option<string>)
      modifies redis`data
      ensures redis.up ==> err == None && redis.data == AfterSetNX(old(redis.data), MessageKey(chatId), 0)
      ensures !redis.up ==>
        err == Some("failed to initialize message counter") && redis.data == old(redis.data)
    {
      var reply := SetNX(RealRedis, redis, MessageKey(chatId), 0);
      err := if reply.Raised? then Some("failed to initialize message counter") else None;
    }
  }

  /**
   * Initialising is harmless after allocations: the counter keeps its value,
   * and on a fresh chat it makes the first allocation 1.
   */
  lemma InitializeKeepsCounter(data: map<string, int>, chatId: int)
    ensures Counter(AfterSetNX(data, MessageKey(chatId), 0), MessageKey(chatId)) == Counter(data, MessageKey(chatId))
    ensures forall k :: Counter(AfterSetNX(data, MessageKey(chatId), 0), k) == Counter(data, k)
  {
  }

  lemma FirstNumberAfterInitialize(data: map<string, int>, chatId: int)
    requires MessageKey(chatId) !in data
    ensures Counter(AfterIncr(AfterSetNX(data, MessageKey(chatId), 0), MessageKey(chatId)), MessageKey(chatId)) == 1
  {
  }
}
