/**
 * The `Application` record: a token filled in before validation, validations
 * on name and token, and an `after_create` hook that prepares the chat counter.
 */
module ApplicationModel {
  import opened Common
  import opened Text
  import opened Tables
  import opened Redis
  import RedisCounterService

  /** The number of random bytes `SecureRandom.hex(10)` prints. */
  const TokenBytes: nat := 10

  /**
   * `generate_token`: a token that is present is kept; a blank one is replaced by
   * the lower-case hex text of `TokenBytes` random bytes, which are an input here.
   */
  function GenerateToken(token: Option<string>, random: seq<byte>): (t: string)
    requires |random| == TokenBytes
    ensures !Blank(token) ==> t == token.value
    ensures Blank(token) ==>
      && |t| == 2 * TokenBytes
      && (forall i :: 0 <= i < |t| ==> IsLowerHex(t[i]))
      && HexDecode(t) == random
  {
    if Blank(token) then
      HexRoundTrip(random);
      HexEncode(random)
    else token.value
  }

  /** A generated token is never blank, so the presence validation on it always passes. */
  lemma GeneratedTokenIsPresent(token: Option<string>, random: seq<byte>)
    requires |random| == TokenBytes
    ensures !IsBlank(GenerateToken(token, random))
  {
    var t := GenerateToken(token, random);
    if Blank(token) {
      assert !IsSpace(t[0]);
    }
  }

  /** The full messages of the validations, in declaration order. */
  function Errors(name: Option<string>, token: string, apps: seq<AppRow>): (errors: seq<string>)
    ensures "Name can't be blank" in errors <==> Blank(name)
    ensures "Token can't be blank" in errors <==> IsBlank(token)
    ensures "Token has already been taken" in errors <==> FindApplicationByToken(apps, token).Some?
    ensures errors == [] <==> !Blank(name) && !IsBlank(token) && FindApplicationByToken(apps, token).None?
  {
    (if Blank(name) then ["Name can't be blank"] else [])
    + (if IsBlank(token) then ["Token can't be blank"] else [])
    + (if FindApplicationByToken(apps, token).Some? then ["Token has already been taken"] else [])
  }

  /**
   * `initialize_redis_counter` as written: `set(key, 0) unless exists(key)`. In
   * redis-rb 5 `exists` answers the count of existing keys, 0 or 1, and both are
   * truthy, so on a reachable server the SET is never issued. Errors are
   * rescued and logged.
   */
  method InitializeRedisCounterAsWritten(h: Handle, s: Server, token: string)
    modifies s`data
    ensures s.data == old(s.data)
  {
    var key := RedisCounterService.ChatCounterKey(token);
    var present := Exists(h, s, key);
    if !present.Raised? && !Truthy(present) {
      var _ := Set(h, s, key, 0);
    }
  }

  /**
   * `initialize_redis_counter` with the boolean `exists?`, as the chat model
   * writes it: 0 is written exactly when the counter is absent, so an existing
   * counter is never overwritten.
   */
  method InitializeRedisCounter(h: Handle, s: Server, token: string)
    modifies s`data
    ensures ModeOf(h, s.up) == Live ==>
      s.data == AfterSetNX(old(s.data), RedisCounterService.ChatCounterKey(token), 0)
    ensures ModeOf(h, s.up) != Live ==> s.data == old(s.data)
  {
    var key := RedisCounterService.ChatCounterKey(token);
    var present := ExistsQ(h, s, key);
    if !present.Raised? && !Truthy(present) {
      var _ := Set(h, s, key, 0);
    }
  }

  /**
   * The omission is invisible to the allocator: INCR counts an absent key as 0,
   * so the first chat number of a new application is 1 either way.
   */
  lemma MissingInitializationIsHarmless(data: map<string, int>, key: string)
    requires key !in data
    ensures Counter(AfterIncr(data, key), key) == Counter(AfterIncr(AfterSetNX(data, key, 0), key), key) == 1
  {
  }

  datatype SaveResult = Created(row: AppRow) | Invalid(errors: seq<string>)

  /**
   * `Application#save` on a new record: `generate_token`, the validations, the
   * insert (with `chats_count` at its default 0), then the `after_create` hook
   * as written, which leaves the key space as it was.
   */
  method Create(h: Handle, s: Server, db: Db, name: Option<string>, token: Option<string>,
                random: seq<byte>, now: Timestamp) returns (r: SaveResult)
    requires db.Valid()
    requires |random| == TokenBytes
    modifies db, s`data
    ensures db.Valid()
    ensures
      var t := GenerateToken(token, random);
      var errors := Errors(name, t, old(db.applications));
      && (errors != [] ==> r == Invalid(errors) && unchanged(db) && s.data == old(s.data))
      && (errors == [] ==>
            && r == Created(AppRow(old(db.nextApplicationId), t, name.value, 0, now))
            && db.applications == old(db.applications) + [r.row]
            && db.nextApplicationId == old(db.nextApplicationId) + 1
            && db.chats == old(db.chats) && db.messages == old(db.messages)
            && db.nextChatId == old(db.nextChatId) && db.nextMessageId == old(db.nextMessageId)
            && s.data == old(s.data))
  {
    var t := GenerateToken(token, random);
    var errors := Errors(name, t, db.applications);
    if errors != [] {
      return Invalid(errors);
    }
    var id := db.InsertApplication(t, name.value, now);
    r := Created(AppRow(id.value, t, name.value, 0, now));
    InitializeRedisCounterAsWritten(h, s, t);
  }
}
