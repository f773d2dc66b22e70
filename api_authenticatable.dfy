/**
 * `ApiAuthenticatable`: a `before_action` on every API controller except the
 * health controller. It lets a request through when its `X-API-Key` header
 * is one of the keys configured in the environment, and otherwise renders 401.
 * The environment variables are inputs here.
 */
module ApiAuthenticatable {
  import opened Common
  import opened Text
  import opened Http

  /** The separator of `API_KEYS`. */
  const Separator: char := ','

  /**
   * The fields between separators, every one kept: `n` separators give
   * `n + 1` fields, the empty text one empty field.
   */
  function Fields(s: string): (fs: seq<string>)
    ensures |fs| >= 1
    ensures forall f :: f in fs ==> Separator !in f
    decreases |s|
  {
    if s == [] then [[]]
    else
      var fs := Fields(s[..|s| - 1]);
      if s[|s| - 1] == Separator then fs + [[]]
      else fs[..|fs| - 1] + [fs[|fs| - 1] + [s[|s| - 1]]]
  }

  /** The fields glued back together, one separator between two neighbours. */
  function Join(fs: seq<string>): string
    requires |fs| >= 1
  {
    if |fs| == 1 then fs[0] else Join(fs[..|fs| - 1]) + [Separator] + fs[|fs| - 1]
  }

  /** A new empty field adds one separator. */
  lemma JoinAppendEmpty(fs: seq<string>)
    requires |fs| >= 1
    ensures Join(fs + [[]]) == Join(fs) + [Separator]
  {
    assert (fs + [[]])[..|fs|] == fs;
  }

  /** A character added to the last field is added at the end of the text. */
  lemma JoinExtendLast(fs: seq<string>, c: char)
    requires |fs| >= 1
    ensures Join(fs[..|fs| - 1] + [fs[|fs| - 1] + [c]]) == Join(fs) + [c]
  {
    var gs := fs[..|fs| - 1] + [fs[|fs| - 1] + [c]];
    if |fs| > 1 {
      assert gs[..|gs| - 1] == fs[..|fs| - 1];
    }
  }

  /** The fields lose nothing: joining them gives the text back. */
  lemma {:induction false} JoinFields(s: string)
    ensures Join(Fields(s)) == s
    decreases |s|
  {
    if s != [] {
      var p, c := s[..|s| - 1], s[|s| - 1];
      assert s == p + [c];
      JoinFields(p);
      if c == Separator {
        JoinAppendEmpty(Fields(p));
      } else {
        JoinExtendLast(Fields(p), c);
      }
    }
  }

  /** Ruby's `Array` with its trailing empty strings removed. */
  function DropTrailingEmpty(fs: seq<string>): (r: seq<string>)
    ensures r == [] || r[|r| - 1] != []
    ensures forall k :: k != [] ==> (k in r <==> k in fs)
    ensures forall f :: f in r ==> f in fs
  {
    if fs != [] && fs[|fs| - 1] == [] then DropTrailingEmpty(fs[..|fs| - 1]) else fs
  }

  /** `String#split(',')`: the fields, without the trailing empty ones; `"".split(',')` is `[]`. */
  function RubySplit(s: string): (keys: seq<string>)
    ensures keys == [] || keys[|keys| - 1] != []
    ensures forall k :: k != [] ==> (k in keys <==> k in Fields(s))
    ensures forall k :: k in keys ==> Separator !in k
  {
    DropTrailingEmpty(Fields(s))
  }

  /** An empty `API_KEYS` contributes no keys. */
  lemma EmptyKeyListHasNoKeys()
    ensures RubySplit("") == []
  {
  }

  /**
   * `valid_api_key?`: one of the keys of `API_KEYS` (empty when unset), or
   * equal to `MASTER_API_KEY`; an unset master key equals no string.
   */
  predicate ValidApiKey(key: string, apiKeys: Option<string>, masterApiKey: Option<string>) {
    key in RubySplit(apiKeys.GetOr("")) || masterApiKey == Some(key)
  }

  /** A non-empty key is valid iff it is a whole field of `API_KEYS` or the master key. */
  lemma ValidApiKeyIsAField(key: string, apiKeys: Option<string>, masterApiKey: Option<string>)
    requires key != []
    ensures ValidApiKey(key, apiKeys, masterApiKey) <==>
      key in Fields(apiKeys.GetOr("")) || masterApiKey == Some(key)
  {
  }

  /** No valid key contains the separator unless it is the master key. */
  lemma ListedKeysHaveNoSeparator(key: string, apiKeys: Option<string>, masterApiKey: Option<string>)
    requires ValidApiKey(key, apiKeys, masterApiKey)
    requires Separator in key
    ensures masterApiKey == Some(key)
  {
  }

  /** The 401 the guard renders. */
  const UnauthorizedResponse: Response :=
    Response(Unauthorized, Error("Unauthorized", Some("Invalid or missing API key. Include X-API-Key header."), None))

  /** The configuration the guard reads: `Rails.env` and three environment variables. */
  datatype Environment = Environment(
    railsEnv: string,
    skipApiKeyCheck: Option<string>,
    apiKeys: Option<string>,
    masterApiKey: Option<string>)

  /**
   * `verify_api_key`: None lets the request through, Some is the response
   * rendered instead, which halts the action.
   */
  function VerifyApiKey(env: Environment, apiKey: Option<string>): (halt: Option<Response>)
    ensures halt.None? <==>
      (env.railsEnv == "development" && env.skipApiKeyCheck == Some("true"))
      || (!Blank(apiKey) && ValidApiKey(apiKey.value, env.apiKeys, env.masterApiKey))
    ensures halt.Some? ==> halt.value == UnauthorizedResponse
  {
    if env.railsEnv == "development" && env.skipApiKeyCheck == Some("true") then None
    else if !Blank(apiKey) && ValidApiKey(apiKey.value, env.apiKeys, env.masterApiKey) then None
    else Some(UnauthorizedResponse)
  }

  /** With no key configured at all, every request outside the development skip is refused. */
  lemma NothingConfiguredRefusesAll(env: Environment, apiKey: Option<string>)
    requires env.apiKeys.None? || env.apiKeys == Some("")
    requires env.masterApiKey.None?
    requires !(env.railsEnv == "development" && env.skipApiKeyCheck == Some("true"))
    ensures VerifyApiKey(env, apiKey) == Some(UnauthorizedResponse)
  {
    EmptyKeyListHasNoKeys();
  }

  /** `health_check?`: the `before_action` is skipped for the health controller. */
  predicate HealthCheck(controllerName: string) {
    controllerName == "health"
  }

  /** The `before_action` as installed: skipped for health, `verify_api_key` elsewhere. */
  function BeforeAction(controllerName: string, env: Environment, apiKey: Option<string>): (halt: Option<Response>)
    ensures HealthCheck(controllerName) ==> halt.None?
    ensures !HealthCheck(controllerName) ==> halt == VerifyApiKey(env, apiKey)
  {
    if HealthCheck(controllerName) then None else VerifyApiKey(env, apiKey)
  }
}
