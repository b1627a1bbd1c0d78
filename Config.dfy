/** Start-up configuration of the bot: the guard on the two environment
    variables and the construction of the webhook path and URL. */
module Config {
  import opened Wrappers

  /** Why the bot refuses to start. */
  datatype ConfigError = MissingToken | MissingHost

  /** The settings the start-up guard yields once both variables are present. */
  datatype Settings = Settings(token: string, host: string, webhookPath: string, webhookUrl: string)

  const WebhookPrefix: string := "/webhook/"

  /** An environment variable counts as set when it exists and is not the
      empty string (the truthiness test `if not VALUE`). */
  predicate Present(v: Option<string>)
  {
    v.Some? && v.value != ""
  }

  predicate EndsWithSlash(s: string)
  {
    |s| > 0 && s[|s| - 1] == '/'
  }

  predicate AllSlashes(s: string)
  {
    forall i :: 0 <= i < |s| ==> s[i] == '/'
  }

  /** `n` slash characters. */
  function Slashes(n: nat): (s: string)
    ensures |s| == n && AllSlashes(s)
  {
    if n == 0 then "" else Slashes(n - 1) + "/"
  }

  /** `s.rstrip('/')`: the longest prefix of `s` that does not end in '/',
      everything after it being slashes. */
  function StripTrailingSlashes(s: string): (r: string)
    ensures r <= s
    ensures !EndsWithSlash(r)
    ensures AllSlashes(s[|r|..])
    decreases |s|
  {
    if EndsWithSlash(s) then StripTrailingSlashes(s[..|s| - 1]) else s
  }

  /** The three properties of StripTrailingSlashes determine its result. */
  lemma {:induction false} StripTrailingSlashesUnique(s: string, r: string)
    requires r <= s && !EndsWithSlash(r) && AllSlashes(s[|r|..])
    ensures r == StripTrailingSlashes(s)
    decreases |s|
  {
    if EndsWithSlash(s) {
      var t := s[..|s| - 1];
      assert r != s;
      assert r <= t;
      assert AllSlashes(t[|r|..]) by {
        forall i | 0 <= i < |t[|r|..]| ensures t[|r|..][i] == '/' {
          assert t[|r|..][i] == s[|r|..][i];
        }
      }
      StripTrailingSlashesUnique(t, r);
    }
  }

  /** Stripping twice is stripping once. */
  lemma StripTrailingSlashesIdempotent(s: string)
    ensures StripTrailingSlashes(StripTrailingSlashes(s)) == StripTrailingSlashes(s)
  {
    var r := StripTrailingSlashes(s);
    StripTrailingSlashesUnique(r, r);
  }

  /** Extra trailing slashes on the input do not change the result. */
  lemma StripTrailingSlashesIgnoresExtraSlashes(s: string, n: nat)
    ensures StripTrailingSlashes(s + Slashes(n)) == StripTrailingSlashes(s)
  {
    var r := StripTrailingSlashes(s);
    var t := s + Slashes(n);
    assert r <= t;
    assert t[|r|..] == s[|r|..] + Slashes(n);
    StripTrailingSlashesUnique(t, r);
  }

  /** WEBHOOK_PATH: the token behind the fixed prefix. */
  function WebhookPath(token: string): (p: string)
    ensures |p| == |WebhookPrefix| + |token|
    ensures p[..|WebhookPrefix|] == WebhookPrefix && p[|WebhookPrefix|..] == token
  {
    WebhookPrefix + token
  }

  /** WEBHOOK_URL: the host without its trailing slashes, then the webhook
      path. The base in front of the path is a prefix of the host that does
      not end in '/', and only slashes of the host are dropped. */
  function WebhookUrl(host: string, token: string): (url: string)
    ensures |url| >= |WebhookPath(token)|
    ensures url[|url| - |WebhookPath(token)|..] == WebhookPath(token)
    ensures var base := url[..|url| - |WebhookPath(token)|];
      base <= host && !EndsWithSlash(base) && AllSlashes(host[|base|..])
  {
    var base := StripTrailingSlashes(host);
    var url := base + WebhookPath(token);
    assert url[..|base|] == base;
    url
  }

  /** Adding trailing slashes to the host does not change WEBHOOK_URL. */
  lemma WebhookUrlIgnoresTrailingSlashes(host: string, token: string, n: nat)
    ensures WebhookUrl(host + Slashes(n), token) == WebhookUrl(host, token)
  {
    StripTrailingSlashesIgnoresExtraSlashes(host, n);
  }

  /** The webhook URL is fixed by its base and path: two hosts give the same
      URL exactly when they agree once trailing slashes are stripped. */
  lemma WebhookUrlEqualIff(h1: string, h2: string, token: string)
    ensures WebhookUrl(h1, token) == WebhookUrl(h2, token)
        <==> StripTrailingSlashes(h1) == StripTrailingSlashes(h2)
  {
    var p := WebhookPath(token);
    var u1, u2 := WebhookUrl(h1, token), WebhookUrl(h2, token);
    if u1 == u2 {
      assert StripTrailingSlashes(h1) == u1[..|u1| - |p|];
      assert StripTrailingSlashes(h2) == u2[..|u2| - |p|];
    }
  }

  /** The module-level start-up guard: BOT_TOKEN is checked before
      WEBHOOK_HOST, and either one missing or empty refuses to start. Passing
      the guard is necessary for the bot to start, not sufficient: the
      Telegram library's own checks come later. */
  function Load(token: Option<string>, host: Option<string>): (r: Result<Settings, ConfigError>)
    ensures r.Success? <==> Present(token) && Present(host)
    ensures !Present(token) ==> r == Failure(MissingToken)
    ensures Present(token) && !Present(host) ==> r == Failure(MissingHost)
    ensures r.Success? ==>
      && r.value.token == token.value && r.value.host == host.value
      && r.value.webhookPath == WebhookPath(token.value)
      && r.value.webhookUrl == WebhookUrl(host.value, token.value)
  {
    if !Present(token) then Failure(MissingToken)
    else if !Present(host) then Failure(MissingHost)
    else Success(Settings(token.value, host.value, WebhookPath(token.value),
                          WebhookUrl(host.value, token.value)))
  }

  /** The URL the webhook is registered at ends with the path the server
      listens on. */
  lemma LoadedUrlEndsWithPath(token: Option<string>, host: Option<string>)
    requires Load(token, host).Success?
    ensures var s := Load(token, host).value;
      |s.webhookUrl| >= |s.webhookPath| && s.webhookUrl[|s.webhookUrl| - |s.webhookPath|..] == s.webhookPath
  {
  }
}
