/** Two rules of internal/api/handler.go, taken out of their HTTP and
    goroutine context: the webhook token check of `AuthMiddleware`, and the
    username clean-up and GitHub-token choice of `processWebhookAsync`. */
module Handler {
  import opened Wrappers
  import Config

  // ----- webhook authorisation -----

  const BearerPrefix: string := "Bearer "

  /** `strings.TrimPrefix`: drops `prefix` once if `s` starts with it. */
  function TrimPrefix(s: string, prefix: string): (r: string)
    ensures prefix <= s ==> s == prefix + r
    ensures !(prefix <= s) ==> r == s
  {
    if prefix <= s then s[|prefix|..] else s
  }

  /** The check of `AuthMiddleware`: the Authorization header, with one leading
      "Bearer " removed, must equal the configured webhook token. A missing
      header reads as "". */
  function Authorized(header: string, webhookToken: string): (ok: bool)
    ensures ok <==> header == BearerPrefix + webhookToken
                    || (!(BearerPrefix <= header) && header == webhookToken)
  {
    var presented := TrimPrefix(header, BearerPrefix);
    assert BearerPrefix <= BearerPrefix + webhookToken;
    assert (BearerPrefix + webhookToken)[|BearerPrefix|..] == webhookToken;
    presented == webhookToken
  }

  /** Only one "Bearer " is removed: a doubled prefix is compared with the second
      one still in place. */
  lemma {:induction false} OneBearerRemoved(token: string)
    ensures Authorized("Bearer Bearer " + token, "Bearer " + token)
    ensures !Authorized("Bearer Bearer " + token, token)
  {
    assert "Bearer Bearer " + token == BearerPrefix + ("Bearer " + token);
    assert |"Bearer Bearer " + token| != |BearerPrefix + token|;
    assert BearerPrefix <= "Bearer Bearer " + token;
  }

  /** With no webhook token configured, a request without an Authorization
      header passes. */
  lemma MissingHeaderPassesEmptyToken()
    ensures Authorized("", "")
  {
  }

  // ----- username clean-up -----

  /** Go's `unicode.IsSpace`. */
  predicate IsSpace(c: char) {
    || c == '\t' || c == '\n' || c == '\U{000B}' || c == '\U{000C}' || c == '\r' || c == ' '
    || c == '\U{0085}' || c == '\U{00A0}' || c == '\U{1680}'
    || ('\U{2000}' <= c <= '\U{200A}')
    || c == '\U{2028}' || c == '\U{2029}' || c == '\U{202F}' || c == '\U{205F}' || c == '\U{3000}'
  }

  /** Below U+0080, `IsSpace` is the ASCII white-space table that
      `strings.TrimSpace` checks first: space, and tab through carriage return. */
  lemma AsciiSpace(c: char)
    requires c < '\U{0080}'
    ensures IsSpace(c) <==> c == ' ' || '\t' <= c <= '\r'
  {
  }

  /** How many white-space characters `s` starts with. */
  function LeadingSpace(s: string): (n: nat)
    ensures n <= |s|
    ensures forall k :: 0 <= k < n ==> IsSpace(s[k])
    ensures n < |s| ==> !IsSpace(s[n])
  {
    if s == [] || !IsSpace(s[0]) then 0 else 1 + LeadingSpace(s[1..])
  }

  /** Where the white space that `s` ends with starts. */
  function TrailingSpace(s: string): (n: nat)
    ensures n <= |s|
    ensures forall k :: n <= k < |s| ==> IsSpace(s[k])
    ensures 0 < n ==> !IsSpace(s[n - 1])
  {
    if s == [] || !IsSpace(s[|s| - 1]) then |s| else TrailingSpace(s[..|s| - 1])
  }

  /** `strings.TrimSpace`: `s` without leading and trailing white space. What
      is left is a stretch of `s` with only white space around it, and starts
      and ends with a character that is not white space. */
  function TrimSpace(s: string): (r: string)
    ensures var i := LeadingSpace(s);
      && i + |r| <= |s| && r == s[i..i + |r|]
      && (forall k :: 0 <= k < i ==> IsSpace(s[k]))
      && (forall k :: i + |r| <= k < |s| ==> IsSpace(s[k]))
    ensures r != [] ==> !IsSpace(r[0]) && !IsSpace(r[|r| - 1])
  {
    var i := LeadingSpace(s);
    var j := TrailingSpace(s[i..]);
    SpaceAfter(s, i, j);
    assert s[i..][..j] == s[i..i + j];
    s[i..][..j]
  }

  /** The white space that ends `s[i..]` from index `j` on ends `s` from `i + j` on. */
  lemma SpaceAfter(s: string, i: nat, j: nat)
    requires i <= |s| && j <= |s| - i
    requires forall k :: j <= k < |s| - i ==> IsSpace(s[i..][k])
    ensures forall k :: i + j <= k < |s| ==> IsSpace(s[k])
  {
    forall k | i + j <= k < |s|
      ensures IsSpace(s[k])
    {
      assert s[k] == s[i..][k - i];
    }
  }

  /** Trimming twice trims nothing more. */
  lemma TrimSpaceIdempotent(s: string)
    ensures TrimSpace(TrimSpace(s)) == TrimSpace(s)
  {
    var r := TrimSpace(s);
    if r != [] {
      assert LeadingSpace(r) == 0;
      assert TrailingSpace(r[0..]) == |r|;
      assert r[0..][..|r|] == r;
    }
  }

  // ----- GitHub token choice -----

  /** The index of the first entry configured for `username`, if any. */
  function FirstMatch(tokens: seq<Config.GitHubToken>, username: string): (i: Option<nat>)
    ensures i.Some? ==> i.value < |tokens| && tokens[i.value].username == username
    ensures i.Some? ==> forall k :: 0 <= k < i.value ==> tokens[k].username != username
    ensures i.None? ==> forall k :: 0 <= k < |tokens| ==> tokens[k].username != username
  {
    if tokens == [] then None
    else if tokens[0].username == username then Some(0)
    else
      match FirstMatch(tokens[1..], username)
      case None => None
      case Some(j) => Some(j + 1)
  }

  datatype TokenError = NoGitHubTokenConfigured

  /** The token the webhook job fetches with: the first entry configured for
      `username` when its token is not empty, otherwise the first entry's
      token; an error when that too is missing or empty. */
  function TokenFor(tokens: seq<Config.GitHubToken>, username: string): (r: Result<string, TokenError>)
    ensures r.Ok? ==> r.value != ""
    ensures var m := FirstMatch(tokens, username);
      m.Some? && tokens[m.value].token != "" ==> r == Ok(tokens[m.value].token)
    ensures var m := FirstMatch(tokens, username);
      m.None? || tokens[m.value].token == "" ==>
        r == if |tokens| > 0 && tokens[0].token != "" then Ok(tokens[0].token) else Err(NoGitHubTokenConfigured)
    ensures |tokens| == 0 ==> r == Err(NoGitHubTokenConfigured)
  {
    var m := FirstMatch(tokens, username);
    var matched := if m.Some? then tokens[m.value].token else "";
    var token := if matched == "" && |tokens| > 0 then tokens[0].token else matched;
    if token == "" then Err(NoGitHubTokenConfigured) else Ok(token)
  }

  /** The token search of `processWebhookAsync`: scan for the user's entry and
      stop at the first, then fall back to the first entry. */
  method SelectToken(tokens: seq<Config.GitHubToken>, username: string) returns (r: Result<string, TokenError>)
    ensures r == TokenFor(tokens, username)
  {
    var token := "";
    var i := 0;
    while i < |tokens|
      invariant 0 <= i <= |tokens|
      invariant forall k :: 0 <= k < i ==> tokens[k].username != username
      invariant token == ""
    {
      if tokens[i].username == username {
        token := tokens[i].token;
        break;
      }
      i := i + 1;
    }
    if token == "" && |tokens| > 0 {
      token := tokens[0].token;
    }
    if token == "" {
      return Err(NoGitHubTokenConfigured);
    }
    return Ok(token);
  }

  /** The username clean-up and token choice of `processWebhookAsync`: the name
      the LLM extracted is trimmed, and the trimmed name picks the token. */
  method ResolveToken(extracted: string, tokens: seq<Config.GitHubToken>)
    returns (username: string, r: Result<string, TokenError>)
    ensures username == TrimSpace(extracted)
    ensures r == TokenFor(tokens, TrimSpace(extracted))
  {
    username := TrimSpace(extracted);
    r := SelectToken(tokens, username);
  }

  /** A configuration that validates has a token list, so the choice can only
      fail when the entries it looks at hold empty tokens. */
  lemma ValidatedConfigSelects(c: Config.Config, username: string)
    requires Config.Validate(c).None?
    requires c.gitHub.tokens[0].token != ""
    ensures TokenFor(c.gitHub.tokens, username).Ok?
  {
  }

  /** `Validate` does not look inside the token entries: a configuration that
      validates, whose first token is empty and whose entries for `username`
      hold only empty tokens, still leaves the webhook job without a token. */
  lemma ValidatedConfigMayLackToken(c: Config.Config, username: string)
    requires Config.Validate(c).None?
    requires c.gitHub.tokens[0].token == ""
    requires forall k :: 0 <= k < |c.gitHub.tokens| && c.gitHub.tokens[k].username == username ==>
               c.gitHub.tokens[k].token == ""
    ensures TokenFor(c.gitHub.tokens, username) == Err(NoGitHubTokenConfigured)
  {
  }

  /** Such a configuration exists: one entry with an empty token passes `Validate`. */
  lemma EmptyTokenValidates()
    ensures var c := Config.Config(Config.GitHubConfig([Config.GitHubToken("", "alice")]),
                                   Config.LLMConfig("openai", "key", "", "", ""));
      Config.Validate(c).None? && TokenFor(c.gitHub.tokens, "alice") == Err(NoGitHubTokenConfigured)
  {
  }
}
