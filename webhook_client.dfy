/** The webhook client's URLs: the client parsed out of a webhook URL, the
    base URL it posts to, and the URLs of the thread, edit and delete
    requests. A URL's path ends at its first `?` and its query is what
    follows, as section 3.4 of RFC 3986 has it; query parameters are
    separated by `&`. */
module WebhookClients {
  import opened Bytes
  import opened JavaStrings
  import opened Json

  /** The URL form `fromUrl` accepts. */
  const API_PREFIX: string := "https://discord.com/api/webhooks/"
  /** The versioned form every request goes to. */
  const BASE_PREFIX: string := "https://discord.com/api/v10/webhooks/"
  const COMPONENTS_PARAM: string := "with_components=true"
  const COMPONENTS_QUERY: string := "?" + COMPONENTS_PARAM
  const THREAD_PARAM: string := "thread_id="
  const MESSAGES_PATH: string := "/messages/"

  /** A client: its id and token, the getters' values. */
  datatype WebhookClient = WebhookClient(webhookId: string, webhookToken: string)

  // ---------------------------------------------------------------------
  // URLs

  /** The part of a URL before its query. */
  function UrlPath(url: string): (p: string)
    ensures '?' !in p
    ensures '?' !in url ==> p == url
  {
    SplitChar2(url, '?')[0]
  }

  /** The query of a URL: everything after its first `?`. */
  function Query(url: string): (q: string)
    ensures '?' in url ==> url == UrlPath(url) + "?" + q
    ensures '?' !in url ==> q == ""
  {
    if '?' in url then SplitChar2(url, '?')[1] else ""
  }

  /** The parameters of a URL's query, in order. */
  function QueryParams(url: string): (params: seq<string>)
    ensures forall k :: 0 <= k < |params| ==> '&' !in params[k]
  {
    CharPieces(Query(url), '&')
  }

  /** A path piece with no query or parameter delimiter in it. */
  predicate Plain(s: string)
  {
    '?' !in s && '&' !in s
  }

  /** A URL with a path, cut at `?`, splits into that path and its query. */
  lemma UrlOf(path: string, query: string)
    requires '?' !in path
    ensures UrlPath(path + "?" + query) == path && Query(path + "?" + query) == query
  {
    assert path + "?" + query == path + ['?'] + query;
    assert (path + "?" + query)[|path|] == '?';
    SplitChar2Of(path, '?', query);
  }

  /** The webhook's resource, without the query. */
  function WebhookPath(c: WebhookClient): string
  {
    BASE_PREFIX + c.webhookId + "/" + c.webhookToken
  }

  /** The fixed prefix of the webhook path holds no `?`. */
  lemma BasePrefixPlain()
    ensures '?' !in BASE_PREFIX
  {
    assert forall k :: 0 <= k < |BASE_PREFIX| ==> BASE_PREFIX[k] != '?';
  }

  /** Neither do the other fixed pieces, nor does any hold a `&`. */
  lemma PiecesPlain()
    ensures Plain("/") && Plain(MESSAGES_PATH) && Plain(COMPONENTS_PARAM) && Plain(THREAD_PARAM)
  {
    assert forall k :: 0 <= k < |COMPONENTS_PARAM| ==> COMPONENTS_PARAM[k] != '?' && COMPONENTS_PARAM[k] != '&';
  }

  lemma WebhookPathPlain(c: WebhookClient)
    requires Plain(c.webhookId) && Plain(c.webhookToken)
    ensures '?' !in WebhookPath(c)
  {
    BasePrefixPlain();
    PiecesPlain();
  }

  /** `path + ("?" + param) + extra + tail` is `path`, `?`, and the query
      `param + extra + tail`. */
  lemma QueryRegroup(path: string, param: string, extra: string, tail: string)
    ensures path + ("?" + param) + extra + tail == path + "?" + (param + extra + tail)
  {
    AppendAssoc(path, "?", param);
    AppendAssoc(path + "?", param, extra);
    AppendAssoc(path + "?", param + extra, tail);
  }

  /** `baseUrl`, fixed by the constructor. */
  function BaseUrl(c: WebhookClient): string
  {
    WebhookPath(c) + COMPONENTS_QUERY
  }

  /** The base URL addresses the webhook itself and asks for components. */
  lemma BaseUrlParts(c: WebhookClient)
    requires Plain(c.webhookId) && Plain(c.webhookToken)
    ensures UrlPath(BaseUrl(c)) == WebhookPath(c)
    ensures QueryParams(BaseUrl(c)) == [COMPONENTS_PARAM]
  {
    WebhookPathPlain(c);
    PiecesPlain();
    AppendAssoc(WebhookPath(c), "?", COMPONENTS_PARAM);
    UrlOf(WebhookPath(c), COMPONENTS_PARAM);
  }

  // ---------------------------------------------------------------------
  // fromUrl

  /** `fromUrl`: every occurrence of the API prefix dropped, the rest split
      on `/`; the first two pieces are the id and the token, fewer than two
      throw `IllegalArgumentException`. */
  function FromUrl(url: string): (r: Result<WebhookClient>)
    ensures r.Ok? <==> |SplitChar(Replace(url, API_PREFIX, ""), '/')| >= 2
    ensures r.Ok? ==> var parts := SplitChar(Replace(url, API_PREFIX, ""), '/');
                      r.value == WebhookClient(parts[0], parts[1])
  {
    var parts := SplitChar(Replace(url, API_PREFIX, ""), '/');
    if |parts| < 2 then Throws else Ok(WebhookClient(parts[0], parts[1]))
  }

  /** Text with at most one `/`, and none next to another, holds no API
      prefix, which has `//` in it. */
  lemma NoPrefixIn(s: string, slash: int)
    requires forall k :: 0 <= k < |s| && s[k] == '/' ==> k == slash
    ensures !Occurs(s, API_PREFIX)
  {
    forall p: nat
      ensures !OccursAt(s, API_PREFIX, p)
    {
      if p + |API_PREFIX| <= |s| {
        var window := s[p..p + |API_PREFIX|];
        assert window[6] == s[p + 6] && window[7] == s[p + 7];
        assert API_PREFIX[6] == '/' && API_PREFIX[7] == '/';
        assert s[p + 6] != '/' || s[p + 7] != '/';
      }
    }
  }

  /** Dropping the prefix from the front of text that holds none of it
      leaves that text. */
  lemma ReplaceApiPrefix(rest: string, slash: int)
    requires forall k :: 0 <= k < |rest| && rest[k] == '/' ==> k == slash
    ensures Replace(API_PREFIX + rest, API_PREFIX, "") == rest
  {
    NoPrefixIn(rest, slash);
    ReplaceLeading(API_PREFIX, rest, "");
    ReplaceAbsent(rest, API_PREFIX, "");
    assert "" + rest == rest;
  }

  /** `id/token` splits into the id and the token. */
  lemma SplitIdToken(id: string, token: string)
    requires '/' !in id && '/' !in token && token != ""
    ensures SplitChar(id + "/" + token, '/') == [id, token]
  {
    var rest := id + "/" + token;
    assert rest == id + ['/'] + token;
    CharPiecesAt(id, token, '/');
    assert CharPieces(token, '/') == [token];
    assert CharPieces(rest, '/') == [id, token];
    DropTrailingEmptyKeeps([id, token], 1);
  }

  /** `fromUrl` reads back the id and the token from a webhook URL. */
  lemma FromUrlOfApiUrl(id: string, token: string)
    requires '/' !in id && '/' !in token && token != ""
    ensures FromUrl(API_PREFIX + id + "/" + token) == Ok(WebhookClient(id, token))
  {
    var rest := id + "/" + token;
    AppendAssoc(API_PREFIX + id, "/", token);
    AppendAssoc(API_PREFIX, id, "/" + token);
    AppendAssoc(id, "/", token);
    assert forall k :: 0 <= k < |id| ==> rest[k] == id[k];
    assert forall k :: |id| < k < |rest| ==> rest[k] == token[k - |id| - 1];
    ReplaceApiPrefix(rest, |id|);
    SplitIdToken(id, token);
  }

  /** A webhook URL with the id alone is refused. */
  lemma FromUrlMissingToken(id: string)
    requires '/' !in id
    ensures FromUrl(API_PREFIX + id) == Throws
  {
    ReplaceApiPrefix(id, -1);
  }

  /** So is one with an empty token: `split` drops the trailing empty
      piece. */
  lemma FromUrlEmptyToken(id: string)
    requires '/' !in id
    ensures FromUrl(API_PREFIX + id + "/") == Throws
  {
    var rest := id + "/";
    AppendAssoc(API_PREFIX, id, "/");
    assert forall k :: 0 <= k < |id| ==> rest[k] == id[k];
    ReplaceApiPrefix(rest, |id|);
    assert rest == id + ['/'] + "";
    CharPiecesAt(id, "", '/');
    assert CharPieces("", '/') == [""];
    assert CharPieces(rest, '/') == [id] + [""];
    DropTrailingEmptyLast([id]);
    assert SplitChar(rest, '/') == DropTrailingEmpty([id]);
  }

  // ---------------------------------------------------------------------
  // The request URLs, as written and as intended

  /** `sendWithThread`'s URL as written: a second `?` after the base URL's
      query. */
  function ThreadUrlAsWritten(c: WebhookClient, threadId: string): string
  {
    BaseUrl(c) + ("?" + THREAD_PARAM) + threadId
  }

  /** As written, `thread_id` is no query parameter: it is swallowed into
      the value of `with_components`. */
  lemma ThreadUrlAsWrittenLosesThread(c: WebhookClient, threadId: string)
    requires Plain(c.webhookId) && Plain(c.webhookToken) && Plain(threadId)
    ensures UrlPath(ThreadUrlAsWritten(c, threadId)) == WebhookPath(c)
    ensures QueryParams(ThreadUrlAsWritten(c, threadId)) == [COMPONENTS_PARAM + ("?" + THREAD_PARAM) + threadId]
    ensures forall k :: 0 <= k < |QueryParams(ThreadUrlAsWritten(c, threadId))| ==>
              !StartsWith(QueryParams(ThreadUrlAsWritten(c, threadId))[k], THREAD_PARAM)
  {
    WebhookPathPlain(c);
    PiecesPlain();
    var q := COMPONENTS_PARAM + ("?" + THREAD_PARAM) + threadId;
    QueryRegroup(WebhookPath(c), COMPONENTS_PARAM, "?" + THREAD_PARAM, threadId);
    UrlOf(WebhookPath(c), q);
    assert '&' !in q;
    assert |THREAD_PARAM| == 10 && THREAD_PARAM[0] == 't';
    assert q[..10][0] == q[0] == COMPONENTS_PARAM[0] == 'w';
    assert QueryParams(ThreadUrlAsWritten(c, threadId)) == [q];
  }

  /** The thread URL with the thread id added to the base URL's query. */
  function ThreadUrl(c: WebhookClient, threadId: string): string
  {
    BaseUrl(c) + ("&" + THREAD_PARAM) + threadId
  }

  /** The intended thread URL keeps the webhook's path and carries both
      parameters. */
  lemma ThreadUrlParts(c: WebhookClient, threadId: string)
    requires Plain(c.webhookId) && Plain(c.webhookToken) && Plain(threadId)
    ensures UrlPath(ThreadUrl(c, threadId)) == WebhookPath(c)
    ensures QueryParams(ThreadUrl(c, threadId)) == [COMPONENTS_PARAM, THREAD_PARAM + threadId]
  {
    WebhookPathPlain(c);
    PiecesPlain();
    var param := THREAD_PARAM + threadId;
    var q := COMPONENTS_PARAM + ("&" + THREAD_PARAM) + threadId;
    QueryRegroup(WebhookPath(c), COMPONENTS_PARAM, "&" + THREAD_PARAM, threadId);
    UrlOf(WebhookPath(c), q);
    AppendAssoc(COMPONENTS_PARAM + "&", THREAD_PARAM, threadId);
    AppendAssoc(COMPONENTS_PARAM, "&", THREAD_PARAM);
    assert q == COMPONENTS_PARAM + ['&'] + param;
    CharPiecesAt(COMPONENTS_PARAM, param, '&');
    assert '&' !in param;
  }

  /** `editMessage`'s and `deleteMessage`'s URL as written: the message path
      after the base URL's query. */
  function MessageUrlAsWritten(c: WebhookClient, messageId: string): string
  {
    BaseUrl(c) + MESSAGES_PATH + messageId
  }

  /** As written, the message path lands in the query: the request goes to
      the webhook itself, for every message id. */
  lemma MessageUrlAsWrittenTargetsWebhook(c: WebhookClient, messageId: string)
    requires Plain(c.webhookId) && Plain(c.webhookToken) && Plain(messageId)
    ensures UrlPath(MessageUrlAsWritten(c, messageId)) == WebhookPath(c)
    ensures QueryParams(MessageUrlAsWritten(c, messageId)) == [COMPONENTS_PARAM + MESSAGES_PATH + messageId]
  {
    WebhookPathPlain(c);
    PiecesPlain();
    var q := COMPONENTS_PARAM + MESSAGES_PATH + messageId;
    QueryRegroup(WebhookPath(c), COMPONENTS_PARAM, MESSAGES_PATH, messageId);
    UrlOf(WebhookPath(c), q);
    assert '&' !in q;
  }

  /** The message URL with the message path before the query. */
  function MessageUrl(c: WebhookClient, messageId: string): string
  {
    WebhookPath(c) + MESSAGES_PATH + messageId + COMPONENTS_QUERY
  }

  /** The intended message URL addresses the message and keeps the query. */
  lemma MessageUrlParts(c: WebhookClient, messageId: string)
    requires Plain(c.webhookId) && Plain(c.webhookToken) && Plain(messageId)
    ensures UrlPath(MessageUrl(c, messageId)) == WebhookPath(c) + MESSAGES_PATH + messageId
    ensures QueryParams(MessageUrl(c, messageId)) == [COMPONENTS_PARAM]
  {
    WebhookPathPlain(c);
    PiecesPlain();
    var path := WebhookPath(c) + MESSAGES_PATH + messageId;
    assert '?' !in path;
    AppendAssoc(path, "?", COMPONENTS_PARAM);
    UrlOf(path, COMPONENTS_PARAM);
  }

  /** Distinct messages get distinct intended URLs. */
  lemma MessageUrlInjective(c: WebhookClient, m1: string, m2: string)
    requires Plain(c.webhookId) && Plain(c.webhookToken) && Plain(m1) && Plain(m2)
    requires MessageUrl(c, m1) == MessageUrl(c, m2)
    ensures m1 == m2
  {
    MessageUrlParts(c, m1);
    MessageUrlParts(c, m2);
    var prefix := WebhookPath(c) + MESSAGES_PATH;
    assert prefix + m1 == prefix + m2;
    assert m1 == (prefix + m1)[|prefix|..];
    assert m2 == (prefix + m2)[|prefix|..];
  }

  // ---------------------------------------------------------------------
  // Requests

  datatype Verb = Post | Patch | Delete

  /** An HTTP request: verb, URL and JSON body, if any. */
  datatype WebhookRequest = WebhookRequest(verb: Verb, url: string, body: Option<Json>)

  /** `send`: the payload posted to the base URL. */
  function Send(c: WebhookClient, payload: Json): WebhookRequest
  {
    WebhookRequest(Post, BaseUrl(c), Some(payload))
  }

  /** `sendWithThread`: the payload posted to the thread URL as written. */
  function SendWithThread(c: WebhookClient, payload: Json, threadId: string): WebhookRequest
  {
    WebhookRequest(Post, ThreadUrlAsWritten(c, threadId), Some(payload))
  }

  /** `editMessage`: the payload patched to the message URL as written. */
  function EditMessage(c: WebhookClient, messageId: string, payload: Json): WebhookRequest
  {
    WebhookRequest(Patch, MessageUrlAsWritten(c, messageId), Some(payload))
  }

  /** `deleteMessage`: a bodiless delete of the message URL as written. */
  function DeleteMessage(c: WebhookClient, messageId: string): WebhookRequest
  {
    WebhookRequest(Delete, MessageUrlAsWritten(c, messageId), None)
  }

  /** What the requests as written address: all four go to the webhook's
      own path; `sendWithThread` carries no `thread_id` parameter, and
      `editMessage` and `deleteMessage` name no message in the path, so
      they act on the webhook whatever the message id. */
  lemma RequestTargets(c: WebhookClient, payload: Json, threadId: string, messageId: string)
    requires Plain(c.webhookId) && Plain(c.webhookToken) && Plain(threadId) && Plain(messageId)
    ensures var r := Send(c, payload);
            r.verb == Post && UrlPath(r.url) == WebhookPath(c) && QueryParams(r.url) == [COMPONENTS_PARAM]
            && r.body == Some(payload)
    ensures var r := SendWithThread(c, payload, threadId);
            r.verb == Post && UrlPath(r.url) == WebhookPath(c) && r.body == Some(payload)
            && forall k :: 0 <= k < |QueryParams(r.url)| ==> !StartsWith(QueryParams(r.url)[k], THREAD_PARAM)
    ensures var r := EditMessage(c, messageId, payload);
            r.verb == Patch && UrlPath(r.url) == WebhookPath(c) && r.body == Some(payload)
    ensures var r := DeleteMessage(c, messageId);
            r.verb == Delete && UrlPath(r.url) == WebhookPath(c) && r.body == None
  {
    BaseUrlParts(c);
    ThreadUrlAsWrittenLosesThread(c, threadId);
    MessageUrlAsWrittenTargetsWebhook(c, messageId);
  }

  /** `sendWithThread` with the intended URL. */
  function SendWithThreadIntended(c: WebhookClient, payload: Json, threadId: string): WebhookRequest
  {
    WebhookRequest(Post, ThreadUrl(c, threadId), Some(payload))
  }

  /** `editMessage` with the intended URL. */
  function EditMessageIntended(c: WebhookClient, messageId: string, payload: Json): WebhookRequest
  {
    WebhookRequest(Patch, MessageUrl(c, messageId), Some(payload))
  }

  /** `deleteMessage` with the intended URL. */
  function DeleteMessageIntended(c: WebhookClient, messageId: string): WebhookRequest
  {
    WebhookRequest(Delete, MessageUrl(c, messageId), None)
  }

  /** What the intended requests address: `sendWithThread` posts to the
      webhook naming the thread; `editMessage` patches and `deleteMessage`
      deletes the message, the delete without a body. */
  lemma RequestTargetsIntended(c: WebhookClient, payload: Json, threadId: string, messageId: string)
    requires Plain(c.webhookId) && Plain(c.webhookToken) && Plain(threadId) && Plain(messageId)
    ensures var r := SendWithThreadIntended(c, payload, threadId);
            r.verb == Post && UrlPath(r.url) == WebhookPath(c) && THREAD_PARAM + threadId in QueryParams(r.url)
            && r.body == Some(payload)
    ensures var r := EditMessageIntended(c, messageId, payload);
            r.verb == Patch && UrlPath(r.url) == WebhookPath(c) + MESSAGES_PATH + messageId && r.body == Some(payload)
    ensures var r := DeleteMessageIntended(c, messageId);
            r.verb == Delete && UrlPath(r.url) == WebhookPath(c) + MESSAGES_PATH + messageId && r.body == None
  {
    ThreadUrlParts(c, threadId);
    MessageUrlParts(c, messageId);
    assert QueryParams(ThreadUrl(c, threadId))[1] == THREAD_PARAM + threadId;
  }
}
