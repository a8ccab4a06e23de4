/** The analyser worker's request/reply logic: reading the `api` configuration at start,
    turning an inbound article into one text-analytics request, merging the first analysed
    document back into the article, and choosing the reply. The HTTP exchange is an input. */
module NewsAnalyserWorker {
  import opened Wrappers
  import opened Json
  import opened JavaLang

  const DefaultPort: int32 := 443
  const InvalidRequest: string := "Invalid Request"
  const JsonContentType: string := "application/json; charset=UTF-8"
  const ContentTypeHeader: string := "Content-Type"
  const ContentLengthHeader: string := "Content-Length"
  const SubscriptionKeyHeader: string := "Ocp-Apim-Subscription-Key"

  /** The four fields `start()` assigns from the `api` configuration; `None` is a Java null. */
  datatype ApiSettings = ApiSettings(apiKey: Option<string>, baseUrl: Option<string>, urlPath: Option<string>, port: Option<int32>)

  /** Why `start()` throws: no `api` object ("Could not load analyser configuration"), or a
      configuration value of the wrong type. */
  datatype StartError = MissingApiConfig | ConfigRead(thrown: JavaException)

  /** The fields after `start()`, and what it threw, if anything. */
  datatype Started = Started(settings: ApiSettings, error: Option<StartError>)

  /** `start()` on `config` with the fields at `before`: each field is assigned, in source
      order, once its value has been read, so a read that throws leaves the later ones. */
  function AfterStart(config: Obj, before: ApiSettings): (r: Started)
    ensures GetJsonObject(config, "api") == Success(None) ==> r == Started(before, Some(MissingApiConfig))
    ensures GetJsonObject(config, "api").Failure? ==> r == Started(before, Some(ConfigRead(ClassCast)))
    ensures r.error.None? <==>
      && "api" in config && config["api"].Object?
      && GetStringOr(config["api"].fields, "key", "").Success?
      && GetStringOr(config["api"].fields, "base.url", "").Success?
      && GetStringOr(config["api"].fields, "url.path", "").Success?
      && GetIntegerOr(config["api"].fields, "port", DefaultPort).Success?
    ensures r.error.None? ==> var api := config["api"].fields;
      r.settings == ApiSettings(
        GetStringOr(api, "key", "").value, GetStringOr(api, "base.url", "").value,
        GetStringOr(api, "url.path", "").value, GetIntegerOr(api, "port", DefaultPort).value)
    ensures r.error.Some? ==> r.settings.port == before.port
    ensures r.error == Some(MissingApiConfig) <==> GetJsonObject(config, "api") == Success(None)
    ensures r.error.Some? && r.error != Some(MissingApiConfig) ==> r.error == Some(ConfigRead(ClassCast))
    ensures "api" in config && config["api"].Object? ==> var api := config["api"].fields;
      var key, baseUrl, urlPath := GetStringOr(api, "key", ""), GetStringOr(api, "base.url", ""), GetStringOr(api, "url.path", "");
      && r.settings.apiKey == (if key.Success? then key.value else before.apiKey)
      && r.settings.baseUrl == (if key.Success? && baseUrl.Success? then baseUrl.value else before.baseUrl)
      && r.settings.urlPath == (if key.Success? && baseUrl.Success? && urlPath.Success? then urlPath.value else before.urlPath)
  {
    match GetJsonObject(config, "api")
    case Failure(e) => Started(before, Some(ConfigRead(e)))
    case Success(None) => Started(before, Some(MissingApiConfig))
    case Success(Some(api)) =>
      match GetStringOr(api, "key", "")
      case Failure(e) => Started(before, Some(ConfigRead(e)))
      case Success(key) =>
        var s1 := before.(apiKey := key);
        match GetStringOr(api, "base.url", "")
        case Failure(e) => Started(s1, Some(ConfigRead(e)))
        case Success(baseUrl) =>
          var s2 := s1.(baseUrl := baseUrl);
          match GetStringOr(api, "url.path", "")
          case Failure(e) => Started(s2, Some(ConfigRead(e)))
          case Success(urlPath) =>
            var s3 := s2.(urlPath := urlPath);
            match GetIntegerOr(api, "port", DefaultPort)
            case Failure(e) => Started(s3, Some(ConfigRead(e)))
            case Success(port) => Started(s3.(port := port), None)
  }

  /** An `api` object naming none of the four keys gives the empty strings and port 443. */
  lemma StartDefaults(config: Obj, before: ApiSettings)
    requires "api" in config && config["api"].Object?
    requires var api := config["api"].fields; "key" !in api && "base.url" !in api && "url.path" !in api && "port" !in api
    ensures AfterStart(config, before) == Started(ApiSettings(Some(""), Some(""), Some(""), Some(DefaultPort)), None)
  {
  }

  /** What `String.join` prints for a possibly null string. */
  function Rendered(s: Option<string>): (r: string)
    ensures s.Some? ==> r == s.value
    ensures s.None? ==> r == "null"
  {
    if s.Some? then s.value else "null"
  }

  /** The article read from the message body: `body.getJsonObject("article")`, which the next
      line dereferences, so a null body or a null article fails as well as a non-object one. */
  function ArticleOf(body: Option<Obj>): (r: Result<Obj, JavaException>)
    ensures r.Success? <==> body.Some? && "article" in body.value && body.value["article"].Object?
    ensures r.Success? ==> body.value["article"] == Object(r.value)
  {
    if body.None? then Failure(NullPointer)
    else match GetJsonObject(body.value, "article")
      case Failure(e) => Failure(e)
      case Success(None) => Failure(NullPointer)
      case Success(Some(article)) => Success(article)
  }

  /** The analysis text: the article's `name` and `description` joined by ". ", where a missing
      or null field prints as "null" and a non-string one throws. */
  function AnalysisText(article: Obj): (r: Result<string, JavaException>)
    ensures r.Success? <==> GetString(article, "name").Success? && GetString(article, "description").Success?
    ensures r.Success? ==>
      var name := Rendered(GetString(article, "name").value);
      var description := Rendered(GetString(article, "description").value);
      && |r.value| == |name| + 2 + |description|
      && r.value[..|name|] == name
      && r.value[|name|..|name| + 2] == ". "
      && r.value[|name| + 2..] == description
  {
    match (GetString(article, "name"), GetString(article, "description"))
    case (Success(name), Success(description)) => Success(Rendered(name) + ". " + Rendered(description))
    case (Failure(e), _) => Failure(e)
    case (_, Failure(e)) => Failure(e)
  }

  /** The outbound body: a `documents` array holding exactly one document, with language "en",
      the given fresh id, and the analysis text. */
  function RequestData(documentId: string, text: string): (r: Value)
    ensures r.Object? && r.fields.Keys == {"documents"}
    ensures r.fields["documents"].Arr? && |r.fields["documents"].items| == 1
    ensures var document := r.fields["documents"].items[0];
      && document.Object?
      && document.fields.Keys == {"language", "id", "text"}
      && document.fields["language"] == Str("en")
      && document.fields["id"] == Str(documentId)
      && document.fields["text"] == Str(text)
  {
    Object(map["documents" := Arr([Object(map["language" := Str("en"), "id" := Str(documentId), "text" := Str(text)])])])
  }

  /** A POST request as handed to the HTTP client: port, host, path, headers (a header value
      may be a Java null) and the body bytes. */
  datatype PostRequest = PostRequest(
    port: int32,
    host: Option<string>,
    uri: Option<string>,
    headers: map<string, Option<string>>,
    body: seq<bv8>)

  /** `httpClient.request(POST, port, baseUrl, urlPath)` with its three headers, carrying the
      request data as `encode` (`Buffer.buffer(data.encode())`) turns it into bytes. A null
      `port` is unboxed into an `int` parameter and throws. */
  function Outbound(settings: ApiSettings, data: Value, encode: Value -> seq<bv8>): (r: Result<PostRequest, JavaException>)
    ensures r.Success? <==> settings.port.Some?
    ensures r.Failure? ==> r.error == NullPointer
    ensures r.Success? ==>
      && r.value.port == settings.port.value
      && r.value.host == settings.baseUrl
      && r.value.uri == settings.urlPath
      && r.value.body == encode(data)
      && r.value.headers.Keys == {ContentTypeHeader, ContentLengthHeader, SubscriptionKeyHeader}
      && r.value.headers[ContentTypeHeader] == Some(JsonContentType)
      && r.value.headers[SubscriptionKeyHeader] == settings.apiKey
      && r.value.headers[ContentLengthHeader].Some?
      && IsDigits(r.value.headers[ContentLengthHeader].value)
      && ParseDecimal(r.value.headers[ContentLengthHeader].value) == |r.value.body|
  {
    if settings.port.None? then Failure(NullPointer)
    else
      var chunk := encode(data);
      ParseDecimalOfDecimal(|chunk|);
      Success(PostRequest(settings.port.value, settings.baseUrl, settings.urlPath,
        map[ContentTypeHeader := Some(JsonContentType),
            ContentLengthHeader := Some(Decimal(|chunk|)),
            SubscriptionKeyHeader := settings.apiKey],
        chunk))
  }

  /** `analysisResponse.getJsonArray("documents").getJsonObject(0)`: the first analysed
      document, or the exception a missing, non-array or empty `documents`, or a non-object
      first element, raises. A JSON null first element reads as null and is stored as such. */
  function SentimentOf(response: Obj): (r: Result<Value, JavaException>)
    ensures r.Success? <==>
      && "documents" in response && response["documents"].Arr?
      && |response["documents"].items| > 0
      && (response["documents"].items[0].Null? || response["documents"].items[0].Object?)
    ensures r.Success? ==> r.value == response["documents"].items[0]
    ensures "documents" !in response || response["documents"].Null? ==> r == Failure(NullPointer)
    ensures "documents" in response && !response["documents"].Null? && !response["documents"].Arr? ==> r == Failure(ClassCast)
    ensures "documents" in response && response["documents"].Arr? && |response["documents"].items| == 0 ==>
      r == Failure(IndexOutOfBounds)
    ensures && "documents" in response && response["documents"].Arr? && |response["documents"].items| > 0
            && !response["documents"].items[0].Null? && !response["documents"].items[0].Object?
            ==> r == Failure(ClassCast)
  {
    match GetJsonArray(response, "documents")
    case Failure(e) => Failure(e)
    case Success(None) => Failure(NullPointer)
    case Success(Some(documents)) =>
      match ArrayGetJsonObject(documents, 0)
      case Failure(e) => Failure(e)
      case Success(document) => Success(FromNullable(document))
  }

  /** How the HTTP exchange ended, as the response pipeline delivers it: the response JSON,
      or a failure with its message. */
  datatype Exchange = Responded(response: Obj) | Errored(message: Option<string>)

  /** The message passed to `fail`: a known text, or an exception's own message. */
  datatype FailureMessage = Text(text: Option<string>) | ExceptionMessage(thrown: JavaException)

  /** The one answer to a bus message: `reply(article)` or `fail(code, message)`. */
  datatype Reply = Reply(article: Obj) | Fail(code: int, message: FailureMessage)

  /** The request sent, if any, and the reply. */
  datatype Handled = Handled(sent: Option<PostRequest>, reply: Reply)

  /** The inbound body can be read: an article object whose name and description are strings,
      null or missing. */
  predicate ReadableInbound(body: Option<Obj>) {
    ArticleOf(body).Success? && AnalysisText(ArticleOf(body).value).Success?
  }

  /** The message handler. Anything thrown before the request is issued fails the message with
      code 2 and "Invalid Request"; every failure of the response pipeline fails it with code 1
      and that failure's message; otherwise the reply is the article with the first analysed
      document under "sentiment". */
  function Processed(settings: ApiSettings, body: Option<Obj>, documentId: string,
                     encode: Value -> seq<bv8>, exchange: Exchange): (r: Handled)
    ensures r.sent.Some? <==> ReadableInbound(body) && settings.port.Some?
    ensures r.sent.None? <==> r.reply == Fail(2, Text(Some(InvalidRequest)))
    ensures r.sent.Some? ==>
      var request := Outbound(settings, RequestData(documentId, AnalysisText(ArticleOf(body).value).value), encode);
      request.Success? && r.sent.value == request.value
    ensures r.reply.Fail? ==> r.reply.code == 1 || r.reply.code == 2
    ensures r.reply.Fail? && r.reply.code == 1 <==>
      r.sent.Some? && (exchange.Errored? || SentimentOf(exchange.response).Failure?)
    ensures r.sent.Some? && exchange.Errored? ==> r.reply == Fail(1, Text(exchange.message))
    ensures r.sent.Some? && exchange.Responded? && SentimentOf(exchange.response).Failure? ==>
      r.reply == Fail(1, ExceptionMessage(SentimentOf(exchange.response).error))
    ensures r.sent.Some? && exchange.Responded? && SentimentOf(exchange.response).Success? ==>
      r.reply == Reply(ArticleOf(body).value["sentiment" := SentimentOf(exchange.response).value])
    ensures r.reply.Reply? ==>
      && r.sent.Some? && exchange.Responded?
      && "documents" in exchange.response && exchange.response["documents"].Arr?
      && |exchange.response["documents"].items| > 0
      && r.reply.article == ArticleOf(body).value["sentiment" := exchange.response["documents"].items[0]]
  {
    var invalid := Handled(None, Fail(2, Text(Some(InvalidRequest))));
    match ArticleOf(body)
    case Failure(_) => invalid
    case Success(article) =>
      match AnalysisText(article)
      case Failure(_) => invalid
      case Success(text) =>
        match Outbound(settings, RequestData(documentId, text), encode)
        case Failure(_) => invalid
        case Success(request) =>
          match exchange
          case Errored(message) => Handled(Some(request), Fail(1, Text(message)))
          case Responded(response) =>
            match SentimentOf(response)
            case Failure(e) => Handled(Some(request), Fail(1, ExceptionMessage(e)))
            case Success(sentiment) => Handled(Some(request), Reply(article["sentiment" := sentiment]))
  }

  /** Once the request is sent and `documents[0]` can be read, the reply is the inbound article
      with every key kept and "sentiment" added. */
  lemma ReplyKeepsArticle(settings: ApiSettings, body: Option<Obj>, documentId: string,
                          encode: Value -> seq<bv8>, exchange: Exchange)
    requires Processed(settings, body, documentId, encode, exchange).sent.Some?
    requires exchange.Responded? && SentimentOf(exchange.response).Success?
    ensures Processed(settings, body, documentId, encode, exchange).reply.Reply?
    ensures var article := ArticleOf(body).value;
      var reply := Processed(settings, body, documentId, encode, exchange).reply.article;
      && reply.Keys == article.Keys + {"sentiment"}
      && forall k :: k in article && k != "sentiment" ==> reply[k] == article[k]
  {
  }

  /** A message without an article, or whose article is not an object, fails with code 2 and
      no request is sent. */
  lemma MissingArticleIsInvalid(settings: ApiSettings, body: Obj, documentId: string,
                                encode: Value -> seq<bv8>, exchange: Exchange)
    requires "article" !in body || !body["article"].Object?
    ensures Processed(settings, Some(body), documentId, encode, exchange) == Handled(None, Fail(2, Text(Some(InvalidRequest))))
  {
  }

  /** The worker verticle with the fields `start()` assigns. The HTTP client and the bus
      consumer are not modelled. */
  class Worker {
    var apiKey: Option<string>
    var baseUrl: Option<string>
    var urlPath: Option<string>
    var port: Option<int32>

    function Settings(): ApiSettings
      reads this
    {
      ApiSettings(apiKey, baseUrl, urlPath, port)
    }

    /** The default constructor Vert.x requires: every field is null until `start()`. */
    constructor ()
      ensures Settings() == ApiSettings(None, None, None, None)
    {
      apiKey, baseUrl, urlPath, port := None, None, None, None;
    }

    /** `start()`, reading the deployment configuration `config`. */
    method Start(config: Obj) returns (error: Option<StartError>)
      modifies this
      ensures Started(Settings(), error) == AfterStart(config, old(Settings()))
    {
      var api := GetJsonObject(config, "api");
      if api.Failure? {
        return Some(ConfigRead(api.error));
      }
      if api.value.None? {
        return Some(MissingApiConfig);
      }
      var cfg := api.value.value;
      var key := GetStringOr(cfg, "key", "");
      if key.Failure? {
        return Some(ConfigRead(key.error));
      }
      apiKey := key.value;
      var base := GetStringOr(cfg, "base.url", "");
      if base.Failure? {
        return Some(ConfigRead(base.error));
      }
      baseUrl := base.value;
      var path := GetStringOr(cfg, "url.path", "");
      if path.Failure? {
        return Some(ConfigRead(path.error));
      }
      urlPath := path.value;
      var p := GetIntegerOr(cfg, "port", DefaultPort);
      if p.Failure? {
        return Some(ConfigRead(p.error));
      }
      port := p.value;
      error := None;
    }

    /** `addSentimentResults`: puts the first analysed document into `article` under
        "sentiment", in place; when reading it throws, the article is left as it was. */
    method AddSentimentResults(article: JsonObject, response: Obj) returns (thrown: Option<JavaException>)
      modifies article
      ensures thrown.None? <==> SentimentOf(response).Success?
      ensures thrown.Some? ==> thrown.value == SentimentOf(response).error && article.entries == old(article.entries)
      ensures thrown.None? ==> article.entries == old(article.entries)["sentiment" := SentimentOf(response).value]
    {
      var documents := GetJsonArray(response, "documents");
      if documents.Failure? {
        return Some(documents.error);
      }
      if documents.value.None? {
        return Some(NullPointer);
      }
      var first := ArrayGetJsonObject(documents.value.value, 0);
      if first.Failure? {
        return Some(first.error);
      }
      article.Put("sentiment", FromNullable(first.value));
      thrown := None;
    }

    /** The handler body for one bus message, given the fresh document id, the library's body
        encoding and how the HTTP exchange ends. */
    method Handle(body: Option<Obj>, documentId: string, encode: Value -> seq<bv8>, exchange: Exchange)
      returns (sent: Option<PostRequest>, reply: Reply)
      ensures Handled(sent, reply) == Processed(Settings(), body, documentId, encode, exchange)
    {
      var article := ArticleOf(body);
      if article.Failure? {
        return None, Fail(2, Text(Some(InvalidRequest)));
      }
      var text := AnalysisText(article.value);
      if text.Failure? {
        return None, Fail(2, Text(Some(InvalidRequest)));
      }
      var data := RequestData(documentId, text.value);
      var request := Outbound(Settings(), data, encode);
      if request.Failure? {
        return None, Fail(2, Text(Some(InvalidRequest)));
      }
      sent := Some(request.value);
      if exchange.Errored? {
        reply := Fail(1, Text(exchange.message));
      } else {
        var target := new JsonObject.Of(article.value);
        var thrown := AddSentimentResults(target, exchange.response);
        if thrown.Some? {
          reply := Fail(1, ExceptionMessage(thrown.value));
        } else {
          reply := Reply(target.entries);
        }
      }
    }
  }
}
