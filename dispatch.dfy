/**
  `call_api`: the half before the network, which works out the account
  credentials and the request URL, and the half after it, which turns a
  decoded reply into a `Response` or into the exception the status maps to.
  The exchange itself is a parameter.
 */
module Dispatch {
  import opened Wrappers
  import opened Values
  import opened Errors
  import opened External
  import opened Requests
  import Operations
  import Text

  /** The account settings `cloudinary.config()` supplies when a call does not. */
  datatype Config = Config(cloudName: Value, apiKey: Value, apiSecret: Value, uploadPrefix: Value)

  /** The prefix used when neither the call nor the configuration gives a truthy one. */
  const DefaultPrefix := "https://api.cloudinary.com"

  /** The account options `call_api` pops before it builds the URL. */
  const AccountKeys := {"upload_prefix", "cloud_name", "api_key", "api_secret"}

  /** Where and as whom a call is sent, and the options left after popping those. */
  datatype Credentials = Credentials(prefix: Value, cloudName: Value, apiKey: Value, apiSecret: Value, rest: Options)

  /** `options.pop("upload_prefix", config.upload_prefix) or "https://api.cloudinary.com"` */
  function Prefix(options: Options, config: Config): (p: Value)
    ensures Truthy(p)
    ensures "upload_prefix" in options && Truthy(options["upload_prefix"]) ==> p == options["upload_prefix"]
    ensures "upload_prefix" !in options && Truthy(config.uploadPrefix) ==> p == config.uploadPrefix
    ensures !Truthy(Get(options, "upload_prefix", config.uploadPrefix)) ==> p == Str(DefaultPrefix)
  {
    var p := Get(options, "upload_prefix", config.uploadPrefix);
    if Truthy(p) then p else Str(DefaultPrefix)
  }

  /**
    A falsy per-call prefix does not fall back to the configured one: `or`
    applies to the popped value, so it is the built-in default that is used.
   */
  lemma FalsyCallPrefixSkipsConfig(options: Options, config: Config)
    requires "upload_prefix" in options && !Truthy(options["upload_prefix"])
    ensures Prefix(options, config) == Str(DefaultPrefix)
  {
  }

  /**
    The credential checks of `call_api` as written: the check meant for the
    secret tests the cloud name a second time, so a falsy secret goes through.
   */
  function ResolveCredentialsAsWritten(options: Options, config: Config): (r: Result<Credentials, Raised>)
    ensures r.Success? <==> Truthy(Get(options, "cloud_name", config.cloudName)) && Truthy(Get(options, "api_key", config.apiKey))
  {
    var prefix := Prefix(options, config);
    var cloudName := Get(options, "cloud_name", config.cloudName);
    if !Truthy(cloudName) then Failure(Raised(Exception, "Must supply cloud_name"))
    else
      var apiKey := Get(options, "api_key", config.apiKey);
      if !Truthy(apiKey) then Failure(Raised(Exception, "Must supply api_key"))
      else
        var apiSecret := Get(options, "api_secret", config.apiSecret);
        if !Truthy(cloudName) then Failure(Raised(Exception, "Must supply api_secret"))
        else Success(Credentials(prefix, cloudName, apiKey, apiSecret, options - AccountKeys))
  }

  /**
    The credential checks as intended: each of cloud name, key and secret comes
    from the call, else from the configuration, and must be truthy; the first
    one missing is the one reported.
   */
  function ResolveCredentials(options: Options, config: Config): (r: Result<Credentials, Raised>)
    ensures r.Success? <==>
              && Truthy(Get(options, "cloud_name", config.cloudName))
              && Truthy(Get(options, "api_key", config.apiKey))
              && Truthy(Get(options, "api_secret", config.apiSecret))
    ensures !Truthy(Get(options, "cloud_name", config.cloudName)) ==>
              r == Failure(Raised(Exception, "Must supply cloud_name"))
    ensures Truthy(Get(options, "cloud_name", config.cloudName)) && !Truthy(Get(options, "api_key", config.apiKey)) ==>
              r == Failure(Raised(Exception, "Must supply api_key"))
    ensures Truthy(Get(options, "cloud_name", config.cloudName)) && Truthy(Get(options, "api_key", config.apiKey))
            && !Truthy(Get(options, "api_secret", config.apiSecret)) ==>
              r == Failure(Raised(Exception, "Must supply api_secret"))
    ensures r.Success? ==>
              && r.value.prefix == Prefix(options, config)
              && r.value.cloudName == Get(options, "cloud_name", config.cloudName)
              && r.value.apiKey == Get(options, "api_key", config.apiKey)
              && r.value.apiSecret == Get(options, "api_secret", config.apiSecret)
              && (forall k :: k in r.value.rest <==> k in options && k !in AccountKeys)
              && (forall k :: k in r.value.rest ==> r.value.rest[k] == options[k])
  {
    var prefix := Prefix(options, config);
    var cloudName := Get(options, "cloud_name", config.cloudName);
    if !Truthy(cloudName) then Failure(Raised(Exception, "Must supply cloud_name"))
    else
      var apiKey := Get(options, "api_key", config.apiKey);
      if !Truthy(apiKey) then Failure(Raised(Exception, "Must supply api_key"))
      else
        var apiSecret := Get(options, "api_secret", config.apiSecret);
        if !Truthy(apiSecret) then Failure(Raised(Exception, "Must supply api_secret"))
        else Success(Credentials(prefix, cloudName, apiKey, apiSecret, options - AccountKeys))
  }

  /** With a truthy secret the two versions agree; they differ exactly when only the secret is missing. */
  lemma CredentialChecksDifferOnlyOnSecret(options: Options, config: Config)
    ensures Truthy(Get(options, "api_secret", config.apiSecret)) ==>
              ResolveCredentialsAsWritten(options, config) == ResolveCredentials(options, config)
    ensures ResolveCredentialsAsWritten(options, config) != ResolveCredentials(options, config) <==>
              && Truthy(Get(options, "cloud_name", config.cloudName))
              && Truthy(Get(options, "api_key", config.apiKey))
              && !Truthy(Get(options, "api_secret", config.apiSecret))
  {
  }

  /** An account configured with an empty secret: the code as written accepts it, the intended check rejects it. */
  lemma EmptySecretIsAccepted()
    ensures var config := Config(Str("demo"), Str("123"), Str(""), Null);
            && ResolveCredentialsAsWritten(map[], config).Success?
            && ResolveCredentialsAsWritten(map[], config).value.apiSecret == Str("")
            && ResolveCredentials(map[], config) == Failure(Raised(Exception, "Must supply api_secret"))
  {
    var config := Config(Str("demo"), Str("123"), Str(""), Null);
    assert !Truthy(Str(""));
    assert Get(map[], "api_secret", config.apiSecret) == Str("");
  }

  /** `"/".join([prefix, "v1_1", cloud_name] + segments)` once every piece is a string. */
  function UrlText(prefix: string, cloudName: string, segments: seq<string>): string {
    Text.Join("/", [prefix, "v1_1", cloudName] + segments)
  }

  /**
    `"/".join([prefix, "v1_1", cloud_name] + uri)`: every piece must be a
    string, or `join` raises TypeError.
   */
  function ApiUrl(prefix: Value, cloudName: Value, uri: seq<Value>): (r: Result<string, Raised>)
    ensures r.Success? <==> prefix.Str? && cloudName.Str? && forall i :: 0 <= i < |uri| ==> uri[i].Str?
    ensures r.Failure? ==> r.error.cls == TypeError
    ensures r.Success? ==> r.value == UrlText(prefix.s, cloudName.s, Texts(uri).value)
  {
    if !prefix.Str? || !cloudName.Str? then Failure(Raised(TypeError, "sequence item: expected str instance"))
    else
      match Texts(uri)
      case None => Failure(Raised(TypeError, "sequence item: expected str instance"))
      case Some(segments) => Success(UrlText(prefix.s, cloudName.s, segments))
  }

  /** `"/".join` of the three leading pieces. */
  lemma JoinHead(prefix: string, cloudName: string)
    ensures Text.Join("/", [prefix, "v1_1", cloudName]) == prefix + "/v1_1/" + cloudName
  {
    var head := [prefix, "v1_1", cloudName];
    assert head[1..] == ["v1_1", cloudName];
    assert head[1..][1..] == [cloudName];
    assert Text.Join("/", ["v1_1", cloudName]) == "v1_1" + "/" + cloudName;
    calc {
      Text.Join("/", head);
      prefix + "/" + ("v1_1" + "/" + cloudName);
      { assert "/" + ("v1_1" + "/" + cloudName) == "/v1_1/" + cloudName; }
      prefix + "/v1_1/" + cloudName;
    }
  }

  /**
    The URL is the prefix, then `/v1_1/`, the cloud name and the URI segments,
    each after one slash.
   */
  lemma UrlLayout(prefix: string, cloudName: string, segments: seq<string>)
    ensures UrlText(prefix, cloudName, segments)
            == prefix + "/v1_1/" + cloudName + (if segments == [] then "" else "/" + Text.Join("/", segments))
  {
    var head := [prefix, "v1_1", cloudName];
    JoinHead(prefix, cloudName);
    if segments == [] {
      assert head + segments == head;
      assert Text.Join("/", head) + "" == Text.Join("/", head);
    } else {
      Text.JoinAppend("/", head, segments);
      Text.ConcatAssociative(Text.Join("/", head), "/", Text.Join("/", segments));
    }
  }

  /** The URL is the prefix, one slash, and the rest of the pieces joined. */
  lemma UrlAfterPrefix(prefix: string, cloudName: string, segments: seq<string>)
    ensures UrlText(prefix, cloudName, segments) == prefix + "/" + Text.Join("/", ["v1_1", cloudName] + segments)
  {
    var tail := ["v1_1", cloudName] + segments;
    assert [prefix, "v1_1", cloudName] + segments == [prefix] + tail;
    Text.JoinAppend("/", [prefix], tail);
  }

  /** Reading the URL back: after the prefix, splitting on `/` gives `v1_1`, the cloud name and the segments. */
  lemma UrlNamesCloudAndSegments(prefix: string, cloudName: string, segments: seq<string>)
    requires '/' !in cloudName
    requires forall i :: 0 <= i < |segments| ==> '/' !in segments[i]
    ensures var url := UrlText(prefix, cloudName, segments);
            && |prefix| + 1 <= |url|
            && url[..|prefix| + 1] == prefix + "/"
            && Text.Split('/', url[|prefix| + 1..]) == ["v1_1", cloudName] + segments
  {
    var tail := ["v1_1", cloudName] + segments;
    UrlAfterPrefix(prefix, cloudName, segments);
    var rest := Text.Join("/", tail);
    assert (prefix + "/" + rest)[|prefix| + 1..] == rest;
    assert (prefix + "/" + rest)[..|prefix| + 1] == prefix + "/";
    assert forall i :: 0 <= i < |tail| ==> '/' !in tail[i] by {
      forall i | 0 <= i < |tail| ensures '/' !in tail[i] {
        if i >= 2 { assert tail[i] == segments[i - 2]; }
      }
    }
    Text.SplitJoin('/', tail);
  }

  lemma TextsOfStrSeq(segments: seq<string>)
    ensures Texts(StrSeq(segments)) == Some(segments)
  {
    assert Texts(StrSeq(segments)).value == segments;
  }

  /** The segments as Python strings. */
  function StrSeq(segments: seq<string>): (r: seq<Value>)
    ensures |r| == |segments| && forall i :: 0 <= i < |r| ==> r[i] == Str(segments[i])
  {
    seq(|segments|, i requires 0 <= i < |segments| => Str(segments[i]))
  }

  /**
    What `call_api` hands to the HTTP pool: the upper-case verb, the URL, the
    parameters and the key and secret the basic-auth header is made from.
   */
  datatype Request = Request(verb: HttpMethod, url: string, params: Params, apiKey: Value, apiSecret: Value)

  /** The pre-network half of `call_api`. */
  function Prepare(call: Call, config: Config): (r: Result<Request, Raised>)
    ensures ResolveCredentials(call.options, config).Failure? ==>
              r == Failure(ResolveCredentials(call.options, config).error)
    ensures r.Success? <==>
              && ResolveCredentials(call.options, config).Success?
              && ApiUrl(Prefix(call.options, config), Get(call.options, "cloud_name", config.cloudName), call.uri).Success?
    ensures r.Success? ==>
              && r.value.verb == call.verb && r.value.params == call.params
              && r.value.url == ApiUrl(Prefix(call.options, config), Get(call.options, "cloud_name", config.cloudName), call.uri).value
              && r.value.apiKey == Get(call.options, "api_key", config.apiKey)
              && r.value.apiSecret == Get(call.options, "api_secret", config.apiSecret)
  {
    var credentials :- ResolveCredentials(call.options, config);
    var url :- ApiUrl(credentials.prefix, credentials.cloudName, call.uri);
    Success(Request(call.verb, url, call.params, credentials.apiKey, credentials.apiSecret))
  }

  /**
    The reply of the exchange: its status, its decoded body and its headers.
    The HTTP client's header dict matches names case-insensitively; here
    `headers` is keyed by the lower-cased header name, so a lookup by the
    lower-case names below finds a header whatever case the server sent.
   */
  datatype Reply = Reply(status: int, body: map<string, Value>, headers: map<string, string>)

  /** `Response(result, response)`: the decoded body, with the three rate-limit headers it reads. */
  datatype Response = Response(result: map<string, Value>, rateLimitAllowed: string, rateLimitResetAt: string,
                               rateLimitRemaining: string)

  const LimitHeader := "x-featureratelimit-limit"
  const ResetHeader := "x-featureratelimit-reset"
  const RemainingHeader := "x-featureratelimit-remaining"

  /** The text of the exception an error body raises. */
  function ErrorMessage(status: int, message: Value, c: Collaborators): string {
    "Error " + Text.IntText(status) + " - " + PyStr(message, c)
  }

  /** The post-response half of `call_api`. */
  function HandleReply(reply: Reply, c: Collaborators): (r: Result<Response, Raised>)
    ensures r.Success? <==>
              && "error" !in reply.body
              && LimitHeader in reply.headers && ResetHeader in reply.headers && RemainingHeader in reply.headers
    ensures r.Success? ==>
              r.value == Response(reply.body, reply.headers[LimitHeader], reply.headers[ResetHeader],
                                  reply.headers[RemainingHeader])
    ensures "error" in reply.body && reply.body["error"].Dict? && "message" in reply.body["error"].fields ==>
              && r.Failure?
              && r.error.cls == ClassFor(reply.status)
              && r.error.message == ErrorMessage(reply.status, reply.body["error"].fields["message"], c)
    ensures "error" in reply.body && reply.body["error"].Dict? && "message" !in reply.body["error"].fields ==>
              r.Failure? && r.error.cls == KeyError
    ensures "error" in reply.body && !reply.body["error"].Dict? ==> r.Failure? && r.error.cls == TypeError
    ensures "error" !in reply.body && r.Failure? ==> r.error.cls == KeyError
  {
    if "error" in reply.body then
      match reply.body["error"]
      case Dict(fields) =>
        if "message" in fields then
          Failure(Raised(ClassFor(reply.status), ErrorMessage(reply.status, fields["message"], c)))
        else Failure(Raised(KeyError, "message"))
      case _ => Failure(Raised(TypeError, "object is not subscriptable"))
    else if LimitHeader !in reply.headers then Failure(Raised(KeyError, LimitHeader))
    else if ResetHeader !in reply.headers then Failure(Raised(KeyError, ResetHeader))
    else if RemainingHeader !in reply.headers then Failure(Raised(KeyError, RemainingHeader))
    else Success(Response(reply.body, reply.headers[LimitHeader], reply.headers[ResetHeader], reply.headers[RemainingHeader]))
  }

  /**
    An error reply with a known status raises a proper subclass of `Error`;
    with any other status it raises the built-in `Exception`, which an
    `except Error` clause does not catch.
   */
  lemma ErrorReplyClass(reply: Reply, c: Collaborators)
    requires "error" in reply.body && reply.body["error"].Dict? && "message" in reply.body["error"].fields
    ensures IsMappedStatus(reply.status) ==>
              IsSubclass(HandleReply(reply, c).error.cls, Error) && HandleReply(reply, c).error.cls != Error
    ensures !IsMappedStatus(reply.status) ==>
              HandleReply(reply, c).error.cls == Exception && !IsSubclass(HandleReply(reply, c).error.cls, Error)
  {
  }

  /** The message names the status: its digits follow `"Error "` and read back as the status. */
  lemma {:induction false} ErrorMessageNamesStatus(status: nat, message: Value, c: Collaborators)
    ensures var m := ErrorMessage(status, message, c);
            var digits := Text.Decimal(status);
            && |m| >= 6 + |digits|
            && m[..6] == "Error "
            && m[6..6 + |digits|] == digits
            && Text.DecimalValue(m[6..6 + |digits|]) == status
  {
    var m := ErrorMessage(status, message, c);
    var digits := Text.Decimal(status);
    assert m == "Error " + digits + " - " + PyStr(message, c);
    assert m[6..6 + |digits|] == digits;
    Text.DecimalRoundTrip(status);
  }

  /** A 404 reply with an error body raises `NotFound` with the server's message. */
  lemma NotFoundReply(c: Collaborators)
    ensures HandleReply(Reply(404, map["error" := Dict(map["message" := Str("Not found")])], map[]), c)
            == Failure(Raised(NotFound, "Error 404 - Not found"))
  {
    NotFoundMessage(c);
    assert ClassFor(404) == NotFound;
  }

  lemma NotFoundMessage(c: Collaborators)
    ensures ErrorMessage(404, Str("Not found"), c) == "Error 404 - Not found"
  {
    StatusText404();
  }

  lemma StatusText404()
    ensures Text.IntText(404) == "404"
  {
    assert Text.DigitChar(4) == '4' && Text.DigitChar(0) == '0';
    assert Text.Decimal(40) == Text.Decimal(4) + ['0'];
    assert Text.Decimal(404) == Text.Decimal(40) + ['4'];
  }

  /** `call_api`, with the exchange over the network as a parameter. */
  function CallApi(call: Call, config: Config, exchange: Request -> Reply, c: Collaborators): (r: Result<Response, Raised>)
    ensures Prepare(call, config).Failure? ==> r == Failure(Prepare(call, config).error)
    ensures Prepare(call, config).Success? ==> r == HandleReply(exchange(Prepare(call, config).value), c)
  {
    var request :- Prepare(call, config);
    HandleReply(exchange(request), c)
  }

  /** Missing credentials are reported before anything is sent, whatever the exchange would have answered. */
  lemma MissingCredentialsSendNothing(call: Call, config: Config, e1: Request -> Reply, e2: Request -> Reply, c: Collaborators)
    requires ResolveCredentials(call.options, config).Failure?
    ensures CallApi(call, config, e1, c) == CallApi(call, config, e2, c)
    ensures CallApi(call, config, e1, c).Failure? && CallApi(call, config, e1, c).error.cls == Exception
  {
  }

  /**
    End to end: `resource(public_id)` with no type options, under an account
    with string prefix and cloud name, is a GET of
    `<prefix>/v1_1/<cloud>/resources/image/upload/<public_id>`.
   */
  lemma ResourceUrl(publicId: string, options: Options, config: Config)
    requires "resource_type" !in options && "type" !in options
    requires ResolveCredentials(options, config).Success?
    requires Prefix(options, config).Str? && Get(options, "cloud_name", config.cloudName).Str?
    ensures var request := Prepare(Operations.Resource(publicId, options), config);
            && request.Success?
            && request.value.verb == GET
            && request.value.url == Prefix(options, config).s + "/v1_1/" + Get(options, "cloud_name", config.cloudName).s
                                    + "/resources/image/upload/" + publicId
  {
    var call := Operations.Resource(publicId, options);
    var p, n := Prefix(options, config), Get(options, "cloud_name", config.cloudName);
    var segments := ["resources", "image", "upload", publicId];
    ResourceCall(publicId, options);
    SameAccount(options, call.options, config);
    assert p == Str(p.s) && n == Str(n.s);
    TextsOfStrSeq(segments);
    assert Prepare(call, config).value.url == UrlText(p.s, n.s, segments);
    ResourceUrlText(p.s, n.s, publicId);
  }

  lemma ResourceUrlText(prefix: string, cloudName: string, publicId: string)
    ensures UrlText(prefix, cloudName, ["resources", "image", "upload", publicId])
            == prefix + "/v1_1/" + cloudName + "/resources/image/upload/" + publicId
  {
    UrlLayout(prefix, cloudName, ["resources", "image", "upload", publicId]);
    ResourcePath(publicId);
    Text.ConcatAssociative(prefix + "/v1_1/" + cloudName, "/", "resources/image/upload/" + publicId);
  }

  lemma ResourceCall(publicId: string, options: Options)
    requires "resource_type" !in options && "type" !in options
    ensures var call := Operations.Resource(publicId, options);
            && call.verb == GET
            && call.uri == StrSeq(["resources", "image", "upload", publicId])
            && call.options == options - {"resource_type", "type"}
  {
  }

  /** Popping options other than the account ones leaves the account as it was. */
  lemma SameAccount(options: Options, rest: Options, config: Config)
    requires rest == options - {"resource_type", "type"}
    ensures Prefix(rest, config) == Prefix(options, config)
    ensures ResolveCredentials(rest, config).Success? == ResolveCredentials(options, config).Success?
    ensures Get(rest, "cloud_name", config.cloudName) == Get(options, "cloud_name", config.cloudName)
  {
    assert Get(rest, "api_key", config.apiKey) == Get(options, "api_key", config.apiKey);
    assert Get(rest, "api_secret", config.apiSecret) == Get(options, "api_secret", config.apiSecret);
  }

  lemma ResourcePath(publicId: string)
    ensures Text.Join("/", ["resources", "image", "upload", publicId]) == "resources/image/upload/" + publicId
  {
    var segments := ["resources", "image", "upload", publicId];
    assert segments[1..] == ["image", "upload", publicId];
    assert segments[1..][1..] == ["upload", publicId];
    assert segments[1..][1..][1..] == [publicId];
    assert Text.Join("/", ["upload", publicId]) == "upload/" + publicId;
    assert Text.Join("/", ["image", "upload", publicId]) == "image/upload/" + publicId;
  }
}
