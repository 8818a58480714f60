/** The client program of CognitoNet/Program.cs: it reads its credentials,
    signs each request with HMAC-SHA256 over the HTTP Signatures signing
    string, and creates a profile and then searches identities by phone.
    The hash primitives, the network, the clock and the JSON library are
    parameters. */
module Client {
  import opened Results
  import opened Text
  import opened Constants
  import opened Templates
  import Base64
  import Utf8

  /** A SHA-256 or HMAC-SHA256 value. */
  type Hash = h: seq<byte> | |h| == 32 witness seq(32, _ => 0)

  /** SHA256.ComputeHash and HMACSHA256(key).ComputeHash, taken as given. */
  datatype Crypto = Crypto(sha256: seq<byte> -> Hash, hmacSha256: (seq<byte>, seq<byte>) -> Hash)

  /** What goes on the wire for one request: the verb, the URL, the headers in
      the order they were added, the Accept media types, the content type and
      the body bytes. */
  datatype HttpRequest = HttpRequest(
    verb: string,
    url: string,
    headers: seq<(string, string)>,
    accept: seq<string>,
    contentType: string,
    content: seq<byte>)

  datatype HttpResponse = HttpResponse(statusCode: int, content: string)

  /** The phone number RunAsync searches for. */
  const Phone: string := "+16508007985"

  /** The request target the unused Program.GetSigningString fixes. */
  const RequestTarget: string := "post /profiles"

  /** The value of the first header called `name`. Names are compared exactly,
      not ignoring case as .NET's HttpHeaders lookup does: this is the
      server-side check's lookup, always made with the header names of
      Constants. */
  function HeaderValue(headers: seq<(string, string)>, name: string): (r: Option<string>)
    ensures r.Some? <==> exists i :: 0 <= i < |headers| && headers[i].0 == name
    ensures r.Some? ==> exists i :: 0 <= i < |headers| && headers[i] == (name, r.value)
                                    && forall j :: 0 <= j < i ==> headers[j].0 != name
  {
    if headers == [] then None
    else if headers[0].0 == name then Some(headers[0].1)
    else
      var tail := HeaderValue(headers[1..], name);
      assert tail.Some? ==> forall k :: 0 <= k < |headers| - 1 ==> headers[1..][k] == headers[k + 1];
      tail
  }

  /** The signing string of section 2.3 of draft-cavage-http-signatures for the
      headers the authorization string lists: one `name: value` line each, in
      that order, joined by newlines. */
  function CavageSigningString(route: string, date: string, digest: string): string
  {
    Join([SigningLine(SignedHeaderNames[0], "post " + route),
          SigningLine(SignedHeaderNames[1], date),
          SigningLine(SignedHeaderNames[2], digest)], "\n")
  }

  /** The Digest header value carries the SHA-256 of the body bytes, in the form
      of section 4.3.2 of RFC 3230. */
  predicate DigestMatches(crypto: Crypto, digest: string, content: seq<byte>)
  {
    "SHA-256=" <= digest && Base64.Decode(digest[8..]) == Some(crypto.sha256(content))
  }

  /** The Authorization header value names the key and carries the HMAC-SHA256,
      under the secret, of the signing string `signed`. */
  predicate SignatureMatches(crypto: Crypto, apiKey: string, apiSecret: string, authorization: string, signed: string)
  {
    var fields := ReadAuthorizationString(authorization);
    && fields.Some?
    && fields.value.0 == apiKey
    && Base64.Decode(fields.value.1) == Some(crypto.hmacSha256(Utf8.Encode(apiSecret), Utf8.Encode(signed)))
  }

  /** What a server holding the key pair checks: a post whose Digest header
      matches its body and whose Authorization header signs the signing string
      rebuilt from the request's own route and Date and Digest headers. */
  predicate Authentic(crypto: Crypto, apiKey: string, apiSecret: string, request: HttpRequest)
  {
    var date := HeaderValue(request.headers, DateHeader);
    var digest := HeaderValue(request.headers, DigestHeader);
    var authorization := HeaderValue(request.headers, AuthorizationHeader);
    && request.verb == "POST"
    && CognitoUrl <= request.url
    && date.Some? && digest.Some? && authorization.Some?
    && DigestMatches(crypto, digest.value, request.content)
    && SignatureMatches(crypto, apiKey, apiSecret, authorization.value,
         CavageSigningString(request.url[|CognitoUrl|..], date.value, digest.value))
  }

  /** The request SendRequestAndGetResponseAsync sends for one clock reading,
      route and body: the digest of the body and the date go both into the
      signing string and into the Date and Digest headers, and the key and the
      signature of that string into the Authorization header. */
  function SignedRequest(crypto: Crypto, apiKey: string, apiSecret: string,
                         utcDate: string, targetRoute: string, body: string): HttpRequest
  {
    var digest := Program.GetDigest(crypto, body);
    var signingString := Constants.GetSigningString(targetRoute, utcDate, digest);
    var signature := Program.GetSignature(crypto, apiSecret, signingString);
    HttpRequest("POST", CognitoUrl + targetRoute,
      [(DateHeader, utcDate), (DigestHeader, digest),
       (AuthorizationHeader, Constants.GetAuthorizationString(apiKey, signature)),
       (CognitoVersionHeader, Version)],
      [AcceptType], ContentType, Utf8.Encode(body))
  }

  lemma SignedRequestOf(crypto: Crypto, apiKey: string, apiSecret: string,
                        utcDate: string, targetRoute: string, body: string,
                        digest: string, signature: string, authorization: string)
    requires digest == Program.GetDigest(crypto, body)
    requires signature == Program.GetSignature(crypto, apiSecret, Constants.GetSigningString(targetRoute, utcDate, digest))
    requires authorization == Constants.GetAuthorizationString(apiKey, signature)
    ensures SignedRequest(crypto, apiKey, apiSecret, utcDate, targetRoute, body)
         == HttpRequest("POST", CognitoUrl + targetRoute,
              [(DateHeader, utcDate), (DigestHeader, digest), (AuthorizationHeader, authorization),
               (CognitoVersionHeader, Version)],
              [AcceptType], ContentType, Utf8.Encode(body))
  {
  }

  /** HttpResponseMessage.EnsureSuccessStatusCode and ReadAsStringAsync after
      HttpClient.SendAsync: the body of a 2xx response, otherwise the exception. */
  function ResponseBody(response: Result<HttpResponse>): (r: Result<string>)
    ensures r.Ok? <==> response.Ok? && 200 <= response.value.statusCode <= 299
    ensures r.Ok? ==> r.value == response.value.content
    ensures response.Ok? && r.Err? ==> r.error == HttpRequestException(Some(response.value.statusCode))
    ensures response.Err? ==> r == Err(response.error)
  {
    if response.Err? then Err(response.error)
    else if 200 <= response.value.statusCode <= 299 then Ok(response.value.content)
    else Err(HttpRequestException(Some(response.value.statusCode)))
  }

  /** The text string.Format substitutes for a string: a null one (None) becomes empty. */
  function OrEmpty(s: Option<string>): string
  {
    if s.Some? then s.value else ""
  }

  /** HttpRequestMessage: the verb and URL it is created with, and the headers
      and content the sender adds to it one by one. */
  class RequestMessage {
    const verb: string
    const url: string
    var headers: seq<(string, string)>
    var accept: seq<string>
    var contentType: string
    var content: seq<byte>

    constructor (verb: string, url: string)
      ensures this.verb == verb && this.url == url
      ensures headers == [] && accept == [] && contentType == "" && content == []
    {
      this.verb := verb;
      this.url := url;
      headers := [];
      accept := [];
      contentType := "";
      content := [];
    }

    /** Headers.Add(name, value). */
    method AddHeader(name: string, value: string)
      modifies this
      ensures headers == old(headers) + [(name, value)]
      ensures accept == old(accept) && contentType == old(contentType) && content == old(content)
    {
      headers := headers + [(name, value)];
    }

    /** Headers.Accept.Add(mediaType). */
    method AddAccept(mediaType: string)
      modifies this
      ensures accept == old(accept) + [mediaType]
      ensures headers == old(headers) && contentType == old(contentType) && content == old(content)
    {
      accept := accept + [mediaType];
    }

    /** Content = a StringContent of the body in UTF-8, with its Content-Type set. */
    method SetContent(body: string, mediaType: string)
      modifies this
      ensures content == Utf8.Encode(body) && contentType == mediaType
      ensures headers == old(headers) && accept == old(accept)
    {
      content := Utf8.Encode(body);
      contentType := mediaType;
    }

    /** The request as it goes on the wire. */
    function Wire(): HttpRequest
      reads this
    {
      HttpRequest(verb, url, headers, accept, contentType, content)
    }
  }

  /** Program: the credentials and the requests signed with them. */
  class Program {
    const apiKey: string
    const apiSecret: string

    /** The credentials came out of a split on the key separator. */
    predicate Valid()
      reads this
    {
      KeySeparator !in apiKey && KeySeparator !in apiSecret
    }

    constructor Init(apiKey: string, apiSecret: string)
      requires KeySeparator !in apiKey && KeySeparator !in apiSecret
      ensures this.apiKey == apiKey && this.apiSecret == apiSecret
      ensures Valid()
    {
      this.apiKey := apiKey;
      this.apiSecret := apiSecret;
    }

    /** The key file's first two comma-separated fields, or the
        IndexOutOfRangeException of reading a second field that is not there. */
    static function Credentials(content: string): (r: Result<(string, string)>)
      ensures r.Err? <==> KeySeparator !in content
      ensures r.Err? ==> r.error == IndexOutOfRangeException
      ensures r.Ok? ==> (r.value.0 == Before(content, KeySeparator)
                         && r.value.1 == Before(After(content, KeySeparator), KeySeparator))
      ensures r.Ok? ==> KeySeparator !in r.value.0 && KeySeparator !in r.value.1
    {
      var lines := Split(content, KeySeparator);
      SplitFirst(content, KeySeparator);
      if |lines| < 2 then Err(IndexOutOfRangeException)
      else
        SplitFirst(After(content, KeySeparator), KeySeparator);
        Ok((lines[0], lines[1]))
    }

    /** The constructor, given the text of the key file: the key and the secret
        are taken as they are, with no trimming, and further fields are ignored. */
    static method Load(content: string) returns (r: Result<Program>)
      ensures r.Err? <==> Credentials(content).Err?
      ensures r.Err? ==> r.error == Credentials(content).error
      ensures r.Ok? ==> fresh(r.value) && r.value.Valid()
      ensures r.Ok? ==> (r.value.apiKey, r.value.apiSecret) == Credentials(content).value
    {
      var lines := Credentials(content);
      if lines.Err? {
        return Err(lines.error);
      }
      var program := new Program.Init(lines.value.0, lines.value.1);
      return Ok(program);
    }

    /** GetDigest: `SHA-256=` and the base 64 of the SHA-256 of the UTF-8 bytes of the data. */
    static function GetDigest(crypto: Crypto, data: string): (digest: string)
      ensures |digest| == 52 && "SHA-256=" <= digest && digest[51] == '='
      ensures Base64.Decode(digest[8..]) == Some(crypto.sha256(Utf8.Encode(data)))
    {
      var hash := crypto.sha256(Utf8.Encode(data));
      Base64.EncodeHash(hash);
      Base64.DecodeEncode(hash);
      var digest := "SHA-256=" + Base64.Encode(hash);
      assert digest[8..] == Base64.Encode(hash);
      digest
    }

    /** GetSignature: the base 64 of the HMAC-SHA256 of the UTF-8 data under the UTF-8 secret. */
    static function GetSignature(crypto: Crypto, secret: string, data: string): (signature: string)
      ensures |signature| == 44 && signature[43] == '='
      ensures Base64.Decode(signature) == Some(crypto.hmacSha256(Utf8.Encode(secret), Utf8.Encode(data)))
      ensures KeySeparator !in signature
    {
      var hash := crypto.hmacSha256(Utf8.Encode(secret), Utf8.Encode(data));
      Base64.EncodeHash(hash);
      Base64.DecodeEncode(hash);
      Base64.EncodeAvoids(hash, KeySeparator);
      Base64.Encode(hash)
    }

    /** Program.GetSigningString: the three signing lines for a post to /profiles, joined by newlines. */
    static function GetSigningString(utcDate: string, digest: string): (s: string)
      ensures s == Constants.GetSigningString(Profiles, utcDate, digest)
    {
      assert RequestTarget == "post " + Profiles;
      SigningStringJoin(Profiles, utcDate, digest);
      Join(["(request-target)" + ": " + RequestTarget,
            "date" + ": " + utcDate,
            "digest" + ": " + digest], "\n")
    }

    /** Program.GetAuthorizationString: the four parameters joined by commas. */
    static function GetAuthorizationString(apiKey: string, signature: string): (s: string)
      ensures s == Constants.GetAuthorizationString(apiKey, signature)
    {
      AuthorizationJoinShape("Signature ", "keyId", "=\"", apiKey, "\"", "algorithm", "hmac-sha256",
                             "headers", "(request-target)", " ", "date", "digest", "signature", signature);
      Join(["Signature " + "keyId" + "=\"" + apiKey + "\"",
            "algorithm" + "=\"" + "hmac-sha256" + "\"",
            "headers" + "=\"" + "(request-target)" + " " + "date" + " " + "digest" + "\"",
            "signature" + "=\"" + signature + "\""], ",")
    }

    /** SendRequestAndGetResponseAsync, with the clock reading `utcDate` and the
        network `send` given: one date and one digest go both into the signed
        string and into the headers, and the request it sends passes the
        server's check. */
    method SendRequestAndGetResponse(crypto: Crypto, utcDate: string, send: HttpRequest -> Result<HttpResponse>,
                                     targetRoute: string, body: string)
      returns (request: HttpRequest, r: Result<string>)
      requires Valid()
      ensures request == SignedRequest(crypto, apiKey, apiSecret, utcDate, targetRoute, body)
      ensures r == ResponseBody(send(request))
    {
      var key, secret := apiKey, apiSecret;
      var digest := GetDigest(crypto, body);
      var signingString := Constants.GetSigningString(targetRoute, utcDate, digest);
      var signature := GetSignature(crypto, secret, signingString);
      var authorization := GetAuthorizationString(key, signature);

      var message := new RequestMessage("POST", CognitoUrl + targetRoute);
      message.AddHeader(DateHeader, utcDate);
      message.AddHeader(DigestHeader, digest);
      message.AddHeader(AuthorizationHeader, authorization);
      message.AddHeader(CognitoVersionHeader, Version);
      message.AddAccept(AcceptType);
      message.SetContent(body, ContentType);
      assert message.headers == [(DateHeader, utcDate), (DigestHeader, digest), (AuthorizationHeader, authorization),
               (CognitoVersionHeader, Version)];
      request := message.Wire();
      SignedRequestOf(crypto, key, secret, utcDate, targetRoute, body, digest, signature, authorization);

      r := ResponseBody(send(request));
    }

    /** RunAsync, with the two clock readings, the network and JSON token
        selection given: a profile is created, the id the response carries under
        data.id (empty when it has none) goes into an identity search for the
        phone number, and the search response is the result; an exception on the
        way ends the run with it. */
    method RunAsync(crypto: Crypto, profileDate: string, searchDate: string,
                    send: HttpRequest -> Result<HttpResponse>,
                    selectToken: (string, string) -> Result<Option<string>>)
      returns (sent: seq<HttpRequest>, r: Result<string>)
      requires Valid()
      ensures 1 <= |sent| <= 2
      ensures sent[0] == SignedRequest(crypto, apiKey, apiSecret, profileDate, Profiles, ProfileCreatingRequestBody)
      ensures var created := ResponseBody(send(sent[0]));
              var id := if created.Ok? then selectToken(created.value, DataId) else Err(created.error);
              && (|sent| == 2 <==> id.Ok?)
              && (id.Err? ==> r == Err(id.error))
              && (|sent| == 2 ==>
                    && sent[1] == SignedRequest(crypto, apiKey, apiSecret, searchDate, IdentitySearches,
                                                GetSearchRequestBody(Phone, OrEmpty(id.value)))
                    && r == ResponseBody(send(sent[1])))
    {
      var body := ProfileCreatingRequestBody;
      var first, responseBody := SendRequestAndGetResponse(crypto, profileDate, send, Profiles, body);
      sent := [first];
      if responseBody.Err? {
        r := Err(responseBody.error);
        return;
      }
      var profileId := selectToken(responseBody.value, DataId);
      if profileId.Err? {
        r := Err(profileId.error);
        return;
      }
      body := GetSearchRequestBody(Phone, OrEmpty(profileId.value));
      var second;
      second, r := SendRequestAndGetResponse(crypto, searchDate, send, IdentitySearches, body);
      sent := sent + [second];
    }
  }

  /** Looking a header up past one with another name. */
  lemma HeaderValueSkip(h: (string, string), headers: seq<(string, string)>, name: string)
    requires h.0 != name
    ensures HeaderValue([h] + headers, name) == HeaderValue(headers, name)
  {
    assert ([h] + headers)[1..] == headers;
  }

  /** The headers the sender adds, read back by name. */
  lemma SentHeaders(utcDate: string, digest: string, authorization: string)
    ensures var headers := [(DateHeader, utcDate), (DigestHeader, digest),
                            (AuthorizationHeader, authorization), (CognitoVersionHeader, Version)];
      && HeaderValue(headers, DateHeader) == Some(utcDate)
      && HeaderValue(headers, DigestHeader) == Some(digest)
      && HeaderValue(headers, AuthorizationHeader) == Some(authorization)
      && HeaderValue(headers, CognitoVersionHeader) == Some(Version)
  {
    var h0, h1, h2, h3 := (DateHeader, utcDate), (DigestHeader, digest), (AuthorizationHeader, authorization), (CognitoVersionHeader, Version);
    assert [h0, h1, h2, h3] == [h0] + ([h1] + ([h2] + [h3]));
    HeaderValueSkip(h0, [h1] + ([h2] + [h3]), DigestHeader);
    HeaderValueSkip(h0, [h1] + ([h2] + [h3]), AuthorizationHeader);
    HeaderValueSkip(h1, [h2] + [h3], AuthorizationHeader);
    HeaderValueSkip(h0, [h1] + ([h2] + [h3]), CognitoVersionHeader);
    HeaderValueSkip(h1, [h2] + [h3], CognitoVersionHeader);
    HeaderValueSkip(h2, [h3], CognitoVersionHeader);
  }

  /** The signature the client puts in the Authorization header is the one the server expects. */
  lemma SignedAuthorization(crypto: Crypto, apiKey: string, apiSecret: string,
                            targetRoute: string, utcDate: string, digest: string)
    requires KeySeparator !in apiKey
    ensures SignatureMatches(crypto, apiKey, apiSecret,
              Constants.GetAuthorizationString(apiKey,
                Program.GetSignature(crypto, apiSecret, Constants.GetSigningString(targetRoute, utcDate, digest))),
              CavageSigningString(targetRoute, utcDate, digest))
  {
    var signature := Program.GetSignature(crypto, apiSecret, Constants.GetSigningString(targetRoute, utcDate, digest));
    ReadGetAuthorizationString(apiKey, signature);
    SigningStringJoin(targetRoute, utcDate, digest);
  }

  lemma AuthenticParts(crypto: Crypto, apiKey: string, apiSecret: string, request: HttpRequest,
                       targetRoute: string, utcDate: string, digest: string, authorization: string)
    requires request.verb == "POST" && request.url == CognitoUrl + targetRoute
    requires HeaderValue(request.headers, DateHeader) == Some(utcDate)
    requires HeaderValue(request.headers, DigestHeader) == Some(digest)
    requires HeaderValue(request.headers, AuthorizationHeader) == Some(authorization)
    requires DigestMatches(crypto, digest, request.content)
    requires SignatureMatches(crypto, apiKey, apiSecret, authorization, CavageSigningString(targetRoute, utcDate, digest))
    ensures Authentic(crypto, apiKey, apiSecret, request)
  {
    assert request.url[|CognitoUrl|..] == targetRoute;
  }

  /** Every request the client signs passes the server's check, whatever the
      clock reading, route and body, as long as the key has no comma. */
  lemma SignedRequestAuthentic(crypto: Crypto, apiKey: string, apiSecret: string,
                               utcDate: string, targetRoute: string, body: string)
    requires KeySeparator !in apiKey
    ensures Authentic(crypto, apiKey, apiSecret, SignedRequest(crypto, apiKey, apiSecret, utcDate, targetRoute, body))
  {
    var request := SignedRequest(crypto, apiKey, apiSecret, utcDate, targetRoute, body);
    var digest := Program.GetDigest(crypto, body);
    var authorization := Constants.GetAuthorizationString(apiKey,
      Program.GetSignature(crypto, apiSecret, Constants.GetSigningString(targetRoute, utcDate, digest)));
    SentHeaders(utcDate, digest, authorization);
    SignedAuthorization(crypto, apiKey, apiSecret, targetRoute, utcDate, digest);
    AuthenticParts(crypto, apiKey, apiSecret, request, targetRoute, utcDate, digest, authorization);
  }
}
