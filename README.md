# CognitoNet request signing, modelled in Dafny

CognitoNet is a small C# console client for the Cognito identity API. It makes
two `POST` requests. The first creates a profile. The second runs an identity
search for a phone number under that profile. Each request is signed the
HTTP Signatures way (section 2.3 of draft-cavage-http-signatures):

- a `Digest` header holds `SHA-256=` and the base 64 of the SHA-256 of the
  UTF-8 body (section 4.3.2 of RFC 3230);
- a three-line signing string names the request target, the date and the
  digest;
- the HMAC-SHA256 of that string under the API secret goes, in base 64, into
  an `Authorization` header, next to the API key.

This project models that recipe. The modules are:

- `Results`: the exceptions the model distinguishes, `byte`, `Option`, `Result`.
- `Text`: `String.Split(char)` (empty fields kept) and `String.Join`, with
  their round trips and a brace-nesting measure for JSON bodies.
- `Format`: `String.Format`. A template is parsed into literal characters,
  escaped braces `{{`/`}}` and holes `{n}`. A malformed template raises a
  `FormatException`, and so does a hole past the argument list.
- `Templates`: shape lemmas about concrete templates, with values as
  variables.
- `Constants`: every constant of `Constants.cs`, the template builders
  `AuthUtils.GetSigningString`, `AuthUtils.GetAuthorizationString` and
  `RequestUtils.GetSearchRequestBody`, and readers that take a signing string
  or an authorization string apart again.
- `Base64`: `Convert.ToBase64String` per section 4 of RFC 4648, and a strict
  decoder that inverts it.
- `Utf8`: `Encoding.UTF8.GetBytes` per RFC 3629, and a decoder that inverts
  it.
- `Client`:
  - `Program` is a class holding the credentials. It has the key-file split,
    `GetDigest`, `GetSignature`, both `string.Join` builders, and the methods
    `SendRequestAndGetResponse` and `RunAsync`.
  - `RequestMessage` is the `HttpRequestMessage` the sender fills in header by
    header.
  - The server's check of a signed request is written as the predicate
    `Authentic`. It recomputes the digest and the signature and reads the key
    back out of the `Authorization` header.

SHA-256 and HMAC-SHA256 are a parameter `crypto` of type `Crypto`: any pair of
total functions returning 32 bytes. The clock reading is a parameter
`utcDate`. The network is a parameter `send` from request to response. The
JSON token lookup is a parameter `selectToken`. It gives the text at a path,
`None` for a missing token, or an exception. The key file's content is a
parameter of `Program.Load`.

Two behaviours of the code worth knowing:

- The code prints the search response and does not look at `data.type`.
  `ResponseTypes` and `DataType` are unused, as in the source.
- A missing `data.id` gives a null `profileID`, which `string.Format` writes
  as the empty string, so the model searches with an empty id (`OrEmpty`).

## Model

| member | source | states |
|---|---|---|
| Constants.GetSigningString | CognitoNet/Constants.cs:44 | the expanded signing template is exactly `(request-target): post <target>`, a newline, `date: <date>`, a newline, `digest: <digest>` |
| Constants.SigningStringHoles | CognitoNet/Constants.cs:44 | the signing template has the holes 0, 1, 2, each once, in that order |
| Constants.GetAuthorizationString | CognitoNet/Constants.cs:45 | the expanded authorization template is exactly `Signature keyId="<key>",algorithm="hmac-sha256",headers="(request-target) date digest",signature="<signature>"` |
| Constants.AuthorizationStringHoles | CognitoNet/Constants.cs:45 | the authorization template has the holes 0 and 1, each once, key first |
| Constants.GetSearchRequestBody | CognitoNet/Constants.cs:39 | every doubled brace of the search template comes out single, the phone replaces `{0}` and the profile id `{1}`: the exact JSON identity-search document |
| Constants.SearchRequestBodyHoles | CognitoNet/Constants.cs:39 | the search template has the holes 0 and 1, each exactly once, so the phone and the id are each substituted once |
| Constants.SearchRequestBodyBalanced | CognitoNet/Constants.cs:39 | for a phone and an id with no braces, the search document has as many `{` as `}` and no prefix with more `}` than `{` |
| Constants.ProfileCreatingRequestBodyBalanced | CognitoNet/Constants.cs:38 | the profile-creating document `{"data":{"type":"profile"}}` nests its braces properly |
| Constants.ProfileCreatingRequestBodyNotTemplate | CognitoNet/Constants.cs:38 | the profile document is not a format template (its braces are single), so it can only be sent verbatim: formatting it would throw a FormatException |
| Constants.SigningStringLines | CognitoNet/Constants.cs:44 | with newline-free values, the signing string splits into exactly three lines: `(request-target): post <target>`, `date: <date>`, `digest: <digest>`, named in the order the authorization header lists them |
| Constants.ReadGetSigningString | CognitoNet/Constants.cs:44 | for a newline-free target, date and digest, reading the signing string back gives the values it was built from |
| Constants.GetReadSigningString | CognitoNet/Constants.cs:44 | any text that reads as a signing string is the signing string of the values read, so those values are all it can come from |
| Constants.AuthorizationStringFields | CognitoNet/Constants.cs:45 | with comma-free key and signature, the authorization string has exactly four comma-separated parameters: keyId, algorithm, the signed headers joined by spaces, signature |
| Constants.ReadGetAuthorizationString | CognitoNet/Constants.cs:45 | for a comma-free key and signature, reading the authorization string back gives the key and the signature it was built from |
| Constants.GetReadAuthorizationString | CognitoNet/Constants.cs:45 | any text that reads as an authorization string is the authorization string of the key and signature read |
| Constants.SigningStringJoin | CognitoNet/Constants.cs:56-57 | for all values, the three signing lines joined by a newline equal the formatted signing template |
| Constants.AuthorizationStringJoin | CognitoNet/Constants.cs:65-66 | for all values, the four parameters joined by commas equal the formatted authorization template |
| Format.ParsePrint | CognitoNet/Constants.cs:57 | the parser reads back every token sequence from its canonical template: escaped braces and holes are told apart |
| Format.ParseNoBraces | CognitoNet/Constants.cs:57 | a text with no braces parses as its own characters, literally |
| Format.StringFormat | CognitoNet/Constants.cs:57 | `string.Format` succeeds exactly when the template parses and every hole is below the argument count, and any failure is a `FormatException`; `Format.RenderOk` and `Format.ParsePrint` pin the parse and the rendering |
| Format.RenderOk | CognitoNet/Constants.cs:72 | a parsed template renders exactly when each of its holes has an argument |
| Format.DecimalRoundTrip | CognitoNet/Constants.cs:44 | the hole index written in decimal is read back as itself |
| Text.Split | CognitoNet/Program.cs:25 | `String.Split` yields one field more than there are separators, and no field holds a separator |
| Text.Join | CognitoNet/Program.cs:73-78 | `String.Join` of no parts is empty and a join starts with its first part; `Text.SplitJoin` and `Text.JoinSplit` pin it as the inverse of `String.Split` |
| Text.SplitJoin | CognitoNet/Program.cs:78 | splitting parts joined by a separator they lack gives back the parts |
| Text.JoinSplit | CognitoNet/Program.cs:95 | joining the fields of a split with the separator gives back the text |
| Text.SplitFirst | CognitoNet/Program.cs:25-27 | the first field of a split is the text before the first separator; the rest are the split of the text after it |
| Text.NestBalanced | CognitoNet/Constants.cs:39 | the nesting scan ends at depth zero exactly when the text is balanced |
| Client.Program.Credentials | CognitoNet/Program.cs:24-27 | a key file with a comma gives the key before the first comma and the secret between the first and second comma (or to the end), untrimmed, later fields ignored; one with no comma raises IndexOutOfRangeException |
| Client.Program.Load | CognitoNet/Program.cs:21-28 | the constructor fails exactly as the split does, and otherwise holds the key and secret the split gives |
| Client.Program.Init | CognitoNet/Program.cs:26-27 | the fields are set to the key and secret |
| Client.Program.GetDigest | CognitoNet/Program.cs:35-43 | the digest is 52 characters: `SHA-256=` then a base 64 text of 44 characters ending in `=`, which decodes to the SHA-256 of the UTF-8 body |
| Client.Program.GetSignature | CognitoNet/Program.cs:50-61 | the signature is 44 base 64 characters ending in `=`, with no comma, and decodes to the HMAC-SHA256 of the UTF-8 data under the UTF-8 secret |
| Client.Program.GetSigningString | CognitoNet/Program.cs:69-79 | joining the three interpolated lines for `post /profiles` equals `AuthUtils.GetSigningString("/profiles", date, digest)` for all dates and digests |
| Client.Program.GetAuthorizationString | CognitoNet/Program.cs:87-96 | joining the four parts with commas equals `AuthUtils.GetAuthorizationString(key, signature)` for all keys and signatures |
| Client.RequestMessage.constructor | CognitoNet/Program.cs:116 | a new message has the verb and URL and no headers or content yet |
| Client.RequestMessage.AddHeader | CognitoNet/Program.cs:118-121 | the header is appended to the headers, and nothing else changes |
| Client.RequestMessage.AddAccept | CognitoNet/Program.cs:123 | the media type is appended to the Accept list, and nothing else changes |
| Client.RequestMessage.SetContent | CognitoNet/Program.cs:114-126 | the content becomes the UTF-8 bytes of the body with its content type; the headers stay |
| Client.HeaderValue | CognitoNet/Program.cs:118-121 | a header lookup finds a value exactly when a header of that name was added, and the value is that of the first header of that name |
| Client.ResponseBody | CognitoNet/Program.cs:128-130 | a 2xx response yields its body; any other status raises an HttpRequestException carrying the status; a transport failure propagates |
| Client.Program.SendRequestAndGetResponse | CognitoNet/Program.cs:104-132 | the request sent is `SignedRequest` of one date and one body: a POST to the base URL plus the route, whose Date and Digest headers carry the date and digest that went into the signing string, and whose Authorization header carries the key and the signature of that string under the secret; the result is the response body by the 2xx rule |
| Client.Program.RunAsync | CognitoNet/Program.cs:137-169 | the profile document goes to `/profiles`; if the response is 2xx and its `data.id` lookup succeeds, the search document for the phone and that id (empty when missing) goes to `/identity_searches` and its body is the result; any earlier exception ends the run with that exception, and no second request is sent |
| Client.SignedRequestAuthentic | CognitoNet/Program.cs:106-126 | for every date, route and body, and every comma-free key, the signed request passes the server's check: its digest matches its content, and its authorization header names the key and signs the route, date and digest it carries |
| Client.SentHeaders | CognitoNet/Program.cs:118-121 | each of the four added headers is found by its name with the value it was added with |
| Client.SignedAuthorization | CognitoNet/Program.cs:108-110 | for a comma-free key, the authorization built from the signature of the formatted signing string names that key, and its signature decodes to the HMAC-SHA256, under the secret, of the signing string rebuilt line by line |
| Base64.Encode | CognitoNet/Program.cs:41 | the encoding takes four characters per started group of three bytes, all from the alphabet or padding |
| Base64.DecodeEncode | CognitoNet/Program.cs:41 | decoding an encoding gives back the bytes |
| Base64.EncodeDecode | CognitoNet/Program.cs:60 | only an encoding decodes: a text that decodes is the encoding of its bytes |
| Base64.EncodeHash | CognitoNet/Program.cs:40-41 | a 32-byte hash encodes to 44 characters, ending in exactly one `=` |
| Base64.EncodeTail | CognitoNet/Program.cs:60 | a byte count of 2 modulo 3 ends in exactly one `=` |
| Base64.EncodeAvoids | CognitoNet/Program.cs:60 | a character outside the alphabet, such as the key separator, never appears in an encoding |
| Utf8.Encode | CognitoNet/Program.cs:39 | each character takes one to four bytes |
| Utf8.DecodeEncodeChar | CognitoNet/Program.cs:53 | each character's bytes decode to the character, whatever follows |
| Utf8.DecodeEncode | CognitoNet/Program.cs:55 | decoding the UTF-8 bytes of a string gives back the string |

## Left out

- SHA-256 and HMAC-SHA256 are a parameter, not computed. Any pair of 32-byte functions is allowed, so nothing depends on the hash algorithm.
- `File.ReadAllText` of `key.txt` is not modelled. `Program.Load` takes the file's text, and a missing file is not represented.
- `HttpClient`, `async`/`await` and the transport are not modelled. The network is the `send` parameter, called once per request in program order.
- `DateTimeOffset.Now.ToString("r")` is not modelled. Each request takes its date as a string parameter.
- Newtonsoft's `JObject.Parse` and `SelectToken` are not modelled. The `selectToken` parameter stands for them and may raise `JsonReaderException`, or `ArgumentException` when `data.id` is an object or an array.
- `HttpClient.SendAsync` is not modelled. The `send` parameter stands for it and may fail with `HttpRequestException` or, past its timeout, `TaskCanceledException`. Other exceptions of the .NET runtime (out of memory, thread abort, file access errors of `File.ReadAllText`) are not distinguished.
- Console output, `Console.ReadKey`, `Main` and the `catch` blocks that log exceptions are not modelled. `RunAsync` returns the exception as its result.
- Format alignment and format specifiers (`{0,5}`, `{0:x}`) are rejected as malformed. No template of the client uses them.
- Whitespace between a hole's index and its closing brace is rejected as malformed, though .NET accepts it. No template of the client has any.
- Dafny strings cannot hold lone UTF-16 surrogates. .NET would encode them as U+FFFD.
- `Program.GetSigningString` is unused in the source. It is modelled and proved equal to the template builder for `/profiles`, but nothing calls it.
- `Client.Program.SendRequestAndGetResponse`: its ensures ties the request to `SignedRequest` and leaves the server's check to `Client.SignedRequestAuthentic`. That lemma needs a comma-free key, which every `Program` built from a split has.
- `Client.RequestMessage.AddHeader`: the value checks of `HttpRequestHeaders.Add` are not modelled. .NET parses the `Authorization` value as credentials, and a key with a stray `"` (a key file such as `a"b,s`) makes it throw a `FormatException` before anything is sent, which `RunAsync` catches. The model adds the header and sends the request, and `Client.SignedRequestAuthentic` calls it authentic.
- `Client.Program.SendRequestAndGetResponse`: the request message lives in one method. Aliasing of `HttpRequestMessage` objects and disposal of `HttpClient` are not modelled.
- No response-type check and no polling of identity-search jobs exist in the code, so the model has neither. The `ResponseTypes` and `DataType` constants are kept, unused as in the source.
