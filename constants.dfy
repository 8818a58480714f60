/** The constants of the client (CognitoNet/Constants.cs) and the three
    template builders AuthUtils.GetSigningString, AuthUtils.GetAuthorizationString
    and RequestUtils.GetSearchRequestBody, each a string.Format of a constant
    template. Long templates are written as a concatenation of short literals;
    the text is character for character that of the source. */
module Constants {
  import opened Results
  import opened Format
  import opened Text
  import opened Templates

  // Headers
  const DateHeader: string := "Date"
  const DigestHeader: string := "Digest"
  const AuthorizationHeader: string := "Authorization"
  const CognitoVersionHeader: string := "Cognito-Version"

  // Config
  const KeyFile: string := "key.txt"
  const KeySeparator: char := ','

  // Cognito
  const CognitoUrl: string := "https://sandbox.cognitohq.com"
  const ContentType: string := "application/vnd.api+json"
  const AcceptType: string := "application/vnd.api+json"
  const Version: string := "2016-09-01"

  // CognitoUrlRoutes
  const Profiles: string := "/profiles"
  const IdentitySearches: string := "/identity_searches"

  // RequestTypes
  const RequestTypeProfile: string := "profile"

  // ResponseTypes
  const ResponseTypeProfile: string := "profile"
  const ResponseTypeIdentitySearch: string := "identity_search"
  const ResponseTypeIdentitySearchJob: string := "identity_search_job"

  // JsonResponsePaths
  const DataId: string := "data.id"
  const DataType: string := "data.type"

  // Messages
  const PressAnyKeyToStopProgram: string := "Press any key to stop program"

  // RequestBodies
  const ProfileCreatingRequestBody: string := "{" + "\"data\":" + "{" + "\"type\":\"profile\"" + "}" + "}"
  const SearchRequestBody: string :=
      ("{{" + "\"data\":" + "{{" + "\"type\":\"identity_search\",")
    + ("\"attributes\":" + "{{" + "\"phone\":" + "{{" + "\"number\":\"" + "{0}")
    + ("\"" + "}}" + "}}" + ",\"relationships\":" + "{{" + "\"profile\":")
    + ("{{" + "\"data\":" + "{{" + "\"type\":\"profile\",\"id\":\"" + "{1}")
    + ("\"" + "}}" + "}}" + "}}" + "}}" + "}}")
  // AuthStrings
  const SigningString: string :=
      ("(request-target)" + ": " + "post " + "{0}")
    + ("\n" + "date" + ": " + "{1}")
    + ("\n" + "digest" + ": " + "{2}")
  const AuthorizationString: string :=
      ("Signature " + "keyId" + "=\"" + "{0}" + "\"")
    + ("," + "algorithm" + "=\"" + "hmac-sha256" + "\"")
    + ("," + "headers" + "=\"" + "(request-target)" + " " + "date" + " " + "digest" + "\"")
    + ("," + "signature" + "=\"" + "{1}" + "\"")
  /** The header names the authorization string lists as signed. */
  const SignedHeaderNames: seq<string> := ["(request-target)", "date", "digest"]

  // ---- AuthUtils and RequestUtils ----

  /** AuthUtils.GetSigningString: the request target, date and digest, each on its own labelled line. */
  function GetSigningString(requestTarget: string, utcDate: string, digest: string): (s: string)
    ensures s == ("(request-target)" + ": " + "post " + requestTarget)
               + ("\n" + "date" + ": " + utcDate)
               + ("\n" + "digest" + ": " + digest)
  {
    SigningStringTexts();
    SigningStringShape("(request-target)", ": ", "post ", "\n", "date", ": ", "\n", "digest", ": ", [requestTarget, utcDate, digest]);
    StringFormat(SigningString, [requestTarget, utcDate, digest]).value
  }

  /** The holes of the SigningString template, in order of appearance. */
  lemma SigningStringHoles()
    ensures Placeholders(SigningString) == Ok([0, 1, 2])
  {
    SigningStringTexts();
    SigningStringHoleShape("(request-target)", ": ", "post ", "\n", "date", ": ", "\n", "digest", ": ");
  }

  /** AuthUtils.GetAuthorizationString: the Signature header value, with the key id and the signature in quotes. */
  function GetAuthorizationString(apiKey: string, signature: string): (s: string)
    ensures s == ("Signature " + "keyId" + "=\"" + apiKey + "\"")
               + ("," + "algorithm" + "=\"" + "hmac-sha256" + "\"")
               + ("," + "headers" + "=\"" + "(request-target)" + " " + "date" + " " + "digest" + "\"")
               + ("," + "signature" + "=\"" + signature + "\"")
  {
    AuthorizationStringTexts();
    AuthorizationStringShape("Signature ", "keyId", "=\"", "\"", ",", "algorithm", "=\"", "hmac-sha256", "\"", ",", "headers", "=\"", "(request-target)", " ", "date", " ", "digest", "\"", ",", "signature", "=\"", "\"", [apiKey, signature]);
    StringFormat(AuthorizationString, [apiKey, signature]).value
  }

  /** The holes of the AuthorizationString template, in order of appearance. */
  lemma AuthorizationStringHoles()
    ensures Placeholders(AuthorizationString) == Ok([0, 1])
  {
    AuthorizationStringTexts();
    AuthorizationStringHoleShape("Signature ", "keyId", "=\"", "\"", ",", "algorithm", "=\"", "hmac-sha256", "\"", ",", "headers", "=\"", "(request-target)", " ", "date", " ", "digest", "\"", ",", "signature", "=\"", "\"");
  }

  /** RequestUtils.GetSearchRequestBody: the identity-search document, each doubled brace of the template written once. */
  function GetSearchRequestBody(phone: string, profileId: string): (s: string)
    ensures s == ("{" + "\"data\":" + "{" + "\"type\":\"identity_search\",")
               + ("\"attributes\":" + "{" + "\"phone\":" + "{" + "\"number\":\"" + phone)
               + ("\"" + "}" + "}" + ",\"relationships\":" + "{" + "\"profile\":")
               + ("{" + "\"data\":" + "{" + "\"type\":\"profile\",\"id\":\"" + profileId)
               + ("\"" + "}" + "}" + "}" + "}" + "}")
  {
    SearchRequestBodyTexts();
    SearchRequestBodyShape("\"data\":", "\"type\":\"identity_search\",", "\"attributes\":", "\"phone\":", "\"number\":\"", "\"", ",\"relationships\":", "\"profile\":", "\"data\":", "\"type\":\"profile\",\"id\":\"", "\"", [phone, profileId]);
    StringFormat(SearchRequestBody, [phone, profileId]).value
  }

  /** The holes of the SearchRequestBody template, in order of appearance. */
  lemma SearchRequestBodyHoles()
    ensures Placeholders(SearchRequestBody) == Ok([0, 1])
  {
    SearchRequestBodyTexts();
    SearchRequestBodyHoleShape("\"data\":", "\"type\":\"identity_search\",", "\"attributes\":", "\"phone\":", "\"number\":\"", "\"", ",\"relationships\":", "\"profile\":", "\"data\":", "\"type\":\"profile\",\"id\":\"", "\"");
  }

  // ---- the structure of the signing string ----

  /** One line of a signing string: a component name, a colon and a space, then its value. */
  function SigningLine(name: string, value: string): string
  {
    name + ": " + value
  }

  /** The rest of `s` after `prefix`, or None when `s` does not start with it. */
  function StripPrefix(prefix: string, s: string): (r: Option<string>)
    ensures r.Some? <==> prefix <= s
    ensures r.Some? ==> s == prefix + r.value
  {
    if prefix <= s then Some(s[|prefix|..]) else None
  }

  /** Reads the request target, date and digest back out of a signing string:
      three lines naming the signed components in order, the first a post. */
  function ReadSigningString(s: string): Option<(string, string, string)>
  {
    var lines := Split(s, '\n');
    if |lines| != 3 then None
    else
      match (StripPrefix(SigningLine(SignedHeaderNames[0], "post "), lines[0]),
             StripPrefix(SigningLine(SignedHeaderNames[1], ""), lines[1]),
             StripPrefix(SigningLine(SignedHeaderNames[2], ""), lines[2]))
      case (Some(t), Some(d), Some(g)) => Some((t, d, g))
      case _ => None
  }

  lemma SigningTextsNewlineFree()
    ensures '\n' !in "(request-target)" && '\n' !in ": " && '\n' !in "post "
    ensures '\n' !in "date" && '\n' !in "digest"
  {
  }

  /** With newline-free values, the signing string has exactly one line per
      signed header, in the order the authorization string lists them. */
  lemma SigningStringLines(requestTarget: string, utcDate: string, digest: string)
    requires '\n' !in requestTarget && '\n' !in utcDate && '\n' !in digest
    ensures Split(GetSigningString(requestTarget, utcDate, digest), '\n')
         == [SigningLine(SignedHeaderNames[0], "post " + requestTarget),
             SigningLine(SignedHeaderNames[1], utcDate),
             SigningLine(SignedHeaderNames[2], digest)]
  {
    SigningTextsNewlineFree();
    SigningLinesShape("(request-target)", ": ", "post ", requestTarget, "date", ": ", utcDate, "digest", ": ", digest);
    Lead3("(request-target)" + ": ", "post ", requestTarget);
  }

  /** Reading a signing string gives back the values it was built from. */
  lemma ReadGetSigningString(requestTarget: string, utcDate: string, digest: string)
    requires '\n' !in requestTarget && '\n' !in utcDate && '\n' !in digest
    ensures ReadSigningString(GetSigningString(requestTarget, utcDate, digest)) == Some((requestTarget, utcDate, digest))
  {
    SigningStringLines(requestTarget, utcDate, digest);
    Lead3(SignedHeaderNames[0] + ": ", "post ", requestTarget);
    assert SigningLine(SignedHeaderNames[1], utcDate) == SigningLine(SignedHeaderNames[1], "") + utcDate;
    assert SigningLine(SignedHeaderNames[2], digest) == SigningLine(SignedHeaderNames[2], "") + digest;
  }

  /** Any text that reads as a signing string is the signing string of what it reads as:
      the signing string determines its values and nothing else can produce it. */
  lemma GetReadSigningString(s: string)
    requires ReadSigningString(s).Some?
    ensures var (t, d, g) := ReadSigningString(s).value;
      '\n' !in t && '\n' !in d && '\n' !in g && GetSigningString(t, d, g) == s
  {
    var (t, d, g) := ReadSigningString(s).value;
    var lines := Split(s, '\n');
    assert lines[0] == SigningLine(SignedHeaderNames[0], "post ") + t;
    assert lines[1] == SigningLine(SignedHeaderNames[1], "") + d;
    assert lines[2] == SigningLine(SignedHeaderNames[2], "") + g;
    assert '\n' !in lines[0] && '\n' !in lines[1] && '\n' !in lines[2];
    SigningStringLines(t, d, g);
    Lead3(SignedHeaderNames[0] + ": ", "post ", t);
    var built := GetSigningString(t, d, g);
    assert SigningLine(SignedHeaderNames[0], "post ") + t == SigningLine(SignedHeaderNames[0], "post " + t);
    assert SigningLine(SignedHeaderNames[1], "") == SigningLine(SignedHeaderNames[1], "") + "";
    assert lines[1] == SigningLine(SignedHeaderNames[1], d);
    assert lines[2] == SigningLine(SignedHeaderNames[2], g);
    assert Split(built, '\n') == lines;
    JoinSplit(s, '\n');
    JoinSplit(built, '\n');
  }

  // ---- the structure of the authorization string ----

  /** An authorization parameter: its name, an equals sign, then its value in double quotes. */
  function Parameter(name: string, value: string): string
  {
    name + "=\"" + value + "\""
  }

  /** The quoted value of parameter `name` in `field`, or None when the field is not that parameter. */
  function ParameterValue(name: string, field: string): (r: Option<string>)
    ensures r.Some? ==> field == Parameter(name, r.value)
  {
    var prefix := name + "=\"";
    if prefix <= field && |field| > |prefix| && field[|field| - 1] == '"' then
      assert field == prefix + field[|prefix|..|field| - 1] + "\"";
      Some(field[|prefix|..|field| - 1])
    else None
  }

  lemma ParameterValueOf(name: string, value: string)
    ensures ParameterValue(name, Parameter(name, value)) == Some(value)
  {
    var field := Parameter(name, value);
    var prefix := name + "=\"";
    assert field == prefix + value + "\"";
    assert field[|prefix|..|field| - 1] == value;
  }

  /** Reads the key id and the signature back out of an authorization string: four
      comma-separated parameters, the algorithm and the signed headers fixed. */
  function ReadAuthorizationString(s: string): Option<(string, string)>
  {
    var fields := Split(s, ',');
    if |fields| != 4 then None
    else
      var first := StripPrefix("Signature ", fields[0]);
      var apiKey := if first.Some? then ParameterValue("keyId", first.value) else None;
      var signature := ParameterValue("signature", fields[3]);
      if apiKey.Some? && signature.Some?
         && fields[1] == Parameter("algorithm", "hmac-sha256")
         && fields[2] == Parameter("headers", Join(SignedHeaderNames, " "))
      then Some((apiKey.value, signature.value))
      else None
  }

  lemma AuthorizationTextsCommaFree()
    ensures ',' !in "Signature " && ',' !in "keyId" && ',' !in "=\"" && ',' !in "\""
    ensures ',' !in "algorithm" && ',' !in "hmac-sha256" && ',' !in "headers" && ',' !in "signature"
    ensures ',' !in "(request-target)" && ',' !in " " && ',' !in "date" && ',' !in "digest"
  {
  }

  /** With comma-free key and signature, the authorization string has exactly four
      parameters: the key id, the algorithm, the signed headers in signing order, the signature. */
  lemma AuthorizationStringFields(apiKey: string, signature: string)
    requires ',' !in apiKey && ',' !in signature
    ensures Split(GetAuthorizationString(apiKey, signature), ',')
         == ["Signature " + Parameter("keyId", apiKey),
             Parameter("algorithm", "hmac-sha256"),
             Parameter("headers", Join(SignedHeaderNames, " ")),
             Parameter("signature", signature)]
  {
    AuthorizationTextsCommaFree();
    AuthorizationFieldsShape("Signature ", "keyId", "=\"", apiKey, "\"", "algorithm", "hmac-sha256",
                             "headers", "(request-target)", " ", "date", "digest", "signature", signature);
  }

  /** Reading an authorization string gives back the key id and signature it was built from. */
  lemma ReadGetAuthorizationString(apiKey: string, signature: string)
    requires ',' !in apiKey && ',' !in signature
    ensures ReadAuthorizationString(GetAuthorizationString(apiKey, signature)) == Some((apiKey, signature))
  {
    AuthorizationStringFields(apiKey, signature);
    ParameterValueOf("keyId", apiKey);
    ParameterValueOf("signature", signature);
  }

  /** Any text that reads as an authorization string is the authorization string of what it reads as. */
  lemma GetReadAuthorizationString(s: string)
    requires ReadAuthorizationString(s).Some?
    ensures var (k, g) := ReadAuthorizationString(s).value;
      ',' !in k && ',' !in g && GetAuthorizationString(k, g) == s
  {
    var (k, g) := ReadAuthorizationString(s).value;
    var fields := Split(s, ',');
    assert fields[0] == "Signature " + Parameter("keyId", k);
    assert fields[3] == Parameter("signature", g);
    assert ',' !in fields[0] && ',' !in fields[3];
    AuthorizationStringFields(k, g);
    var built := GetAuthorizationString(k, g);
    assert Split(built, ',') == fields;
    JoinSplit(s, ',');
    JoinSplit(built, ',');
  }

  // ---- the request bodies ----

  lemma ProfileTexts()
    ensures NoBraces("\"data\":") && NoBraces("\"type\":\"profile\"")
  {
  }

  /** The profile-creating document is sent as it is and never formatted: read
      as a template it is malformed, since its braces are not doubled. */
  lemma ProfileCreatingRequestBodyNotTemplate(args: seq<string>)
    ensures StringFormat(ProfileCreatingRequestBody, args) == Err(FormatException)
  {
    var s := ProfileCreatingRequestBody;
    assert s[0] == '{' && s[1] == '"';
    assert DigitRun(s[1..]) == 0;
    assert Next(s) == Err(FormatException);
  }

  /** The profile-creating document nests its braces properly. */
  lemma ProfileCreatingRequestBodyBalanced()
    ensures Balanced(ProfileCreatingRequestBody)
  {
    ProfileTexts();
    NestedObjectShape("\"data\":", "\"type\":\"profile\"");
    NestBalanced(ProfileCreatingRequestBody);
  }

  /** The identity-search document nests its braces properly for every brace-free
      phone number and profile id: the doubled braces of the template become single ones. */
  lemma SearchRequestBodyBalanced(phone: string, profileId: string)
    requires NoBraces(phone) && NoBraces(profileId)
    ensures Balanced(GetSearchRequestBody(phone, profileId))
  {
    SearchRequestBodyTexts();
    var l1 := "{" + "\"data\":" + "{" + "\"type\":\"identity_search\",";
    var l2 := "\"attributes\":" + "{" + "\"phone\":" + "{" + "\"number\":\"" + phone;
    var l3 := "\"" + "}" + "}" + ",\"relationships\":" + "{" + "\"profile\":";
    var l4 := "{" + "\"data\":" + "{" + "\"type\":\"profile\",\"id\":\"" + profileId;
    var l5 := "\"" + "}" + "}" + "}" + "}" + "}";
    SearchRequestBodyNestShape(l1, l2, l3, l4, l5, "\"data\":", "\"type\":\"identity_search\",", "\"attributes\":",
      "\"phone\":", "\"number\":\"", "\"", ",\"relationships\":", "\"profile\":", "\"data\":",
      "\"type\":\"profile\",\"id\":\"", "\"", phone, profileId);
    NestBalanced(GetSearchRequestBody(phone, profileId));
  }

  // ---- the templates as joined lines ----

  /** The signing string is its three signing lines joined by newlines, whatever the values. */
  lemma SigningStringJoin(requestTarget: string, utcDate: string, digest: string)
    ensures Join([SigningLine(SignedHeaderNames[0], "post " + requestTarget),
                  SigningLine(SignedHeaderNames[1], utcDate),
                  SigningLine(SignedHeaderNames[2], digest)], "\n")
         == GetSigningString(requestTarget, utcDate, digest)
  {
    SigningJoinShape("(request-target)", ": ", "post ", requestTarget, "date", ": ", utcDate, "digest", ": ", digest);
  }

  /** The authorization string is its four parameters joined by commas, whatever the values. */
  lemma AuthorizationStringJoin(apiKey: string, signature: string)
    ensures Join(["Signature " + Parameter("keyId", apiKey),
                  Parameter("algorithm", "hmac-sha256"),
                  Parameter("headers", Join(SignedHeaderNames, " ")),
                  Parameter("signature", signature)], ",")
         == GetAuthorizationString(apiKey, signature)
  {
    AuthorizationJoinShape("Signature ", "keyId", "=\"", apiKey, "\"", "algorithm", "hmac-sha256",
                           "headers", "(request-target)", " ", "date", "digest", "signature", signature);
    Lead5("Signature ", "keyId", "=\"", apiKey, "\"");
    HeadersField("headers", "=\"", "(request-target)", " ", "date", "digest", "\"");
  }
}
