/** The shapes of the three string.Format templates of CognitoNet/Constants.cs:
    each template is brace-free text, doubled braces and numbered holes, and
    its shape lemma says what String.Format makes of it for any brace-free text. */
module Templates {
  import opened Results
  import opened Format
  import opened Text

  /** What String.Format makes of the SigningString template, for any brace-free text in it. */
  lemma SigningStringShape(name0: string, colon0: string, verb: string, nl1: string, name1: string, colon1: string, nl2: string, name2: string, colon2: string, args: seq<string>)
    requires NoBraces(name0) && NoBraces(colon0) && NoBraces(verb) && NoBraces(nl1) && NoBraces(name1) && NoBraces(colon1) && NoBraces(nl2) && NoBraces(name2) && NoBraces(colon2)
    requires |args| == 3
    ensures StringFormat(
        (name0 + colon0 + verb + "{0}")
      + (nl1 + name1 + colon1 + "{1}")
      + (nl2 + name2 + colon2 + "{2}"),
        args)
         == Ok((name0 + colon0 + verb + args[0])
           + (nl1 + name1 + colon1 + args[1])
           + (nl2 + name2 + colon2 + args[2]))
  {
    FormatPlain(name0, args);
    FormatPlain(colon0, args);
    FormatPlain(verb, args);
    FormatPlain(nl1, args);
    FormatPlain(name1, args);
    FormatPlain(colon1, args);
    FormatPlain(nl2, args);
    FormatPlain(name2, args);
    FormatPlain(colon2, args);
    FormatHole0(args);
    FormatHole1(args);
    FormatHole2(args);
    Step(name0, colon0, args, name0, colon0);
    Step(name0 + colon0, verb, args, name0 + colon0, verb);
    Step(name0 + colon0 + verb, "{0}", args, name0 + colon0 + verb, args[0]);
    Step(nl1, name1, args, nl1, name1);
    Step(nl1 + name1, colon1, args, nl1 + name1, colon1);
    Step(nl1 + name1 + colon1, "{1}", args, nl1 + name1 + colon1, args[1]);
    Step(nl2, name2, args, nl2, name2);
    Step(nl2 + name2, colon2, args, nl2 + name2, colon2);
    Step(nl2 + name2 + colon2, "{2}", args, nl2 + name2 + colon2, args[2]);
    Step((name0 + colon0 + verb + "{0}"), (nl1 + name1 + colon1 + "{1}"), args, (name0 + colon0 + verb + args[0]), (nl1 + name1 + colon1 + args[1]));
    Step((name0 + colon0 + verb + "{0}") + (nl1 + name1 + colon1 + "{1}"), (nl2 + name2 + colon2 + "{2}"), args, (name0 + colon0 + verb + args[0]) + (nl1 + name1 + colon1 + args[1]), (nl2 + name2 + colon2 + args[2]));
  }

  /** The holes of the SigningString template, in order, for any brace-free text in it. */
  lemma SigningStringHoleShape(name0: string, colon0: string, verb: string, nl1: string, name1: string, colon1: string, nl2: string, name2: string, colon2: string)
    requires NoBraces(name0) && NoBraces(colon0) && NoBraces(verb) && NoBraces(nl1) && NoBraces(name1) && NoBraces(colon1) && NoBraces(nl2) && NoBraces(name2) && NoBraces(colon2)
    ensures Placeholders(
        (name0 + colon0 + verb + "{0}")
      + (nl1 + name1 + colon1 + "{1}")
      + (nl2 + name2 + colon2 + "{2}"))
      == Ok([0, 1, 2])
  {
    PlaceholdersHole0();
    PlaceholdersHole1();
    PlaceholdersHole2();
    PieceHoles(name0, colon0, verb, "{0}", 0);
    PieceHoles(nl1, name1, colon1, "{1}", 1);
    PieceHoles(nl2, name2, colon2, "{2}", 2);
    PlaceholdersStep((name0 + colon0 + verb + "{0}"), (nl1 + name1 + colon1 + "{1}"), [0], [1]);
    assert [0] + [1] == [0, 1];
    PlaceholdersStep((name0 + colon0 + verb + "{0}") + (nl1 + name1 + colon1 + "{1}"), (nl2 + name2 + colon2 + "{2}"), [0, 1], [2]);
    assert [0, 1] + [2] == [0, 1, 2];
  }

  // The literal pieces of the SigningString template, one brace-free fact per lemma:
  // proved together in one lemma, they make a proof obligation too large.
  lemma SigningStringText1() ensures NoBraces("(request-target)") { }
  lemma SigningStringText2() ensures NoBraces(": ") { }
  lemma SigningStringText3() ensures NoBraces("post ") { }
  lemma SigningStringText4() ensures NoBraces("\n") { }
  lemma SigningStringText5() ensures NoBraces("date") { }
  lemma SigningStringText6() ensures NoBraces("digest") { }

  /** The literal text of the SigningString template has no brace of its own. */
  lemma SigningStringTexts()
    ensures NoBraces("(request-target)")
    ensures NoBraces(": ")
    ensures NoBraces("post ")
    ensures NoBraces("\n")
    ensures NoBraces("date")
    ensures NoBraces("digest")
  {
    SigningStringText1();
    SigningStringText2();
    SigningStringText3();
    SigningStringText4();
    SigningStringText5();
    SigningStringText6();
  }

  /** What String.Format makes of the AuthorizationString template, for any brace-free text in it. */
  lemma AuthorizationStringShape(scheme: string, keyName: string, open0: string, close0: string, comma1: string, algName: string, open1: string, algValue: string, close1: string, comma2: string, headersName: string, open2: string, header0: string, space0: string, header1: string, space1: string, header2: string, close2: string, comma3: string, sigName: string, open3: string, close3: string, args: seq<string>)
    requires NoBraces(scheme) && NoBraces(keyName) && NoBraces(open0) && NoBraces(close0) && NoBraces(comma1) && NoBraces(algName) && NoBraces(open1) && NoBraces(algValue) && NoBraces(close1) && NoBraces(comma2) && NoBraces(headersName) && NoBraces(open2) && NoBraces(header0) && NoBraces(space0) && NoBraces(header1) && NoBraces(space1) && NoBraces(header2) && NoBraces(close2) && NoBraces(comma3) && NoBraces(sigName) && NoBraces(open3) && NoBraces(close3)
    requires |args| == 2
    ensures StringFormat(
        (scheme + keyName + open0 + "{0}" + close0)
      + (comma1 + algName + open1 + algValue + close1)
      + (comma2 + headersName + open2 + header0 + space0 + header1 + space1 + header2 + close2)
      + (comma3 + sigName + open3 + "{1}" + close3),
        args)
         == Ok((scheme + keyName + open0 + args[0] + close0)
           + (comma1 + algName + open1 + algValue + close1)
           + (comma2 + headersName + open2 + header0 + space0 + header1 + space1 + header2 + close2)
           + (comma3 + sigName + open3 + args[1] + close3))
  {
    FormatPlain(scheme, args);
    FormatPlain(keyName, args);
    FormatPlain(open0, args);
    FormatPlain(close0, args);
    FormatPlain(comma1, args);
    FormatPlain(algName, args);
    FormatPlain(open1, args);
    FormatPlain(algValue, args);
    FormatPlain(close1, args);
    FormatPlain(comma2, args);
    FormatPlain(headersName, args);
    FormatPlain(open2, args);
    FormatPlain(header0, args);
    FormatPlain(space0, args);
    FormatPlain(header1, args);
    FormatPlain(space1, args);
    FormatPlain(header2, args);
    FormatPlain(close2, args);
    FormatPlain(comma3, args);
    FormatPlain(sigName, args);
    FormatPlain(open3, args);
    FormatPlain(close3, args);
    FormatHole0(args);
    FormatHole1(args);
    Step(scheme, keyName, args, scheme, keyName);
    Step(scheme + keyName, open0, args, scheme + keyName, open0);
    Step(scheme + keyName + open0, "{0}", args, scheme + keyName + open0, args[0]);
    Step(scheme + keyName + open0 + "{0}", close0, args, scheme + keyName + open0 + args[0], close0);
    Step(comma1, algName, args, comma1, algName);
    Step(comma1 + algName, open1, args, comma1 + algName, open1);
    Step(comma1 + algName + open1, algValue, args, comma1 + algName + open1, algValue);
    Step(comma1 + algName + open1 + algValue, close1, args, comma1 + algName + open1 + algValue, close1);
    Step(comma2, headersName, args, comma2, headersName);
    Step(comma2 + headersName, open2, args, comma2 + headersName, open2);
    Step(comma2 + headersName + open2, header0, args, comma2 + headersName + open2, header0);
    Step(comma2 + headersName + open2 + header0, space0, args, comma2 + headersName + open2 + header0, space0);
    Step(comma2 + headersName + open2 + header0 + space0, header1, args, comma2 + headersName + open2 + header0 + space0, header1);
    Step(comma2 + headersName + open2 + header0 + space0 + header1, space1, args, comma2 + headersName + open2 + header0 + space0 + header1, space1);
    Step(comma2 + headersName + open2 + header0 + space0 + header1 + space1, header2, args, comma2 + headersName + open2 + header0 + space0 + header1 + space1, header2);
    Step(comma2 + headersName + open2 + header0 + space0 + header1 + space1 + header2, close2, args, comma2 + headersName + open2 + header0 + space0 + header1 + space1 + header2, close2);
    Step(comma3, sigName, args, comma3, sigName);
    Step(comma3 + sigName, open3, args, comma3 + sigName, open3);
    Step(comma3 + sigName + open3, "{1}", args, comma3 + sigName + open3, args[1]);
    Step(comma3 + sigName + open3 + "{1}", close3, args, comma3 + sigName + open3 + args[1], close3);
    Step((scheme + keyName + open0 + "{0}" + close0), (comma1 + algName + open1 + algValue + close1), args, (scheme + keyName + open0 + args[0] + close0), (comma1 + algName + open1 + algValue + close1));
    Step((scheme + keyName + open0 + "{0}" + close0) + (comma1 + algName + open1 + algValue + close1), (comma2 + headersName + open2 + header0 + space0 + header1 + space1 + header2 + close2), args, (scheme + keyName + open0 + args[0] + close0) + (comma1 + algName + open1 + algValue + close1), (comma2 + headersName + open2 + header0 + space0 + header1 + space1 + header2 + close2));
    Step((scheme + keyName + open0 + "{0}" + close0) + (comma1 + algName + open1 + algValue + close1) + (comma2 + headersName + open2 + header0 + space0 + header1 + space1 + header2 + close2), (comma3 + sigName + open3 + "{1}" + close3), args, (scheme + keyName + open0 + args[0] + close0) + (comma1 + algName + open1 + algValue + close1) + (comma2 + headersName + open2 + header0 + space0 + header1 + space1 + header2 + close2), (comma3 + sigName + open3 + args[1] + close3));
  }

  lemma AuthorizationStringHoleLine1(scheme: string, keyName: string, open0: string, close0: string)
    requires NoBraces(scheme) && NoBraces(keyName) && NoBraces(open0) && NoBraces(close0)
    ensures Placeholders(scheme + keyName + open0 + "{0}" + close0) == Ok([0])
  {
    var none: seq<nat> := [];
    PlaceholdersHole0();
    PlaceholdersPlain(scheme);
    PlaceholdersPlain(keyName);
    PlaceholdersPlain(open0);
    PlaceholdersPlain(close0);
    PlaceholdersThen(scheme, keyName, none);
    PlaceholdersThen(scheme + keyName, open0, none);
    PlaceholdersStep(scheme + keyName + open0, "{0}", [], [0]);
    assert [] + [0] == [0];
    PlaceholdersThen(scheme + keyName + open0 + "{0}", close0, [0]);
  }

  lemma AuthorizationStringHoleLine2(comma1: string, algName: string, open1: string, algValue: string, close1: string)
    requires NoBraces(comma1) && NoBraces(algName) && NoBraces(open1) && NoBraces(algValue) && NoBraces(close1)
    ensures Placeholders(comma1 + algName + open1 + algValue + close1) == Ok([])
  {
    var none: seq<nat> := [];
    PlaceholdersPlain(comma1);
    PlaceholdersPlain(algName);
    PlaceholdersPlain(open1);
    PlaceholdersPlain(algValue);
    PlaceholdersPlain(close1);
    PlaceholdersThen(comma1, algName, none);
    PlaceholdersThen(comma1 + algName, open1, none);
    PlaceholdersThen(comma1 + algName + open1, algValue, none);
    PlaceholdersThen(comma1 + algName + open1 + algValue, close1, none);
  }

  lemma AuthorizationStringHoleLine3(comma2: string, headersName: string, open2: string, header0: string, space0: string, header1: string, space1: string, header2: string, close2: string)
    requires NoBraces(comma2) && NoBraces(headersName) && NoBraces(open2) && NoBraces(header0) && NoBraces(space0) && NoBraces(header1) && NoBraces(space1) && NoBraces(header2) && NoBraces(close2)
    ensures Placeholders(comma2 + headersName + open2 + header0 + space0 + header1 + space1 + header2 + close2) == Ok([])
  {
    var none: seq<nat> := [];
    PlaceholdersPlain(comma2);
    PlaceholdersPlain(headersName);
    PlaceholdersPlain(open2);
    PlaceholdersPlain(header0);
    PlaceholdersPlain(space0);
    PlaceholdersPlain(header1);
    PlaceholdersPlain(space1);
    PlaceholdersPlain(header2);
    PlaceholdersPlain(close2);
    PlaceholdersThen(comma2, headersName, none);
    PlaceholdersThen(comma2 + headersName, open2, none);
    PlaceholdersThen(comma2 + headersName + open2, header0, none);
    PlaceholdersThen(comma2 + headersName + open2 + header0, space0, none);
    PlaceholdersThen(comma2 + headersName + open2 + header0 + space0, header1, none);
    PlaceholdersThen(comma2 + headersName + open2 + header0 + space0 + header1, space1, none);
    PlaceholdersThen(comma2 + headersName + open2 + header0 + space0 + header1 + space1, header2, none);
    PlaceholdersThen(comma2 + headersName + open2 + header0 + space0 + header1 + space1 + header2, close2, none);
  }

  lemma AuthorizationStringHoleLine4(comma3: string, sigName: string, open3: string, close3: string)
    requires NoBraces(comma3) && NoBraces(sigName) && NoBraces(open3) && NoBraces(close3)
    ensures Placeholders(comma3 + sigName + open3 + "{1}" + close3) == Ok([1])
  {
    var none: seq<nat> := [];
    PlaceholdersHole1();
    PlaceholdersPlain(comma3);
    PlaceholdersPlain(sigName);
    PlaceholdersPlain(open3);
    PlaceholdersPlain(close3);
    PlaceholdersThen(comma3, sigName, none);
    PlaceholdersThen(comma3 + sigName, open3, none);
    PlaceholdersStep(comma3 + sigName + open3, "{1}", [], [1]);
    assert [] + [1] == [1];
    PlaceholdersThen(comma3 + sigName + open3 + "{1}", close3, [1]);
  }

  /** The holes of the AuthorizationString template, in order, for any brace-free text in it. */
  lemma AuthorizationStringHoleShape(scheme: string, keyName: string, open0: string, close0: string, comma1: string, algName: string, open1: string, algValue: string, close1: string, comma2: string, headersName: string, open2: string, header0: string, space0: string, header1: string, space1: string, header2: string, close2: string, comma3: string, sigName: string, open3: string, close3: string)
    requires NoBraces(scheme) && NoBraces(keyName) && NoBraces(open0) && NoBraces(close0) && NoBraces(comma1) && NoBraces(algName) && NoBraces(open1) && NoBraces(algValue) && NoBraces(close1) && NoBraces(comma2) && NoBraces(headersName) && NoBraces(open2) && NoBraces(header0) && NoBraces(space0) && NoBraces(header1) && NoBraces(space1) && NoBraces(header2) && NoBraces(close2) && NoBraces(comma3) && NoBraces(sigName) && NoBraces(open3) && NoBraces(close3)
    ensures Placeholders(
        (scheme + keyName + open0 + "{0}" + close0)
      + (comma1 + algName + open1 + algValue + close1)
      + (comma2 + headersName + open2 + header0 + space0 + header1 + space1 + header2 + close2)
      + (comma3 + sigName + open3 + "{1}" + close3))
      == Ok([0, 1])
  {
    var none: seq<nat> := [];
    AuthorizationStringHoleLine1(scheme, keyName, open0, close0);
    AuthorizationStringHoleLine2(comma1, algName, open1, algValue, close1);
    AuthorizationStringHoleLine3(comma2, headersName, open2, header0, space0, header1, space1, header2, close2);
    AuthorizationStringHoleLine4(comma3, sigName, open3, close3);
    PlaceholdersThen((scheme + keyName + open0 + "{0}" + close0), (comma1 + algName + open1 + algValue + close1), [0]);
    PlaceholdersThen((scheme + keyName + open0 + "{0}" + close0) + (comma1 + algName + open1 + algValue + close1), (comma2 + headersName + open2 + header0 + space0 + header1 + space1 + header2 + close2), [0]);
    PlaceholdersStep((scheme + keyName + open0 + "{0}" + close0) + (comma1 + algName + open1 + algValue + close1) + (comma2 + headersName + open2 + header0 + space0 + header1 + space1 + header2 + close2), (comma3 + sigName + open3 + "{1}" + close3), [0], [1]);
    assert [0] + [1] == [0, 1];
  }

  // The literal pieces of the AuthorizationString template, one brace-free fact per lemma:
  // proved together in one lemma, they make a proof obligation too large.
  lemma AuthorizationStringText1() ensures NoBraces("Signature ") { }
  lemma AuthorizationStringText2() ensures NoBraces("keyId") { }
  lemma AuthorizationStringText3() ensures NoBraces("=\"") { }
  lemma AuthorizationStringText4() ensures NoBraces("\"") { }
  lemma AuthorizationStringText5() ensures NoBraces(",") { }
  lemma AuthorizationStringText6() ensures NoBraces("algorithm") { }
  lemma AuthorizationStringText7() ensures NoBraces("hmac-sha256") { }
  lemma AuthorizationStringText8() ensures NoBraces("headers") { }
  lemma AuthorizationStringText9() ensures NoBraces("(request-target)") { }
  lemma AuthorizationStringText10() ensures NoBraces(" ") { }
  lemma AuthorizationStringText11() ensures NoBraces("date") { }
  lemma AuthorizationStringText12() ensures NoBraces("digest") { }
  lemma AuthorizationStringText13() ensures NoBraces("signature") { }

  /** The literal text of the AuthorizationString template has no brace of its own. */
  lemma AuthorizationStringTexts()
    ensures NoBraces("Signature ")
    ensures NoBraces("keyId")
    ensures NoBraces("=\"")
    ensures NoBraces("\"")
    ensures NoBraces(",")
    ensures NoBraces("algorithm")
    ensures NoBraces("hmac-sha256")
    ensures NoBraces("headers")
    ensures NoBraces("(request-target)")
    ensures NoBraces(" ")
    ensures NoBraces("date")
    ensures NoBraces("digest")
    ensures NoBraces("signature")
  {
    AuthorizationStringText1();
    AuthorizationStringText2();
    AuthorizationStringText3();
    AuthorizationStringText4();
    AuthorizationStringText5();
    AuthorizationStringText6();
    AuthorizationStringText7();
    AuthorizationStringText8();
    AuthorizationStringText9();
    AuthorizationStringText10();
    AuthorizationStringText11();
    AuthorizationStringText12();
    AuthorizationStringText13();
  }

  /** What String.Format makes of the SearchRequestBody template, for any brace-free text in it. */
  lemma SearchRequestBodyShape(dataKey0: string, searchType: string, attributesKey: string, phoneKey: string, numberKey: string, quote0: string, relationshipsKey: string, profileKey: string, dataKey1: string, profileRef: string, quote1: string, args: seq<string>)
    requires NoBraces(dataKey0) && NoBraces(searchType) && NoBraces(attributesKey) && NoBraces(phoneKey) && NoBraces(numberKey) && NoBraces(quote0) && NoBraces(relationshipsKey) && NoBraces(profileKey) && NoBraces(dataKey1) && NoBraces(profileRef) && NoBraces(quote1)
    requires |args| == 2
    ensures StringFormat(
        ("{{" + dataKey0 + "{{" + searchType)
      + (attributesKey + "{{" + phoneKey + "{{" + numberKey + "{0}")
      + (quote0 + "}}" + "}}" + relationshipsKey + "{{" + profileKey)
      + ("{{" + dataKey1 + "{{" + profileRef + "{1}")
      + (quote1 + "}}" + "}}" + "}}" + "}}" + "}}"),
        args)
         == Ok(("{" + dataKey0 + "{" + searchType)
           + (attributesKey + "{" + phoneKey + "{" + numberKey + args[0])
           + (quote0 + "}" + "}" + relationshipsKey + "{" + profileKey)
           + ("{" + dataKey1 + "{" + profileRef + args[1])
           + (quote1 + "}" + "}" + "}" + "}" + "}"))
  {
    FormatPlain(dataKey0, args);
    FormatPlain(searchType, args);
    FormatPlain(attributesKey, args);
    FormatPlain(phoneKey, args);
    FormatPlain(numberKey, args);
    FormatPlain(quote0, args);
    FormatPlain(relationshipsKey, args);
    FormatPlain(profileKey, args);
    FormatPlain(dataKey1, args);
    FormatPlain(profileRef, args);
    FormatPlain(quote1, args);
    FormatOpen(args);
    FormatClose(args);
    FormatHole0(args);
    FormatHole1(args);
    Step("{{", dataKey0, args, "{", dataKey0);
    Step("{{" + dataKey0, "{{", args, "{" + dataKey0, "{");
    Step("{{" + dataKey0 + "{{", searchType, args, "{" + dataKey0 + "{", searchType);
    Step(attributesKey, "{{", args, attributesKey, "{");
    Step(attributesKey + "{{", phoneKey, args, attributesKey + "{", phoneKey);
    Step(attributesKey + "{{" + phoneKey, "{{", args, attributesKey + "{" + phoneKey, "{");
    Step(attributesKey + "{{" + phoneKey + "{{", numberKey, args, attributesKey + "{" + phoneKey + "{", numberKey);
    Step(attributesKey + "{{" + phoneKey + "{{" + numberKey, "{0}", args, attributesKey + "{" + phoneKey + "{" + numberKey, args[0]);
    Step(quote0, "}}", args, quote0, "}");
    Step(quote0 + "}}", "}}", args, quote0 + "}", "}");
    Step(quote0 + "}}" + "}}", relationshipsKey, args, quote0 + "}" + "}", relationshipsKey);
    Step(quote0 + "}}" + "}}" + relationshipsKey, "{{", args, quote0 + "}" + "}" + relationshipsKey, "{");
    Step(quote0 + "}}" + "}}" + relationshipsKey + "{{", profileKey, args, quote0 + "}" + "}" + relationshipsKey + "{", profileKey);
    Step("{{", dataKey1, args, "{", dataKey1);
    Step("{{" + dataKey1, "{{", args, "{" + dataKey1, "{");
    Step("{{" + dataKey1 + "{{", profileRef, args, "{" + dataKey1 + "{", profileRef);
    Step("{{" + dataKey1 + "{{" + profileRef, "{1}", args, "{" + dataKey1 + "{" + profileRef, args[1]);
    Step(quote1, "}}", args, quote1, "}");
    Step(quote1 + "}}", "}}", args, quote1 + "}", "}");
    Step(quote1 + "}}" + "}}", "}}", args, quote1 + "}" + "}", "}");
    Step(quote1 + "}}" + "}}" + "}}", "}}", args, quote1 + "}" + "}" + "}", "}");
    Step(quote1 + "}}" + "}}" + "}}" + "}}", "}}", args, quote1 + "}" + "}" + "}" + "}", "}");
    Step(("{{" + dataKey0 + "{{" + searchType), (attributesKey + "{{" + phoneKey + "{{" + numberKey + "{0}"), args, ("{" + dataKey0 + "{" + searchType), (attributesKey + "{" + phoneKey + "{" + numberKey + args[0]));
    Step(("{{" + dataKey0 + "{{" + searchType) + (attributesKey + "{{" + phoneKey + "{{" + numberKey + "{0}"), (quote0 + "}}" + "}}" + relationshipsKey + "{{" + profileKey), args, ("{" + dataKey0 + "{" + searchType) + (attributesKey + "{" + phoneKey + "{" + numberKey + args[0]), (quote0 + "}" + "}" + relationshipsKey + "{" + profileKey));
    Step(("{{" + dataKey0 + "{{" + searchType) + (attributesKey + "{{" + phoneKey + "{{" + numberKey + "{0}") + (quote0 + "}}" + "}}" + relationshipsKey + "{{" + profileKey), ("{{" + dataKey1 + "{{" + profileRef + "{1}"), args, ("{" + dataKey0 + "{" + searchType) + (attributesKey + "{" + phoneKey + "{" + numberKey + args[0]) + (quote0 + "}" + "}" + relationshipsKey + "{" + profileKey), ("{" + dataKey1 + "{" + profileRef + args[1]));
    Step(("{{" + dataKey0 + "{{" + searchType) + (attributesKey + "{{" + phoneKey + "{{" + numberKey + "{0}") + (quote0 + "}}" + "}}" + relationshipsKey + "{{" + profileKey) + ("{{" + dataKey1 + "{{" + profileRef + "{1}"), (quote1 + "}}" + "}}" + "}}" + "}}" + "}}"), args, ("{" + dataKey0 + "{" + searchType) + (attributesKey + "{" + phoneKey + "{" + numberKey + args[0]) + (quote0 + "}" + "}" + relationshipsKey + "{" + profileKey) + ("{" + dataKey1 + "{" + profileRef + args[1]), (quote1 + "}" + "}" + "}" + "}" + "}"));
  }

  lemma SearchRequestBodyHoleLine1(dataKey0: string, searchType: string)
    requires NoBraces(dataKey0) && NoBraces(searchType)
    ensures Placeholders("{{" + dataKey0 + "{{" + searchType) == Ok([])
  {
    var none: seq<nat> := [];
    PlaceholdersOpen();
    PlaceholdersPlain(dataKey0);
    PlaceholdersPlain(searchType);
    PlaceholdersThen("{{", dataKey0, none);
    PlaceholdersThen("{{" + dataKey0, "{{", none);
    PlaceholdersThen("{{" + dataKey0 + "{{", searchType, none);
  }

  lemma SearchRequestBodyHoleLine2(attributesKey: string, phoneKey: string, numberKey: string)
    requires NoBraces(attributesKey) && NoBraces(phoneKey) && NoBraces(numberKey)
    ensures Placeholders(attributesKey + "{{" + phoneKey + "{{" + numberKey + "{0}") == Ok([0])
  {
    var none: seq<nat> := [];
    PlaceholdersOpen();
    PlaceholdersHole0();
    PlaceholdersPlain(attributesKey);
    PlaceholdersPlain(phoneKey);
    PlaceholdersPlain(numberKey);
    PlaceholdersThen(attributesKey, "{{", none);
    PlaceholdersThen(attributesKey + "{{", phoneKey, none);
    PlaceholdersThen(attributesKey + "{{" + phoneKey, "{{", none);
    PlaceholdersThen(attributesKey + "{{" + phoneKey + "{{", numberKey, none);
    PlaceholdersStep(attributesKey + "{{" + phoneKey + "{{" + numberKey, "{0}", [], [0]);
    assert [] + [0] == [0];
  }

  lemma SearchRequestBodyHoleLine3(quote0: string, relationshipsKey: string, profileKey: string)
    requires NoBraces(quote0) && NoBraces(relationshipsKey) && NoBraces(profileKey)
    ensures Placeholders(quote0 + "}}" + "}}" + relationshipsKey + "{{" + profileKey) == Ok([])
  {
    var none: seq<nat> := [];
    PlaceholdersOpen();
    PlaceholdersClose();
    PlaceholdersPlain(quote0);
    PlaceholdersPlain(relationshipsKey);
    PlaceholdersPlain(profileKey);
    PlaceholdersThen(quote0, "}}", none);
    PlaceholdersThen(quote0 + "}}", "}}", none);
    PlaceholdersThen(quote0 + "}}" + "}}", relationshipsKey, none);
    PlaceholdersThen(quote0 + "}}" + "}}" + relationshipsKey, "{{", none);
    PlaceholdersThen(quote0 + "}}" + "}}" + relationshipsKey + "{{", profileKey, none);
  }

  lemma SearchRequestBodyHoleLine4(dataKey1: string, profileRef: string)
    requires NoBraces(dataKey1) && NoBraces(profileRef)
    ensures Placeholders("{{" + dataKey1 + "{{" + profileRef + "{1}") == Ok([1])
  {
    var none: seq<nat> := [];
    PlaceholdersOpen();
    PlaceholdersHole1();
    PlaceholdersPlain(dataKey1);
    PlaceholdersPlain(profileRef);
    PlaceholdersThen("{{", dataKey1, none);
    PlaceholdersThen("{{" + dataKey1, "{{", none);
    PlaceholdersThen("{{" + dataKey1 + "{{", profileRef, none);
    PlaceholdersStep("{{" + dataKey1 + "{{" + profileRef, "{1}", [], [1]);
    assert [] + [1] == [1];
  }

  lemma SearchRequestBodyHoleLine5(quote1: string)
    requires NoBraces(quote1)
    ensures Placeholders(quote1 + "}}" + "}}" + "}}" + "}}" + "}}") == Ok([])
  {
    var none: seq<nat> := [];
    PlaceholdersClose();
    PlaceholdersPlain(quote1);
    PlaceholdersThen(quote1, "}}", none);
    PlaceholdersThen(quote1 + "}}", "}}", none);
    PlaceholdersThen(quote1 + "}}" + "}}", "}}", none);
    PlaceholdersThen(quote1 + "}}" + "}}" + "}}", "}}", none);
    PlaceholdersThen(quote1 + "}}" + "}}" + "}}" + "}}", "}}", none);
  }

  /** The holes of the SearchRequestBody template, in order, for any brace-free text in it. */
  lemma SearchRequestBodyHoleShape(dataKey0: string, searchType: string, attributesKey: string, phoneKey: string, numberKey: string, quote0: string, relationshipsKey: string, profileKey: string, dataKey1: string, profileRef: string, quote1: string)
    requires NoBraces(dataKey0) && NoBraces(searchType) && NoBraces(attributesKey) && NoBraces(phoneKey) && NoBraces(numberKey) && NoBraces(quote0) && NoBraces(relationshipsKey) && NoBraces(profileKey) && NoBraces(dataKey1) && NoBraces(profileRef) && NoBraces(quote1)
    ensures Placeholders(
        ("{{" + dataKey0 + "{{" + searchType)
      + (attributesKey + "{{" + phoneKey + "{{" + numberKey + "{0}")
      + (quote0 + "}}" + "}}" + relationshipsKey + "{{" + profileKey)
      + ("{{" + dataKey1 + "{{" + profileRef + "{1}")
      + (quote1 + "}}" + "}}" + "}}" + "}}" + "}}"))
      == Ok([0, 1])
  {
    var none: seq<nat> := [];
    SearchRequestBodyHoleLine1(dataKey0, searchType);
    SearchRequestBodyHoleLine2(attributesKey, phoneKey, numberKey);
    SearchRequestBodyHoleLine3(quote0, relationshipsKey, profileKey);
    SearchRequestBodyHoleLine4(dataKey1, profileRef);
    SearchRequestBodyHoleLine5(quote1);
    PlaceholdersStep(("{{" + dataKey0 + "{{" + searchType), (attributesKey + "{{" + phoneKey + "{{" + numberKey + "{0}"), none, [0]);
    assert none + [0] == [0];
    PlaceholdersThen(("{{" + dataKey0 + "{{" + searchType) + (attributesKey + "{{" + phoneKey + "{{" + numberKey + "{0}"), (quote0 + "}}" + "}}" + relationshipsKey + "{{" + profileKey), [0]);
    PlaceholdersStep(("{{" + dataKey0 + "{{" + searchType) + (attributesKey + "{{" + phoneKey + "{{" + numberKey + "{0}") + (quote0 + "}}" + "}}" + relationshipsKey + "{{" + profileKey), ("{{" + dataKey1 + "{{" + profileRef + "{1}"), [0], [1]);
    assert [0] + [1] == [0, 1];
    PlaceholdersThen(("{{" + dataKey0 + "{{" + searchType) + (attributesKey + "{{" + phoneKey + "{{" + numberKey + "{0}") + (quote0 + "}}" + "}}" + relationshipsKey + "{{" + profileKey) + ("{{" + dataKey1 + "{{" + profileRef + "{1}"), (quote1 + "}}" + "}}" + "}}" + "}}" + "}}"), [0, 1]);
  }

  lemma SearchRequestBodyNestLine1(dataKey0: string, searchType: string)
    requires NoBraces(dataKey0) && NoBraces(searchType)
    ensures Nest("{" + dataKey0 + "{" + searchType, 0) == Some(2)
  {
    NestOpen(0);
    NestPlain(dataKey0, 1);
    NestStep("{", dataKey0, 0, 1, 1);
    NestOpen(1);
    NestStep("{" + dataKey0, "{", 0, 1, 2);
    NestPlain(searchType, 2);
    NestStep("{" + dataKey0 + "{", searchType, 0, 2, 2);
  }

  lemma SearchRequestBodyNestLine2(attributesKey: string, phoneKey: string, numberKey: string, phone: string)
    requires NoBraces(attributesKey) && NoBraces(phoneKey) && NoBraces(numberKey) && NoBraces(phone)
    ensures Nest(attributesKey + "{" + phoneKey + "{" + numberKey + phone, 2) == Some(4)
  {
    NestPlain(attributesKey, 2);
    NestOpen(2);
    NestStep(attributesKey, "{", 2, 2, 3);
    NestPlain(phoneKey, 3);
    NestStep(attributesKey + "{", phoneKey, 2, 3, 3);
    NestOpen(3);
    NestStep(attributesKey + "{" + phoneKey, "{", 2, 3, 4);
    NestPlain(numberKey, 4);
    NestStep(attributesKey + "{" + phoneKey + "{", numberKey, 2, 4, 4);
    NestPlain(phone, 4);
    NestStep(attributesKey + "{" + phoneKey + "{" + numberKey, phone, 2, 4, 4);
  }

  lemma SearchRequestBodyNestLine3(quote0: string, relationshipsKey: string, profileKey: string)
    requires NoBraces(quote0) && NoBraces(relationshipsKey) && NoBraces(profileKey)
    ensures Nest(quote0 + "}" + "}" + relationshipsKey + "{" + profileKey, 4) == Some(3)
  {
    NestPlain(quote0, 4);
    NestClose(3);
    NestStep(quote0, "}", 4, 4, 3);
    NestClose(2);
    NestStep(quote0 + "}", "}", 4, 3, 2);
    NestPlain(relationshipsKey, 2);
    NestStep(quote0 + "}" + "}", relationshipsKey, 4, 2, 2);
    NestOpen(2);
    NestStep(quote0 + "}" + "}" + relationshipsKey, "{", 4, 2, 3);
    NestPlain(profileKey, 3);
    NestStep(quote0 + "}" + "}" + relationshipsKey + "{", profileKey, 4, 3, 3);
  }

  lemma SearchRequestBodyNestLine4(dataKey1: string, profileRef: string, profileId: string)
    requires NoBraces(dataKey1) && NoBraces(profileRef) && NoBraces(profileId)
    ensures Nest("{" + dataKey1 + "{" + profileRef + profileId, 3) == Some(5)
  {
    NestOpen(3);
    NestPlain(dataKey1, 4);
    NestStep("{", dataKey1, 3, 4, 4);
    NestOpen(4);
    NestStep("{" + dataKey1, "{", 3, 4, 5);
    NestPlain(profileRef, 5);
    NestStep("{" + dataKey1 + "{", profileRef, 3, 5, 5);
    NestPlain(profileId, 5);
    NestStep("{" + dataKey1 + "{" + profileRef, profileId, 3, 5, 5);
  }

  lemma SearchRequestBodyNestLine5(quote1: string)
    requires NoBraces(quote1)
    ensures Nest(quote1 + "}" + "}" + "}" + "}" + "}", 5) == Some(0)
  {
    NestPlain(quote1, 5);
    NestClose(4);
    NestStep(quote1, "}", 5, 5, 4);
    NestClose(3);
    NestStep(quote1 + "}", "}", 5, 4, 3);
    NestClose(2);
    NestStep(quote1 + "}" + "}", "}", 5, 3, 2);
    NestClose(1);
    NestStep(quote1 + "}" + "}" + "}", "}", 5, 2, 1);
    NestClose(0);
    NestStep(quote1 + "}" + "}" + "}" + "}", "}", 5, 1, 0);
  }

  /** The braces of what the SearchRequestBody template formats to nest properly, whatever brace-free arguments fill it. */
  lemma SearchRequestBodyNestShape(line1: string, line2: string, line3: string, line4: string, line5: string, dataKey0: string, searchType: string, attributesKey: string, phoneKey: string, numberKey: string, quote0: string, relationshipsKey: string, profileKey: string, dataKey1: string, profileRef: string, quote1: string, phone: string, profileId: string)
    requires line1 == "{" + dataKey0 + "{" + searchType
    requires line2 == attributesKey + "{" + phoneKey + "{" + numberKey + phone
    requires line3 == quote0 + "}" + "}" + relationshipsKey + "{" + profileKey
    requires line4 == "{" + dataKey1 + "{" + profileRef + profileId
    requires line5 == quote1 + "}" + "}" + "}" + "}" + "}"
    requires NoBraces(dataKey0) && NoBraces(searchType) && NoBraces(attributesKey) && NoBraces(phoneKey) && NoBraces(numberKey) && NoBraces(quote0) && NoBraces(relationshipsKey) && NoBraces(profileKey) && NoBraces(dataKey1) && NoBraces(profileRef) && NoBraces(quote1) && NoBraces(phone) && NoBraces(profileId)
    ensures Nest(line1 + line2 + line3 + line4 + line5, 0) == Some(0)
  {
    SearchRequestBodyNestLine1(dataKey0, searchType);
    SearchRequestBodyNestLine2(attributesKey, phoneKey, numberKey, phone);
    SearchRequestBodyNestLine3(quote0, relationshipsKey, profileKey);
    SearchRequestBodyNestLine4(dataKey1, profileRef, profileId);
    SearchRequestBodyNestLine5(quote1);
    NestLines(line1, line2, line3, line4, line5, 2, 4, 3, 5);
  }

  // The literal pieces of the SearchRequestBody template, one brace-free fact per lemma:
  // proved together in one lemma, they make a proof obligation too large.
  lemma SearchRequestBodyText1() ensures NoBraces("\"data\":") { }
  lemma SearchRequestBodyText2() ensures NoBraces("\"type\":\"identity_search\",") { }
  lemma SearchRequestBodyText3() ensures NoBraces("\"attributes\":") { }
  lemma SearchRequestBodyText4() ensures NoBraces("\"phone\":") { }
  lemma SearchRequestBodyText5() ensures NoBraces("\"number\":\"") { }
  lemma SearchRequestBodyText6() ensures NoBraces("\"") { }
  lemma SearchRequestBodyText7() ensures NoBraces(",\"relationships\":") { }
  lemma SearchRequestBodyText8() ensures NoBraces("\"profile\":") { }
  lemma SearchRequestBodyText9() ensures NoBraces("\"type\":\"profile\",\"id\":\"") { }

  /** The literal text of the SearchRequestBody template has no brace of its own. */
  lemma SearchRequestBodyTexts()
    ensures NoBraces("\"data\":")
    ensures NoBraces("\"type\":\"identity_search\",")
    ensures NoBraces("\"attributes\":")
    ensures NoBraces("\"phone\":")
    ensures NoBraces("\"number\":\"")
    ensures NoBraces("\"")
    ensures NoBraces(",\"relationships\":")
    ensures NoBraces("\"profile\":")
    ensures NoBraces("\"type\":\"profile\",\"id\":\"")
  {
    SearchRequestBodyText1();
    SearchRequestBodyText2();
    SearchRequestBodyText3();
    SearchRequestBodyText4();
    SearchRequestBodyText5();
    SearchRequestBodyText6();
    SearchRequestBodyText7();
    SearchRequestBodyText8();
    SearchRequestBodyText9();
  }

  // ---- the line and field structure of the authentication templates ----

  /** Three fields with a one-character separator between them split back into the three. */
  lemma SplitThree(a: string, b: string, c: string, x: char)
    requires x !in a && x !in b && x !in c
    ensures Split(a + ([x] + b) + ([x] + c), x) == [a, b, c]
  {
    var rest := b + [x] + c;
    FieldsThree(a, b, c, x);
    SplitAtSeparator(a, x, rest);
    SplitAtSeparator(b, x, c);
    SplitNoSeparator(c, x);
    ConsTwo(a, Split(rest, x), b, c);
  }

  lemma FieldsThree(a: string, b: string, c: string, x: char)
    ensures a + ([x] + b) + ([x] + c) == a + [x] + (b + [x] + c)
  {
  }

  lemma ConsTwo(a: string, l: seq<string>, b: string, c: string)
    requires l == [b] + [c]
    ensures [a] + l == [a, b, c]
  {
  }

  /** Four fields with a one-character separator between them split back into the four. */
  lemma SplitFour(a: string, b: string, c: string, d: string, x: char)
    requires x !in a && x !in b && x !in c && x !in d
    ensures Split(a + ([x] + b) + ([x] + c) + ([x] + d), x) == [a, b, c, d]
  {
    var rest := b + ([x] + c) + ([x] + d);
    FieldsFour(a, b, c, d, x);
    SplitAtSeparator(a, x, rest);
    SplitThree(b, c, d, x);
    ConsThree(a, Split(rest, x), b, c, d);
  }

  lemma FieldsFour(a: string, b: string, c: string, d: string, x: char)
    ensures a + ([x] + b) + ([x] + c) + ([x] + d) == a + [x] + (b + ([x] + c) + ([x] + d))
  {
  }

  lemma ConsThree(a: string, l: seq<string>, b: string, c: string, d: string)
    requires l == [b, c, d]
    ensures [a] + l == [a, b, c, d]
  {
  }

  /** Three plain pieces and then one hole. */
  lemma PieceHoles(a: string, b: string, c: string, hole: string, n: nat)
    requires NoBraces(a) && NoBraces(b) && NoBraces(c) && Placeholders(hole) == Ok([n])
    ensures Placeholders(a + b + c + hole) == Ok([n])
  {
    var none: seq<nat> := [];
    PlaceholdersPlain(a);
    PlaceholdersPlain(b);
    PlaceholdersPlain(c);
    PlaceholdersThen(a, b, none);
    PlaceholdersThen(a + b, c, none);
    PlaceholdersStep(a + b + c, hole, [], [n]);
    assert [] + [n] == [n];
  }

  lemma Lead3(x: string, a: string, b: string)
    ensures x + a + b == x + (a + b)
  {
  }

  lemma Lead4(x: string, a: string, b: string, c: string)
    ensures x + a + b + c == x + (a + b + c)
  {
  }

  lemma Lead5(x: string, a: string, b: string, c: string, d: string)
    ensures x + a + b + c + d == x + (a + b + c + d)
  {
  }

  lemma Lead9(x: string, a: string, b: string, c: string, d: string, e: string, f: string, g: string, h: string)
    ensures x + a + b + c + d + e + f + g + h == x + (a + b + c + d + e + f + g + h)
  {
  }

  /** Three parts joined by `sep` written out. */
  lemma JoinThree(a: string, b: string, c: string, sep: string)
    ensures Join([a, b, c], sep) == a + sep + b + sep + c
  {
    assert [a, b, c][1..] == [b, c];
    assert [b, c][1..] == [c];
    assert Join([c], sep) == c;
    assert Join([b, c], sep) == b + sep + c;
    assert a + sep + (b + sep + c) == a + sep + b + sep + c;
  }

  /** The headers field written out is the name, `=` and a quote, the joined names, a quote. */
  lemma HeadersField(hn: string, eq: string, h0: string, sp: string, h1: string, h2: string, q: string)
    ensures hn + eq + h0 + sp + h1 + sp + h2 + q == hn + eq + Join([h0, h1, h2], sp) + q
  {
    JoinThree(h0, h1, h2, sp);
    assert hn + eq + h0 + sp + h1 + sp + h2 + q == hn + eq + (h0 + sp + h1 + sp + h2) + q;
  }

  /** Splitting the signing-string shape at its newlines gives its three lines. */
  lemma SigningLinesShape(n0: string, c0: string, p: string, v0: string,
                          n1: string, c1: string, v1: string,
                          n2: string, c2: string, v2: string)
    requires '\n' !in n0 + c0 + p + v0
    requires '\n' !in n1 + c1 + v1
    requires '\n' !in n2 + c2 + v2
    ensures Split((n0 + c0 + p + v0) + ("\n" + n1 + c1 + v1) + ("\n" + n2 + c2 + v2), '\n')
         == [n0 + c0 + p + v0, n1 + c1 + v1, n2 + c2 + v2]
  {
    Lead4("\n", n1, c1, v1);
    Lead4("\n", n2, c2, v2);
    SplitThree(n0 + c0 + p + v0, n1 + c1 + v1, n2 + c2 + v2, '\n');
  }

  /** Splitting the authorization shape at its commas gives its four fields;
      the third names the signed headers joined by the space between them. */
  lemma AuthorizationFieldsShape(sc: string, kn: string, eq: string, v0: string, q: string,
                                 an: string, av: string,
                                 hn: string, h0: string, sp: string, h1: string, h2: string,
                                 sn: string, v1: string)
    requires ',' !in sc + kn + eq + v0 + q
    requires ',' !in an + eq + av + q
    requires ',' !in hn + eq + h0 + sp + h1 + sp + h2 + q
    requires ',' !in sn + eq + v1 + q
    ensures Split((sc + kn + eq + v0 + q)
                  + ("," + an + eq + av + q)
                  + ("," + hn + eq + h0 + sp + h1 + sp + h2 + q)
                  + ("," + sn + eq + v1 + q), ',')
         == [sc + (kn + eq + v0 + q), an + eq + av + q, hn + eq + Join([h0, h1, h2], sp) + q, sn + eq + v1 + q]
  {
    var f0, f1, f2, f3 := sc + kn + eq + v0 + q, an + eq + av + q, hn + eq + h0 + sp + h1 + sp + h2 + q, sn + eq + v1 + q;
    Lead5(",", an, eq, av, q);
    Lead9(",", hn, eq, h0, sp, h1, sp, h2, q);
    Lead5(",", sn, eq, v1, q);
    SplitFour(f0, f1, f2, f3, ',');
    Lead5(sc, kn, eq, v0, q);
    HeadersField(hn, eq, h0, sp, h1, h2, q);
  }

  /** Two brace-free texts in two nested objects nest back to depth 0. */
  lemma NestedObjectShape(a: string, b: string)
    requires NoBraces(a) && NoBraces(b)
    ensures Nest("{" + a + "{" + b + "}" + "}", 0) == Some(0)
  {
    NestOpen(0);
    NestPlain(a, 1);
    NestStep("{", a, 0, 1, 1);
    NestOpen(1);
    NestStep("{" + a, "{", 0, 1, 2);
    NestPlain(b, 2);
    NestStep("{" + a + "{", b, 0, 2, 2);
    NestClose(1);
    NestStep("{" + a + "{" + b, "}", 0, 2, 1);
    NestClose(0);
    NestStep("{" + a + "{" + b + "}", "}", 0, 1, 0);
  }

  // ---- the same templates built by joining their lines ----

  /** Four parts joined by `sep`, written out with each later part led by the separator. */
  lemma JoinFour(a: string, b: string, c: string, d: string, sep: string)
    ensures Join([a, b, c, d], sep) == a + (sep + b) + (sep + c) + (sep + d)
  {
    assert [a, b, c, d][1..] == [b, c, d];
    JoinThree(b, c, d, sep);
    assert Join([a, b, c, d], sep) == a + sep + (b + sep + c + sep + d);
  }

  /** Joining the three signing-string lines with newlines gives the signing-string shape. */
  lemma SigningJoinShape(n0: string, c0: string, p: string, v0: string,
                         n1: string, c1: string, v1: string,
                         n2: string, c2: string, v2: string)
    ensures Join([n0 + c0 + (p + v0), n1 + c1 + v1, n2 + c2 + v2], "\n")
         == (n0 + c0 + p + v0) + ("\n" + n1 + c1 + v1) + ("\n" + n2 + c2 + v2)
  {
    JoinThree(n0 + c0 + (p + v0), n1 + c1 + v1, n2 + c2 + v2, "\n");
    Lead3(n0 + c0, p, v0);
    Lead4("\n", n1, c1, v1);
    Lead4("\n", n2, c2, v2);
  }

  /** Joining the four authorization parameters with commas gives the authorization shape. */
  lemma AuthorizationJoinShape(sc: string, kn: string, eq: string, v0: string, q: string,
                               an: string, av: string,
                               hn: string, h0: string, sp: string, h1: string, h2: string,
                               sn: string, v1: string)
    ensures Join([sc + kn + eq + v0 + q, an + eq + av + q, hn + eq + h0 + sp + h1 + sp + h2 + q, sn + eq + v1 + q], ",")
         == (sc + kn + eq + v0 + q)
          + ("," + an + eq + av + q)
          + ("," + hn + eq + h0 + sp + h1 + sp + h2 + q)
          + ("," + sn + eq + v1 + q)
  {
    JoinFour(sc + kn + eq + v0 + q, an + eq + av + q, hn + eq + h0 + sp + h1 + sp + h2 + q, sn + eq + v1 + q, ",");
    Lead5(",", an, eq, av, q);
    Lead9(",", hn, eq, h0, sp, h1, sp, h2, q);
    Lead5(",", sn, eq, v1, q);
  }
}
