/** The fixed `token` header of the login request is the header an
    authenticated request carries for the anonymous web credential: the base
    64 encoding of the UTF-8 bytes of that credential's JSON text.

    The proof is a computation done in small steps, each a lemma of its own
    so that the solver sees one step at a time: the JSON text is assembled
    field by field (`JsonPiece`), regrouped into groups of three characters
    (`JsonGroup`), each group is encoded on its own (`Group`), and the
    encodings are joined from the left (`Prefix`), which base 64 allows
    because every prefix holds whole groups of three bytes. */
module LoginHeader {
  import opened Common
  import Json
  import Utf8
  import Base64
  import opened GoodWeTypes
  import GoodWe

  /** The JSON text of the anonymous credential. */
  const AnonymousJson: string := "{\"uid\":\"\",\"timestamp\":0,\"token\":\"\",\"client\":\"web\",\"version\":\"\",\"language\":\"en\"}"

  /** The string fields of the anonymous credential need no escapes. */
  lemma AnonymousFields()
    ensures Json.Str("") == "\"\""
    ensures Json.Str("web") == "\"web\""
    ensures Json.Str("en") == "\"en\""
    ensures Json.Int(0) == "0"
  {
    assert Json.Escape("") == "";
    Json.EscapePlain("web");
    Json.EscapePlain("en");
  }

  lemma JsonPiece1()
    ensures "{\"uid\":" + "\"\""
            == "{\"uid\":\"\""
  {
  }

  lemma JsonPiece2()
    ensures "{\"uid\":\"\"" + ",\"timestamp\":"
            == "{\"uid\":\"\",\"timestamp\":"
  {
  }

  lemma JsonPiece3()
    ensures "{\"uid\":\"\",\"timestamp\":" + "0"
            == "{\"uid\":\"\",\"timestamp\":0"
  {
  }

  lemma JsonPiece4()
    ensures "{\"uid\":\"\",\"timestamp\":0" + ",\"token\":"
            == "{\"uid\":\"\",\"timestamp\":0,\"token\":"
  {
  }

  lemma JsonPiece5()
    ensures "{\"uid\":\"\",\"timestamp\":0,\"token\":" + "\"\""
            == "{\"uid\":\"\",\"timestamp\":0,\"token\":\"\""
  {
  }

  lemma JsonPiece6()
    ensures "{\"uid\":\"\",\"timestamp\":0,\"token\":\"\"" + ",\"client\":"
            == "{\"uid\":\"\",\"timestamp\":0,\"token\":\"\",\"client\":"
  {
  }

  lemma JsonPiece7()
    ensures "{\"uid\":\"\",\"timestamp\":0,\"token\":\"\",\"client\":" + "\"web\""
            == "{\"uid\":\"\",\"timestamp\":0,\"token\":\"\",\"client\":\"web\""
  {
  }

  lemma JsonPiece8()
    ensures "{\"uid\":\"\",\"timestamp\":0,\"token\":\"\",\"client\":\"web\"" + ",\"version\":"
            == "{\"uid\":\"\",\"timestamp\":0,\"token\":\"\",\"client\":\"web\",\"version\":"
  {
  }

  lemma JsonPiece9()
    ensures "{\"uid\":\"\",\"timestamp\":0,\"token\":\"\",\"client\":\"web\",\"version\":" + "\"\""
            == "{\"uid\":\"\",\"timestamp\":0,\"token\":\"\",\"client\":\"web\",\"version\":\"\""
  {
  }

  lemma JsonPiece10()
    ensures "{\"uid\":\"\",\"timestamp\":0,\"token\":\"\",\"client\":\"web\",\"version\":\"\"" + ",\"language\":"
            == "{\"uid\":\"\",\"timestamp\":0,\"token\":\"\",\"client\":\"web\",\"version\":\"\",\"language\":"
  {
  }

  lemma JsonPiece11()
    ensures "{\"uid\":\"\",\"timestamp\":0,\"token\":\"\",\"client\":\"web\",\"version\":\"\",\"language\":" + "\"en\""
            == "{\"uid\":\"\",\"timestamp\":0,\"token\":\"\",\"client\":\"web\",\"version\":\"\",\"language\":\"en\""
  {
  }

  lemma JsonPiece12()
    ensures "{\"uid\":\"\",\"timestamp\":0,\"token\":\"\",\"client\":\"web\",\"version\":\"\",\"language\":\"en\"" + "}"
            == "{\"uid\":\"\",\"timestamp\":0,\"token\":\"\",\"client\":\"web\",\"version\":\"\",\"language\":\"en\"}"
  {
  }

  /** `serde_json` writes the anonymous credential as this text. */
  lemma AnonymousJsonText()
    ensures LoginDataJson(GoodWe.AnonymousLogin) == AnonymousJson
  {
    AnonymousFields();
    JsonPiece1();
    JsonPiece2();
    JsonPiece3();
    JsonPiece4();
    JsonPiece5();
    JsonPiece6();
    JsonPiece7();
    JsonPiece8();
    JsonPiece9();
    JsonPiece10();
    JsonPiece11();
    JsonPiece12();
  }

  lemma JsonGroup1()
    ensures "{\"u" + "id\""
            == "{\"uid\""
  {
  }

  lemma JsonGroup2()
    ensures "{\"uid\"" + ":\"\""
            == "{\"uid\":\"\""
  {
  }

  lemma JsonGroup3()
    ensures "{\"uid\":\"\"" + ",\"t"
            == "{\"uid\":\"\",\"t"
  {
  }

  lemma JsonGroup4()
    ensures "{\"uid\":\"\",\"t" + "ime"
            == "{\"uid\":\"\",\"time"
  {
  }

  lemma JsonGroup5()
    ensures "{\"uid\":\"\",\"time" + "sta"
            == "{\"uid\":\"\",\"timesta"
  {
  }

  lemma JsonGroup6()
    ensures "{\"uid\":\"\",\"timesta" + "mp\""
            == "{\"uid\":\"\",\"timestamp\""
  {
  }

  lemma JsonGroup7()
    ensures "{\"uid\":\"\",\"timestamp\"" + ":0,"
            == "{\"uid\":\"\",\"timestamp\":0,"
  {
  }

  lemma JsonGroup8()
    ensures "{\"uid\":\"\",\"timestamp\":0," + "\"to"
            == "{\"uid\":\"\",\"timestamp\":0,\"to"
  {
  }

  lemma JsonGroup9()
    ensures "{\"uid\":\"\",\"timestamp\":0,\"to" + "ken"
            == "{\"uid\":\"\",\"timestamp\":0,\"token"
  {
  }

  lemma JsonGroup10()
    ensures "{\"uid\":\"\",\"timestamp\":0,\"token" + "\":\""
            == "{\"uid\":\"\",\"timestamp\":0,\"token\":\""
  {
  }

  lemma JsonGroup11()
    ensures "{\"uid\":\"\",\"timestamp\":0,\"token\":\"" + "\",\""
            == "{\"uid\":\"\",\"timestamp\":0,\"token\":\"\",\""
  {
  }

  lemma JsonGroup12()
    ensures "{\"uid\":\"\",\"timestamp\":0,\"token\":\"\",\"" + "cli"
            == "{\"uid\":\"\",\"timestamp\":0,\"token\":\"\",\"cli"
  {
  }

  lemma JsonGroup13()
    ensures "{\"uid\":\"\",\"timestamp\":0,\"token\":\"\",\"cli" + "ent"
            == "{\"uid\":\"\",\"timestamp\":0,\"token\":\"\",\"client"
  {
  }

  lemma JsonGroup14()
    ensures "{\"uid\":\"\",\"timestamp\":0,\"token\":\"\",\"client" + "\":\""
            == "{\"uid\":\"\",\"timestamp\":0,\"token\":\"\",\"client\":\""
  {
  }

  lemma JsonGroup15()
    ensures "{\"uid\":\"\",\"timestamp\":0,\"token\":\"\",\"client\":\"" + "web"
            == "{\"uid\":\"\",\"timestamp\":0,\"token\":\"\",\"client\":\"web"
  {
  }

  lemma JsonGroup16()
    ensures "{\"uid\":\"\",\"timestamp\":0,\"token\":\"\",\"client\":\"web" + "\",\""
            == "{\"uid\":\"\",\"timestamp\":0,\"token\":\"\",\"client\":\"web\",\""
  {
  }

  lemma JsonGroup17()
    ensures "{\"uid\":\"\",\"timestamp\":0,\"token\":\"\",\"client\":\"web\",\"" + "ver"
            == "{\"uid\":\"\",\"timestamp\":0,\"token\":\"\",\"client\":\"web\",\"ver"
  {
  }

  lemma JsonGroup18()
    ensures "{\"uid\":\"\",\"timestamp\":0,\"token\":\"\",\"client\":\"web\",\"ver" + "sio"
            == "{\"uid\":\"\",\"timestamp\":0,\"token\":\"\",\"client\":\"web\",\"versio"
  {
  }

  lemma JsonGroup19()
    ensures "{\"uid\":\"\",\"timestamp\":0,\"token\":\"\",\"client\":\"web\",\"versio" + "n\":"
            == "{\"uid\":\"\",\"timestamp\":0,\"token\":\"\",\"client\":\"web\",\"version\":"
  {
  }

  lemma JsonGroup20()
    ensures "{\"uid\":\"\",\"timestamp\":0,\"token\":\"\",\"client\":\"web\",\"version\":" + "\"\","
            == "{\"uid\":\"\",\"timestamp\":0,\"token\":\"\",\"client\":\"web\",\"version\":\"\","
  {
  }

  lemma JsonGroup21()
    ensures "{\"uid\":\"\",\"timestamp\":0,\"token\":\"\",\"client\":\"web\",\"version\":\"\"," + "\"la"
            == "{\"uid\":\"\",\"timestamp\":0,\"token\":\"\",\"client\":\"web\",\"version\":\"\",\"la"
  {
  }

  lemma JsonGroup22()
    ensures "{\"uid\":\"\",\"timestamp\":0,\"token\":\"\",\"client\":\"web\",\"version\":\"\",\"la" + "ngu"
            == "{\"uid\":\"\",\"timestamp\":0,\"token\":\"\",\"client\":\"web\",\"version\":\"\",\"langu"
  {
  }

  lemma JsonGroup23()
    ensures "{\"uid\":\"\",\"timestamp\":0,\"token\":\"\",\"client\":\"web\",\"version\":\"\",\"langu" + "age"
            == "{\"uid\":\"\",\"timestamp\":0,\"token\":\"\",\"client\":\"web\",\"version\":\"\",\"language"
  {
  }

  lemma JsonGroup24()
    ensures "{\"uid\":\"\",\"timestamp\":0,\"token\":\"\",\"client\":\"web\",\"version\":\"\",\"language" + "\":\""
            == "{\"uid\":\"\",\"timestamp\":0,\"token\":\"\",\"client\":\"web\",\"version\":\"\",\"language\":\""
  {
  }

  lemma JsonGroup25()
    ensures "{\"uid\":\"\",\"timestamp\":0,\"token\":\"\",\"client\":\"web\",\"version\":\"\",\"language\":\"" + "en\""
            == "{\"uid\":\"\",\"timestamp\":0,\"token\":\"\",\"client\":\"web\",\"version\":\"\",\"language\":\"en\""
  {
  }

  lemma JsonGroup26()
    ensures "{\"uid\":\"\",\"timestamp\":0,\"token\":\"\",\"client\":\"web\",\"version\":\"\",\"language\":\"en\"" + "}"
            == "{\"uid\":\"\",\"timestamp\":0,\"token\":\"\",\"client\":\"web\",\"version\":\"\",\"language\":\"en\"}"
  {
  }

  /** The same text as a sequence of groups of three characters. */
  lemma AnonymousJsonGroups()
    ensures AnonymousJson ==
      "{\"u" + "id\"" + ":\"\"" + ",\"t" + "ime" + "sta" + "mp\"" + ":0," + "\"to"
      + "ken" + "\":\"" + "\",\"" + "cli" + "ent" + "\":\"" + "web" + "\",\"" + "ver"
      + "sio" + "n\":" + "\"\"," + "\"la" + "ngu" + "age" + "\":\"" + "en\"" + "}"
  {
    JsonGroup1();
    JsonGroup2();
    JsonGroup3();
    JsonGroup4();
    JsonGroup5();
    JsonGroup6();
    JsonGroup7();
    JsonGroup8();
    JsonGroup9();
    JsonGroup10();
    JsonGroup11();
    JsonGroup12();
    JsonGroup13();
    JsonGroup14();
    JsonGroup15();
    JsonGroup16();
    JsonGroup17();
    JsonGroup18();
    JsonGroup19();
    JsonGroup20();
    JsonGroup21();
    JsonGroup22();
    JsonGroup23();
    JsonGroup24();
    JsonGroup25();
    JsonGroup26();
  }

  lemma Group0()
    ensures |Utf8.Encode("{\"u")| == 3
    ensures Base64.Encode(Utf8.Encode("{\"u")) == "eyJ1"
  {
    assert Utf8.Encode("{\"u") == [123, 34, 117];
  }

  lemma Group1()
    ensures |Utf8.Encode("id\"")| == 3
    ensures Base64.Encode(Utf8.Encode("id\"")) == "aWQi"
  {
    assert Utf8.Encode("id\"") == [105, 100, 34];
  }

  lemma Group2()
    ensures |Utf8.Encode(":\"\"")| == 3
    ensures Base64.Encode(Utf8.Encode(":\"\"")) == "OiIi"
  {
    assert Utf8.Encode(":\"\"") == [58, 34, 34];
  }

  lemma Group3()
    ensures |Utf8.Encode(",\"t")| == 3
    ensures Base64.Encode(Utf8.Encode(",\"t")) == "LCJ0"
  {
    assert Utf8.Encode(",\"t") == [44, 34, 116];
  }

  lemma Group4()
    ensures |Utf8.Encode("ime")| == 3
    ensures Base64.Encode(Utf8.Encode("ime")) == "aW1l"
  {
    assert Utf8.Encode("ime") == [105, 109, 101];
  }

  lemma Group5()
    ensures |Utf8.Encode("sta")| == 3
    ensures Base64.Encode(Utf8.Encode("sta")) == "c3Rh"
  {
    assert Utf8.Encode("sta") == [115, 116, 97];
  }

  lemma Group6()
    ensures |Utf8.Encode("mp\"")| == 3
    ensures Base64.Encode(Utf8.Encode("mp\"")) == "bXAi"
  {
    assert Utf8.Encode("mp\"") == [109, 112, 34];
  }

  lemma Group7()
    ensures |Utf8.Encode(":0,")| == 3
    ensures Base64.Encode(Utf8.Encode(":0,")) == "OjAs"
  {
    assert Utf8.Encode(":0,") == [58, 48, 44];
  }

  lemma Group8()
    ensures |Utf8.Encode("\"to")| == 3
    ensures Base64.Encode(Utf8.Encode("\"to")) == "InRv"
  {
    assert Utf8.Encode("\"to") == [34, 116, 111];
  }

  lemma Group9()
    ensures |Utf8.Encode("ken")| == 3
    ensures Base64.Encode(Utf8.Encode("ken")) == "a2Vu"
  {
    assert Utf8.Encode("ken") == [107, 101, 110];
  }

  lemma Group10()
    ensures |Utf8.Encode("\":\"")| == 3
    ensures Base64.Encode(Utf8.Encode("\":\"")) == "Ijoi"
  {
    assert Utf8.Encode("\":\"") == [34, 58, 34];
  }

  lemma Group11()
    ensures |Utf8.Encode("\",\"")| == 3
    ensures Base64.Encode(Utf8.Encode("\",\"")) == "Iiwi"
  {
    assert Utf8.Encode("\",\"") == [34, 44, 34];
  }

  lemma Group12()
    ensures |Utf8.Encode("cli")| == 3
    ensures Base64.Encode(Utf8.Encode("cli")) == "Y2xp"
  {
    assert Utf8.Encode("cli") == [99, 108, 105];
  }

  lemma Group13()
    ensures |Utf8.Encode("ent")| == 3
    ensures Base64.Encode(Utf8.Encode("ent")) == "ZW50"
  {
    assert Utf8.Encode("ent") == [101, 110, 116];
  }

  lemma Group14()
    ensures |Utf8.Encode("\":\"")| == 3
    ensures Base64.Encode(Utf8.Encode("\":\"")) == "Ijoi"
  {
    assert Utf8.Encode("\":\"") == [34, 58, 34];
  }

  lemma Group15()
    ensures |Utf8.Encode("web")| == 3
    ensures Base64.Encode(Utf8.Encode("web")) == "d2Vi"
  {
    assert Utf8.Encode("web") == [119, 101, 98];
  }

  lemma Group16()
    ensures |Utf8.Encode("\",\"")| == 3
    ensures Base64.Encode(Utf8.Encode("\",\"")) == "Iiwi"
  {
    assert Utf8.Encode("\",\"") == [34, 44, 34];
  }

  lemma Group17()
    ensures |Utf8.Encode("ver")| == 3
    ensures Base64.Encode(Utf8.Encode("ver")) == "dmVy"
  {
    assert Utf8.Encode("ver") == [118, 101, 114];
  }

  lemma Group18()
    ensures |Utf8.Encode("sio")| == 3
    ensures Base64.Encode(Utf8.Encode("sio")) == "c2lv"
  {
    assert Utf8.Encode("sio") == [115, 105, 111];
  }

  lemma Group19()
    ensures |Utf8.Encode("n\":")| == 3
    ensures Base64.Encode(Utf8.Encode("n\":")) == "biI6"
  {
    assert Utf8.Encode("n\":") == [110, 34, 58];
  }

  lemma Group20()
    ensures |Utf8.Encode("\"\",")| == 3
    ensures Base64.Encode(Utf8.Encode("\"\",")) == "IiIs"
  {
    assert Utf8.Encode("\"\",") == [34, 34, 44];
  }

  lemma Group21()
    ensures |Utf8.Encode("\"la")| == 3
    ensures Base64.Encode(Utf8.Encode("\"la")) == "Imxh"
  {
    assert Utf8.Encode("\"la") == [34, 108, 97];
  }

  lemma Group22()
    ensures |Utf8.Encode("ngu")| == 3
    ensures Base64.Encode(Utf8.Encode("ngu")) == "bmd1"
  {
    assert Utf8.Encode("ngu") == [110, 103, 117];
  }

  lemma Group23()
    ensures |Utf8.Encode("age")| == 3
    ensures Base64.Encode(Utf8.Encode("age")) == "YWdl"
  {
    assert Utf8.Encode("age") == [97, 103, 101];
  }

  lemma Group24()
    ensures |Utf8.Encode("\":\"")| == 3
    ensures Base64.Encode(Utf8.Encode("\":\"")) == "Ijoi"
  {
    assert Utf8.Encode("\":\"") == [34, 58, 34];
  }

  lemma Group25()
    ensures |Utf8.Encode("en\"")| == 3
    ensures Base64.Encode(Utf8.Encode("en\"")) == "ZW4i"
  {
    assert Utf8.Encode("en\"") == [101, 110, 34];
  }

  lemma Group26()
    ensures |Utf8.Encode("}")| == 1
    ensures Base64.Encode(Utf8.Encode("}")) == "fQ=="
  {
    assert Utf8.Encode("}") == [125];
  }

  /** Appending text to UTF-8 bytes that form whole base 64 groups appends
      the text's encoding. */
  lemma HeaderAppend(x: string, t: string, hx: string, ht: string)
    requires |Utf8.Encode(x)| % 3 == 0 && Base64.Encode(Utf8.Encode(x)) == hx
    requires Base64.Encode(Utf8.Encode(t)) == ht
    ensures |Utf8.Encode(x + t)| == |Utf8.Encode(x)| + |Utf8.Encode(t)|
    ensures Base64.Encode(Utf8.Encode(x + t)) == hx + ht
  {
    Utf8.EncodeConcat(x, t);
    Base64.EncodeConcat(Utf8.Encode(x), Utf8.Encode(t));
  }

  lemma Prefix1()
    ensures |Utf8.Encode("{\"u")| == 3
    ensures Base64.Encode(Utf8.Encode("{\"u"))
            == "eyJ1"
  {
    Group0();
  }

  lemma Prefix2()
    ensures |Utf8.Encode("{\"u" + "id\"")| == 6
    ensures Base64.Encode(Utf8.Encode("{\"u" + "id\""))
            == "eyJ1" + "aWQi"
  {
    Prefix1();
    Group1();
    HeaderAppend("{\"u",
                 "id\"",
                 "eyJ1",
                 "aWQi");
  }

  lemma Prefix3()
    ensures |Utf8.Encode("{\"u" + "id\"" + ":\"\"")| == 9
    ensures Base64.Encode(Utf8.Encode("{\"u" + "id\"" + ":\"\""))
            == "eyJ1" + "aWQi" + "OiIi"
  {
    Prefix2();
    Group2();
    HeaderAppend("{\"u" + "id\"",
                 ":\"\"",
                 "eyJ1" + "aWQi",
                 "OiIi");
  }

  lemma Prefix4()
    ensures |Utf8.Encode("{\"u" + "id\"" + ":\"\"" + ",\"t")| == 12
    ensures Base64.Encode(Utf8.Encode("{\"u" + "id\"" + ":\"\"" + ",\"t"))
            == "eyJ1" + "aWQi" + "OiIi" + "LCJ0"
  {
    Prefix3();
    Group3();
    HeaderAppend("{\"u" + "id\"" + ":\"\"",
                 ",\"t",
                 "eyJ1" + "aWQi" + "OiIi",
                 "LCJ0");
  }

  lemma Prefix5()
    ensures |Utf8.Encode("{\"u" + "id\"" + ":\"\"" + ",\"t" + "ime")| == 15
    ensures Base64.Encode(Utf8.Encode("{\"u" + "id\"" + ":\"\"" + ",\"t" + "ime"))
            == "eyJ1" + "aWQi" + "OiIi" + "LCJ0" + "aW1l"
  {
    Prefix4();
    Group4();
    HeaderAppend("{\"u" + "id\"" + ":\"\"" + ",\"t",
                 "ime",
                 "eyJ1" + "aWQi" + "OiIi" + "LCJ0",
                 "aW1l");
  }

  lemma Prefix6()
    ensures |Utf8.Encode("{\"u" + "id\"" + ":\"\"" + ",\"t" + "ime" + "sta")| == 18
    ensures Base64.Encode(Utf8.Encode("{\"u" + "id\"" + ":\"\"" + ",\"t" + "ime" + "sta"))
            == "eyJ1" + "aWQi" + "OiIi" + "LCJ0" + "aW1l" + "c3Rh"
  {
    Prefix5();
    Group5();
    HeaderAppend("{\"u" + "id\"" + ":\"\"" + ",\"t" + "ime",
                 "sta",
                 "eyJ1" + "aWQi" + "OiIi" + "LCJ0" + "aW1l",
                 "c3Rh");
  }

  lemma Prefix7()
    ensures |Utf8.Encode("{\"u" + "id\"" + ":\"\"" + ",\"t" + "ime" + "sta" + "mp\"")| == 21
    ensures Base64.Encode(Utf8.Encode("{\"u" + "id\"" + ":\"\"" + ",\"t" + "ime" + "sta" + "mp\""))
            == "eyJ1" + "aWQi" + "OiIi" + "LCJ0" + "aW1l" + "c3Rh" + "bXAi"
  {
    Prefix6();
    Group6();
    HeaderAppend("{\"u" + "id\"" + ":\"\"" + ",\"t" + "ime" + "sta",
                 "mp\"",
                 "eyJ1" + "aWQi" + "OiIi" + "LCJ0" + "aW1l" + "c3Rh",
                 "bXAi");
  }

  lemma Prefix8()
    ensures |Utf8.Encode("{\"u" + "id\"" + ":\"\"" + ",\"t" + "ime" + "sta" + "mp\"" + ":0,")| == 24
    ensures Base64.Encode(Utf8.Encode("{\"u" + "id\"" + ":\"\"" + ",\"t" + "ime" + "sta" + "mp\"" + ":0,"))
            == "eyJ1" + "aWQi" + "OiIi" + "LCJ0" + "aW1l" + "c3Rh" + "bXAi" + "OjAs"
  {
    Prefix7();
    Group7();
    HeaderAppend("{\"u" + "id\"" + ":\"\"" + ",\"t" + "ime" + "sta" + "mp\"",
                 ":0,",
                 "eyJ1" + "aWQi" + "OiIi" + "LCJ0" + "aW1l" + "c3Rh" + "bXAi",
                 "OjAs");
  }

  lemma Prefix9()
    ensures |Utf8.Encode("{\"u" + "id\"" + ":\"\"" + ",\"t" + "ime" + "sta" + "mp\"" + ":0," + "\"to")| == 27
    ensures Base64.Encode(Utf8.Encode("{\"u" + "id\"" + ":\"\"" + ",\"t" + "ime" + "sta" + "mp\"" + ":0," + "\"to"))
            == "eyJ1" + "aWQi" + "OiIi" + "LCJ0" + "aW1l" + "c3Rh" + "bXAi" + "OjAs" + "InRv"
  {
    Prefix8();
    Group8();
    HeaderAppend("{\"u" + "id\"" + ":\"\"" + ",\"t" + "ime" + "sta" + "mp\"" + ":0,",
                 "\"to",
                 "eyJ1" + "aWQi" + "OiIi" + "LCJ0" + "aW1l" + "c3Rh" + "bXAi" + "OjAs",
                 "InRv");
  }

  lemma Prefix10()
    ensures |Utf8.Encode("{\"u" + "id\"" + ":\"\"" + ",\"t" + "ime" + "sta" + "mp\"" + ":0," + "\"to" + "ken")| == 30
    ensures Base64.Encode(Utf8.Encode("{\"u" + "id\"" + ":\"\"" + ",\"t" + "ime" + "sta" + "mp\"" + ":0," + "\"to" + "ken"))
            == "eyJ1" + "aWQi" + "OiIi" + "LCJ0" + "aW1l" + "c3Rh" + "bXAi" + "OjAs" + "InRv" + "a2Vu"
  {
    Prefix9();
    Group9();
    HeaderAppend("{\"u" + "id\"" + ":\"\"" + ",\"t" + "ime" + "sta" + "mp\"" + ":0," + "\"to",
                 "ken",
                 "eyJ1" + "aWQi" + "OiIi" + "LCJ0" + "aW1l" + "c3Rh" + "bXAi" + "OjAs" + "InRv",
                 "a2Vu");
  }

  lemma Prefix11()
    ensures |Utf8.Encode("{\"u" + "id\"" + ":\"\"" + ",\"t" + "ime" + "sta" + "mp\"" + ":0," + "\"to" + "ken" + "\":\"")| == 33
    ensures Base64.Encode(Utf8.Encode("{\"u" + "id\"" + ":\"\"" + ",\"t" + "ime" + "sta" + "mp\"" + ":0," + "\"to" + "ken" + "\":\""))
            == "eyJ1" + "aWQi" + "OiIi" + "LCJ0" + "aW1l" + "c3Rh" + "bXAi" + "OjAs" + "InRv" + "a2Vu" + "Ijoi"
  {
    Prefix10();
    Group10();
    HeaderAppend("{\"u" + "id\"" + ":\"\"" + ",\"t" + "ime" + "sta" + "mp\"" + ":0," + "\"to" + "ken",
                 "\":\"",
                 "eyJ1" + "aWQi" + "OiIi" + "LCJ0" + "aW1l" + "c3Rh" + "bXAi" + "OjAs" + "InRv" + "a2Vu",
                 "Ijoi");
  }

  lemma Prefix12()
    ensures |Utf8.Encode("{\"u" + "id\"" + ":\"\"" + ",\"t" + "ime" + "sta" + "mp\"" + ":0," + "\"to" + "ken" + "\":\"" + "\",\"")| == 36
    ensures Base64.Encode(Utf8.Encode("{\"u" + "id\"" + ":\"\"" + ",\"t" + "ime" + "sta" + "mp\"" + ":0," + "\"to" + "ken" + "\":\"" + "\",\""))
            == "eyJ1" + "aWQi" + "OiIi" + "LCJ0" + "aW1l" + "c3Rh" + "bXAi" + "OjAs" + "InRv" + "a2Vu" + "Ijoi" + "Iiwi"
  {
    Prefix11();
    Group11();
    HeaderAppend("{\"u" + "id\"" + ":\"\"" + ",\"t" + "ime" + "sta" + "mp\"" + ":0," + "\"to" + "ken" + "\":\"",
                 "\",\"",
                 "eyJ1" + "aWQi" + "OiIi" + "LCJ0" + "aW1l" + "c3Rh" + "bXAi" + "OjAs" + "InRv" + "a2Vu" + "Ijoi",
                 "Iiwi");
  }

  lemma Prefix13()
    ensures |Utf8.Encode("{\"u" + "id\"" + ":\"\"" + ",\"t" + "ime" + "sta" + "mp\"" + ":0," + "\"to" + "ken" + "\":\"" + "\",\"" + "cli")| == 39
    ensures Base64.Encode(Utf8.Encode("{\"u" + "id\"" + ":\"\"" + ",\"t" + "ime" + "sta" + "mp\"" + ":0," + "\"to" + "ken" + "\":\"" + "\",\"" + "cli"))
            == "eyJ1" + "aWQi" + "OiIi" + "LCJ0" + "aW1l" + "c3Rh" + "bXAi" + "OjAs" + "InRv" + "a2Vu" + "Ijoi" + "Iiwi" + "Y2xp"
  {
    Prefix12();
    Group12();
    HeaderAppend("{\"u" + "id\"" + ":\"\"" + ",\"t" + "ime" + "sta" + "mp\"" + ":0," + "\"to" + "ken" + "\":\"" + "\",\"",
                 "cli",
                 "eyJ1" + "aWQi" + "OiIi" + "LCJ0" + "aW1l" + "c3Rh" + "bXAi" + "OjAs" + "InRv" + "a2Vu" + "Ijoi" + "Iiwi",
                 "Y2xp");
  }

  lemma Prefix14()
    ensures |Utf8.Encode("{\"u" + "id\"" + ":\"\"" + ",\"t" + "ime" + "sta" + "mp\"" + ":0," + "\"to" + "ken" + "\":\"" + "\",\"" + "cli" + "ent")| == 42
    ensures Base64.Encode(Utf8.Encode("{\"u" + "id\"" + ":\"\"" + ",\"t" + "ime" + "sta" + "mp\"" + ":0," + "\"to" + "ken" + "\":\"" + "\",\"" + "cli" + "ent"))
            == "eyJ1" + "aWQi" + "OiIi" + "LCJ0" + "aW1l" + "c3Rh" + "bXAi" + "OjAs" + "InRv" + "a2Vu" + "Ijoi" + "Iiwi" + "Y2xp" + "ZW50"
  {
    Prefix13();
    Group13();
    HeaderAppend("{\"u" + "id\"" + ":\"\"" + ",\"t" + "ime" + "sta" + "mp\"" + ":0," + "\"to" + "ken" + "\":\"" + "\",\"" + "cli",
                 "ent",
                 "eyJ1" + "aWQi" + "OiIi" + "LCJ0" + "aW1l" + "c3Rh" + "bXAi" + "OjAs" + "InRv" + "a2Vu" + "Ijoi" + "Iiwi" + "Y2xp",
                 "ZW50");
  }

  lemma Prefix15()
    ensures |Utf8.Encode("{\"u" + "id\"" + ":\"\"" + ",\"t" + "ime" + "sta" + "mp\"" + ":0," + "\"to" + "ken" + "\":\"" + "\",\"" + "cli" + "ent" + "\":\"")| == 45
    ensures Base64.Encode(Utf8.Encode("{\"u" + "id\"" + ":\"\"" + ",\"t" + "ime" + "sta" + "mp\"" + ":0," + "\"to" + "ken" + "\":\"" + "\",\"" + "cli" + "ent" + "\":\""))
            == "eyJ1" + "aWQi" + "OiIi" + "LCJ0" + "aW1l" + "c3Rh" + "bXAi" + "OjAs" + "InRv" + "a2Vu" + "Ijoi" + "Iiwi" + "Y2xp" + "ZW50" + "Ijoi"
  {
    Prefix14();
    Group14();
    HeaderAppend("{\"u" + "id\"" + ":\"\"" + ",\"t" + "ime" + "sta" + "mp\"" + ":0," + "\"to" + "ken" + "\":\"" + "\",\"" + "cli" + "ent",
                 "\":\"",
                 "eyJ1" + "aWQi" + "OiIi" + "LCJ0" + "aW1l" + "c3Rh" + "bXAi" + "OjAs" + "InRv" + "a2Vu" + "Ijoi" + "Iiwi" + "Y2xp" + "ZW50",
                 "Ijoi");
  }

  lemma Prefix16()
    ensures |Utf8.Encode("{\"u" + "id\"" + ":\"\"" + ",\"t" + "ime" + "sta" + "mp\"" + ":0," + "\"to" + "ken" + "\":\"" + "\",\"" + "cli" + "ent" + "\":\"" + "web")| == 48
    ensures Base64.Encode(Utf8.Encode("{\"u" + "id\"" + ":\"\"" + ",\"t" + "ime" + "sta" + "mp\"" + ":0," + "\"to" + "ken" + "\":\"" + "\",\"" + "cli" + "ent" + "\":\"" + "web"))
            == "eyJ1" + "aWQi" + "OiIi" + "LCJ0" + "aW1l" + "c3Rh" + "bXAi" + "OjAs" + "InRv" + "a2Vu" + "Ijoi" + "Iiwi" + "Y2xp" + "ZW50" + "Ijoi" + "d2Vi"
  {
    Prefix15();
    Group15();
    HeaderAppend("{\"u" + "id\"" + ":\"\"" + ",\"t" + "ime" + "sta" + "mp\"" + ":0," + "\"to" + "ken" + "\":\"" + "\",\"" + "cli" + "ent" + "\":\"",
                 "web",
                 "eyJ1" + "aWQi" + "OiIi" + "LCJ0" + "aW1l" + "c3Rh" + "bXAi" + "OjAs" + "InRv" + "a2Vu" + "Ijoi" + "Iiwi" + "Y2xp" + "ZW50" + "Ijoi",
                 "d2Vi");
  }

  lemma Prefix17()
    ensures |Utf8.Encode("{\"u" + "id\"" + ":\"\"" + ",\"t" + "ime" + "sta" + "mp\"" + ":0," + "\"to" + "ken" + "\":\"" + "\",\"" + "cli" + "ent" + "\":\"" + "web" + "\",\"")| == 51
    ensures Base64.Encode(Utf8.Encode("{\"u" + "id\"" + ":\"\"" + ",\"t" + "ime" + "sta" + "mp\"" + ":0," + "\"to" + "ken" + "\":\"" + "\",\"" + "cli" + "ent" + "\":\"" + "web" + "\",\""))
            == "eyJ1" + "aWQi" + "OiIi" + "LCJ0" + "aW1l" + "c3Rh" + "bXAi" + "OjAs" + "InRv" + "a2Vu" + "Ijoi" + "Iiwi" + "Y2xp" + "ZW50" + "Ijoi" + "d2Vi" + "Iiwi"
  {
    Prefix16();
    Group16();
    HeaderAppend("{\"u" + "id\"" + ":\"\"" + ",\"t" + "ime" + "sta" + "mp\"" + ":0," + "\"to" + "ken" + "\":\"" + "\",\"" + "cli" + "ent" + "\":\"" + "web",
                 "\",\"",
                 "eyJ1" + "aWQi" + "OiIi" + "LCJ0" + "aW1l" + "c3Rh" + "bXAi" + "OjAs" + "InRv" + "a2Vu" + "Ijoi" + "Iiwi" + "Y2xp" + "ZW50" + "Ijoi" + "d2Vi",
                 "Iiwi");
  }

  lemma Prefix18()
    ensures |Utf8.Encode("{\"u" + "id\"" + ":\"\"" + ",\"t" + "ime" + "sta" + "mp\"" + ":0," + "\"to" + "ken" + "\":\"" + "\",\"" + "cli" + "ent" + "\":\"" + "web" + "\",\"" + "ver")| == 54
    ensures Base64.Encode(Utf8.Encode("{\"u" + "id\"" + ":\"\"" + ",\"t" + "ime" + "sta" + "mp\"" + ":0," + "\"to" + "ken" + "\":\"" + "\",\"" + "cli" + "ent" + "\":\"" + "web" + "\",\"" + "ver"))
            == "eyJ1" + "aWQi" + "OiIi" + "LCJ0" + "aW1l" + "c3Rh" + "bXAi" + "OjAs" + "InRv" + "a2Vu" + "Ijoi" + "Iiwi" + "Y2xp" + "ZW50" + "Ijoi" + "d2Vi" + "Iiwi" + "dmVy"
  {
    Prefix17();
    Group17();
    HeaderAppend("{\"u" + "id\"" + ":\"\"" + ",\"t" + "ime" + "sta" + "mp\"" + ":0," + "\"to" + "ken" + "\":\"" + "\",\"" + "cli" + "ent" + "\":\"" + "web" + "\",\"",
                 "ver",
                 "eyJ1" + "aWQi" + "OiIi" + "LCJ0" + "aW1l" + "c3Rh" + "bXAi" + "OjAs" + "InRv" + "a2Vu" + "Ijoi" + "Iiwi" + "Y2xp" + "ZW50" + "Ijoi" + "d2Vi" + "Iiwi",
                 "dmVy");
  }

  lemma Prefix19()
    ensures |Utf8.Encode("{\"u" + "id\"" + ":\"\"" + ",\"t" + "ime" + "sta" + "mp\"" + ":0," + "\"to" + "ken" + "\":\"" + "\",\"" + "cli" + "ent" + "\":\"" + "web" + "\",\"" + "ver" + "sio")| == 57
    ensures Base64.Encode(Utf8.Encode("{\"u" + "id\"" + ":\"\"" + ",\"t" + "ime" + "sta" + "mp\"" + ":0," + "\"to" + "ken" + "\":\"" + "\",\"" + "cli" + "ent" + "\":\"" + "web" + "\",\"" + "ver" + "sio"))
            == "eyJ1" + "aWQi" + "OiIi" + "LCJ0" + "aW1l" + "c3Rh" + "bXAi" + "OjAs" + "InRv" + "a2Vu" + "Ijoi" + "Iiwi" + "Y2xp" + "ZW50" + "Ijoi" + "d2Vi" + "Iiwi" + "dmVy" + "c2lv"
  {
    Prefix18();
    Group18();
    HeaderAppend("{\"u" + "id\"" + ":\"\"" + ",\"t" + "ime" + "sta" + "mp\"" + ":0," + "\"to" + "ken" + "\":\"" + "\",\"" + "cli" + "ent" + "\":\"" + "web" + "\",\"" + "ver",
                 "sio",
                 "eyJ1" + "aWQi" + "OiIi" + "LCJ0" + "aW1l" + "c3Rh" + "bXAi" + "OjAs" + "InRv" + "a2Vu" + "Ijoi" + "Iiwi" + "Y2xp" + "ZW50" + "Ijoi" + "d2Vi" + "Iiwi" + "dmVy",
                 "c2lv");
  }

  lemma Prefix20()
    ensures |Utf8.Encode("{\"u" + "id\"" + ":\"\"" + ",\"t" + "ime" + "sta" + "mp\"" + ":0," + "\"to" + "ken" + "\":\"" + "\",\"" + "cli" + "ent" + "\":\"" + "web" + "\",\"" + "ver" + "sio" + "n\":")| == 60
    ensures Base64.Encode(Utf8.Encode("{\"u" + "id\"" + ":\"\"" + ",\"t" + "ime" + "sta" + "mp\"" + ":0," + "\"to" + "ken" + "\":\"" + "\",\"" + "cli" + "ent" + "\":\"" + "web" + "\",\"" + "ver" + "sio" + "n\":"))
            == "eyJ1" + "aWQi" + "OiIi" + "LCJ0" + "aW1l" + "c3Rh" + "bXAi" + "OjAs" + "InRv" + "a2Vu" + "Ijoi" + "Iiwi" + "Y2xp" + "ZW50" + "Ijoi" + "d2Vi" + "Iiwi" + "dmVy" + "c2lv" + "biI6"
  {
    Prefix19();
    Group19();
    HeaderAppend("{\"u" + "id\"" + ":\"\"" + ",\"t" + "ime" + "sta" + "mp\"" + ":0," + "\"to" + "ken" + "\":\"" + "\",\"" + "cli" + "ent" + "\":\"" + "web" + "\",\"" + "ver" + "sio",
                 "n\":",
                 "eyJ1" + "aWQi" + "OiIi" + "LCJ0" + "aW1l" + "c3Rh" + "bXAi" + "OjAs" + "InRv" + "a2Vu" + "Ijoi" + "Iiwi" + "Y2xp" + "ZW50" + "Ijoi" + "d2Vi" + "Iiwi" + "dmVy" + "c2lv",
                 "biI6");
  }

  lemma Prefix21()
    ensures |Utf8.Encode("{\"u" + "id\"" + ":\"\"" + ",\"t" + "ime" + "sta" + "mp\"" + ":0," + "\"to" + "ken" + "\":\"" + "\",\"" + "cli" + "ent" + "\":\"" + "web" + "\",\"" + "ver" + "sio" + "n\":" + "\"\",")| == 63
    ensures Base64.Encode(Utf8.Encode("{\"u" + "id\"" + ":\"\"" + ",\"t" + "ime" + "sta" + "mp\"" + ":0," + "\"to" + "ken" + "\":\"" + "\",\"" + "cli" + "ent" + "\":\"" + "web" + "\",\"" + "ver" + "sio" + "n\":" + "\"\","))
            == "eyJ1" + "aWQi" + "OiIi" + "LCJ0" + "aW1l" + "c3Rh" + "bXAi" + "OjAs" + "InRv" + "a2Vu" + "Ijoi" + "Iiwi" + "Y2xp" + "ZW50" + "Ijoi" + "d2Vi" + "Iiwi" + "dmVy" + "c2lv" + "biI6" + "IiIs"
  {
    Prefix20();
    Group20();
    HeaderAppend("{\"u" + "id\"" + ":\"\"" + ",\"t" + "ime" + "sta" + "mp\"" + ":0," + "\"to" + "ken" + "\":\"" + "\",\"" + "cli" + "ent" + "\":\"" + "web" + "\",\"" + "ver" + "sio" + "n\":",
                 "\"\",",
                 "eyJ1" + "aWQi" + "OiIi" + "LCJ0" + "aW1l" + "c3Rh" + "bXAi" + "OjAs" + "InRv" + "a2Vu" + "Ijoi" + "Iiwi" + "Y2xp" + "ZW50" + "Ijoi" + "d2Vi" + "Iiwi" + "dmVy" + "c2lv" + "biI6",
                 "IiIs");
  }

  lemma Prefix22()
    ensures |Utf8.Encode("{\"u" + "id\"" + ":\"\"" + ",\"t" + "ime" + "sta" + "mp\"" + ":0," + "\"to" + "ken" + "\":\"" + "\",\"" + "cli" + "ent" + "\":\"" + "web" + "\",\"" + "ver" + "sio" + "n\":" + "\"\"," + "\"la")| == 66
    ensures Base64.Encode(Utf8.Encode("{\"u" + "id\"" + ":\"\"" + ",\"t" + "ime" + "sta" + "mp\"" + ":0," + "\"to" + "ken" + "\":\"" + "\",\"" + "cli" + "ent" + "\":\"" + "web" + "\",\"" + "ver" + "sio" + "n\":" + "\"\"," + "\"la"))
            == "eyJ1" + "aWQi" + "OiIi" + "LCJ0" + "aW1l" + "c3Rh" + "bXAi" + "OjAs" + "InRv" + "a2Vu" + "Ijoi" + "Iiwi" + "Y2xp" + "ZW50" + "Ijoi" + "d2Vi" + "Iiwi" + "dmVy" + "c2lv" + "biI6" + "IiIs" + "Imxh"
  {
    Prefix21();
    Group21();
    HeaderAppend("{\"u" + "id\"" + ":\"\"" + ",\"t" + "ime" + "sta" + "mp\"" + ":0," + "\"to" + "ken" + "\":\"" + "\",\"" + "cli" + "ent" + "\":\"" + "web" + "\",\"" + "ver" + "sio" + "n\":" + "\"\",",
                 "\"la",
                 "eyJ1" + "aWQi" + "OiIi" + "LCJ0" + "aW1l" + "c3Rh" + "bXAi" + "OjAs" + "InRv" + "a2Vu" + "Ijoi" + "Iiwi" + "Y2xp" + "ZW50" + "Ijoi" + "d2Vi" + "Iiwi" + "dmVy" + "c2lv" + "biI6" + "IiIs",
                 "Imxh");
  }

  lemma Prefix23()
    ensures |Utf8.Encode("{\"u" + "id\"" + ":\"\"" + ",\"t" + "ime" + "sta" + "mp\"" + ":0," + "\"to" + "ken" + "\":\"" + "\",\"" + "cli" + "ent" + "\":\"" + "web" + "\",\"" + "ver" + "sio" + "n\":" + "\"\"," + "\"la" + "ngu")| == 69
    ensures Base64.Encode(Utf8.Encode("{\"u" + "id\"" + ":\"\"" + ",\"t" + "ime" + "sta" + "mp\"" + ":0," + "\"to" + "ken" + "\":\"" + "\",\"" + "cli" + "ent" + "\":\"" + "web" + "\",\"" + "ver" + "sio" + "n\":" + "\"\"," + "\"la" + "ngu"))
            == "eyJ1" + "aWQi" + "OiIi" + "LCJ0" + "aW1l" + "c3Rh" + "bXAi" + "OjAs" + "InRv" + "a2Vu" + "Ijoi" + "Iiwi" + "Y2xp" + "ZW50" + "Ijoi" + "d2Vi" + "Iiwi" + "dmVy" + "c2lv" + "biI6" + "IiIs" + "Imxh" + "bmd1"
  {
    Prefix22();
    Group22();
    HeaderAppend("{\"u" + "id\"" + ":\"\"" + ",\"t" + "ime" + "sta" + "mp\"" + ":0," + "\"to" + "ken" + "\":\"" + "\",\"" + "cli" + "ent" + "\":\"" + "web" + "\",\"" + "ver" + "sio" + "n\":" + "\"\"," + "\"la",
                 "ngu",
                 "eyJ1" + "aWQi" + "OiIi" + "LCJ0" + "aW1l" + "c3Rh" + "bXAi" + "OjAs" + "InRv" + "a2Vu" + "Ijoi" + "Iiwi" + "Y2xp" + "ZW50" + "Ijoi" + "d2Vi" + "Iiwi" + "dmVy" + "c2lv" + "biI6" + "IiIs" + "Imxh",
                 "bmd1");
  }

  lemma Prefix24()
    ensures |Utf8.Encode("{\"u" + "id\"" + ":\"\"" + ",\"t" + "ime" + "sta" + "mp\"" + ":0," + "\"to" + "ken" + "\":\"" + "\",\"" + "cli" + "ent" + "\":\"" + "web" + "\",\"" + "ver" + "sio" + "n\":" + "\"\"," + "\"la" + "ngu" + "age")| == 72
    ensures Base64.Encode(Utf8.Encode("{\"u" + "id\"" + ":\"\"" + ",\"t" + "ime" + "sta" + "mp\"" + ":0," + "\"to" + "ken" + "\":\"" + "\",\"" + "cli" + "ent" + "\":\"" + "web" + "\",\"" + "ver" + "sio" + "n\":" + "\"\"," + "\"la" + "ngu" + "age"))
            == "eyJ1" + "aWQi" + "OiIi" + "LCJ0" + "aW1l" + "c3Rh" + "bXAi" + "OjAs" + "InRv" + "a2Vu" + "Ijoi" + "Iiwi" + "Y2xp" + "ZW50" + "Ijoi" + "d2Vi" + "Iiwi" + "dmVy" + "c2lv" + "biI6" + "IiIs" + "Imxh" + "bmd1" + "YWdl"
  {
    Prefix23();
    Group23();
    HeaderAppend("{\"u" + "id\"" + ":\"\"" + ",\"t" + "ime" + "sta" + "mp\"" + ":0," + "\"to" + "ken" + "\":\"" + "\",\"" + "cli" + "ent" + "\":\"" + "web" + "\",\"" + "ver" + "sio" + "n\":" + "\"\"," + "\"la" + "ngu",
                 "age",
                 "eyJ1" + "aWQi" + "OiIi" + "LCJ0" + "aW1l" + "c3Rh" + "bXAi" + "OjAs" + "InRv" + "a2Vu" + "Ijoi" + "Iiwi" + "Y2xp" + "ZW50" + "Ijoi" + "d2Vi" + "Iiwi" + "dmVy" + "c2lv" + "biI6" + "IiIs" + "Imxh" + "bmd1",
                 "YWdl");
  }

  lemma Prefix25()
    ensures |Utf8.Encode("{\"u" + "id\"" + ":\"\"" + ",\"t" + "ime" + "sta" + "mp\"" + ":0," + "\"to" + "ken" + "\":\"" + "\",\"" + "cli" + "ent" + "\":\"" + "web" + "\",\"" + "ver" + "sio" + "n\":" + "\"\"," + "\"la" + "ngu" + "age" + "\":\"")| == 75
    ensures Base64.Encode(Utf8.Encode("{\"u" + "id\"" + ":\"\"" + ",\"t" + "ime" + "sta" + "mp\"" + ":0," + "\"to" + "ken" + "\":\"" + "\",\"" + "cli" + "ent" + "\":\"" + "web" + "\",\"" + "ver" + "sio" + "n\":" + "\"\"," + "\"la" + "ngu" + "age" + "\":\""))
            == "eyJ1" + "aWQi" + "OiIi" + "LCJ0" + "aW1l" + "c3Rh" + "bXAi" + "OjAs" + "InRv" + "a2Vu" + "Ijoi" + "Iiwi" + "Y2xp" + "ZW50" + "Ijoi" + "d2Vi" + "Iiwi" + "dmVy" + "c2lv" + "biI6" + "IiIs" + "Imxh" + "bmd1" + "YWdl" + "Ijoi"
  {
    Prefix24();
    Group24();
    HeaderAppend("{\"u" + "id\"" + ":\"\"" + ",\"t" + "ime" + "sta" + "mp\"" + ":0," + "\"to" + "ken" + "\":\"" + "\",\"" + "cli" + "ent" + "\":\"" + "web" + "\",\"" + "ver" + "sio" + "n\":" + "\"\"," + "\"la" + "ngu" + "age",
                 "\":\"",
                 "eyJ1" + "aWQi" + "OiIi" + "LCJ0" + "aW1l" + "c3Rh" + "bXAi" + "OjAs" + "InRv" + "a2Vu" + "Ijoi" + "Iiwi" + "Y2xp" + "ZW50" + "Ijoi" + "d2Vi" + "Iiwi" + "dmVy" + "c2lv" + "biI6" + "IiIs" + "Imxh" + "bmd1" + "YWdl",
                 "Ijoi");
  }

  lemma Prefix26()
    ensures |Utf8.Encode("{\"u" + "id\"" + ":\"\"" + ",\"t" + "ime" + "sta" + "mp\"" + ":0," + "\"to" + "ken" + "\":\"" + "\",\"" + "cli" + "ent" + "\":\"" + "web" + "\",\"" + "ver" + "sio" + "n\":" + "\"\"," + "\"la" + "ngu" + "age" + "\":\"" + "en\"")| == 78
    ensures Base64.Encode(Utf8.Encode("{\"u" + "id\"" + ":\"\"" + ",\"t" + "ime" + "sta" + "mp\"" + ":0," + "\"to" + "ken" + "\":\"" + "\",\"" + "cli" + "ent" + "\":\"" + "web" + "\",\"" + "ver" + "sio" + "n\":" + "\"\"," + "\"la" + "ngu" + "age" + "\":\"" + "en\""))
            == "eyJ1" + "aWQi" + "OiIi" + "LCJ0" + "aW1l" + "c3Rh" + "bXAi" + "OjAs" + "InRv" + "a2Vu" + "Ijoi" + "Iiwi" + "Y2xp" + "ZW50" + "Ijoi" + "d2Vi" + "Iiwi" + "dmVy" + "c2lv" + "biI6" + "IiIs" + "Imxh" + "bmd1" + "YWdl" + "Ijoi" + "ZW4i"
  {
    Prefix25();
    Group25();
    HeaderAppend("{\"u" + "id\"" + ":\"\"" + ",\"t" + "ime" + "sta" + "mp\"" + ":0," + "\"to" + "ken" + "\":\"" + "\",\"" + "cli" + "ent" + "\":\"" + "web" + "\",\"" + "ver" + "sio" + "n\":" + "\"\"," + "\"la" + "ngu" + "age" + "\":\"",
                 "en\"",
                 "eyJ1" + "aWQi" + "OiIi" + "LCJ0" + "aW1l" + "c3Rh" + "bXAi" + "OjAs" + "InRv" + "a2Vu" + "Ijoi" + "Iiwi" + "Y2xp" + "ZW50" + "Ijoi" + "d2Vi" + "Iiwi" + "dmVy" + "c2lv" + "biI6" + "IiIs" + "Imxh" + "bmd1" + "YWdl" + "Ijoi",
                 "ZW4i");
  }

  lemma Prefix27()
    ensures |Utf8.Encode("{\"u" + "id\"" + ":\"\"" + ",\"t" + "ime" + "sta" + "mp\"" + ":0," + "\"to" + "ken" + "\":\"" + "\",\"" + "cli" + "ent" + "\":\"" + "web" + "\",\"" + "ver" + "sio" + "n\":" + "\"\"," + "\"la" + "ngu" + "age" + "\":\"" + "en\"" + "}")| == 79
    ensures Base64.Encode(Utf8.Encode("{\"u" + "id\"" + ":\"\"" + ",\"t" + "ime" + "sta" + "mp\"" + ":0," + "\"to" + "ken" + "\":\"" + "\",\"" + "cli" + "ent" + "\":\"" + "web" + "\",\"" + "ver" + "sio" + "n\":" + "\"\"," + "\"la" + "ngu" + "age" + "\":\"" + "en\"" + "}"))
            == "eyJ1" + "aWQi" + "OiIi" + "LCJ0" + "aW1l" + "c3Rh" + "bXAi" + "OjAs" + "InRv" + "a2Vu" + "Ijoi" + "Iiwi" + "Y2xp" + "ZW50" + "Ijoi" + "d2Vi" + "Iiwi" + "dmVy" + "c2lv" + "biI6" + "IiIs" + "Imxh" + "bmd1" + "YWdl" + "Ijoi" + "ZW4i" + "fQ=="
  {
    Prefix26();
    Group26();
    HeaderAppend("{\"u" + "id\"" + ":\"\"" + ",\"t" + "ime" + "sta" + "mp\"" + ":0," + "\"to" + "ken" + "\":\"" + "\",\"" + "cli" + "ent" + "\":\"" + "web" + "\",\"" + "ver" + "sio" + "n\":" + "\"\"," + "\"la" + "ngu" + "age" + "\":\"" + "en\"",
                 "}",
                 "eyJ1" + "aWQi" + "OiIi" + "LCJ0" + "aW1l" + "c3Rh" + "bXAi" + "OjAs" + "InRv" + "a2Vu" + "Ijoi" + "Iiwi" + "Y2xp" + "ZW50" + "Ijoi" + "d2Vi" + "Iiwi" + "dmVy" + "c2lv" + "biI6" + "IiIs" + "Imxh" + "bmd1" + "YWdl" + "Ijoi" + "ZW4i",
                 "fQ==");
  }

  // ---------------------------------------------------------------------
  // The fixed header, regrouped

  lemma HeaderPiece1()
    ensures "eyJ1" + "aWQi"
            == "eyJ1aWQi"
  {
  }

  lemma HeaderPiece2()
    ensures "eyJ1aWQi" + "OiIi"
            == "eyJ1aWQiOiIi"
  {
  }

  lemma HeaderPiece3()
    ensures "eyJ1aWQiOiIi" + "LCJ0"
            == "eyJ1aWQiOiIiLCJ0"
  {
  }

  lemma HeaderPiece4()
    ensures "eyJ1aWQiOiIiLCJ0" + "aW1l"
            == "eyJ1aWQiOiIiLCJ0aW1l"
  {
  }

  lemma HeaderPiece5()
    ensures "eyJ1aWQiOiIiLCJ0aW1l" + "c3Rh"
            == "eyJ1aWQiOiIiLCJ0aW1lc3Rh"
  {
  }

  lemma HeaderPiece6()
    ensures "eyJ1aWQiOiIiLCJ0aW1lc3Rh" + "bXAi"
            == "eyJ1aWQiOiIiLCJ0aW1lc3RhbXAi"
  {
  }

  lemma HeaderPiece7()
    ensures "eyJ1aWQiOiIiLCJ0aW1lc3RhbXAi" + "OjAs"
            == "eyJ1aWQiOiIiLCJ0aW1lc3RhbXAiOjAs"
  {
  }

  lemma HeaderPiece8()
    ensures "eyJ1aWQiOiIiLCJ0aW1lc3RhbXAiOjAs" + "InRv"
            == "eyJ1aWQiOiIiLCJ0aW1lc3RhbXAiOjAsInRv"
  {
  }

  lemma HeaderPiece9()
    ensures "eyJ1aWQiOiIiLCJ0aW1lc3RhbXAiOjAsInRv" + "a2Vu"
            == "eyJ1aWQiOiIiLCJ0aW1lc3RhbXAiOjAsInRva2Vu"
  {
  }

  lemma HeaderPiece10()
    ensures "eyJ1aWQiOiIiLCJ0aW1lc3RhbXAiOjAsInRva2Vu" + "Ijoi"
            == "eyJ1aWQiOiIiLCJ0aW1lc3RhbXAiOjAsInRva2VuIjoi"
  {
  }

  lemma HeaderPiece11()
    ensures "eyJ1aWQiOiIiLCJ0aW1lc3RhbXAiOjAsInRva2VuIjoi" + "Iiwi"
            == "eyJ1aWQiOiIiLCJ0aW1lc3RhbXAiOjAsInRva2VuIjoiIiwi"
  {
  }

  lemma HeaderPiece12()
    ensures "eyJ1aWQiOiIiLCJ0aW1lc3RhbXAiOjAsInRva2VuIjoiIiwi" + "Y2xp"
            == "eyJ1aWQiOiIiLCJ0aW1lc3RhbXAiOjAsInRva2VuIjoiIiwiY2xp"
  {
  }

  lemma HeaderPiece13()
    ensures "eyJ1aWQiOiIiLCJ0aW1lc3RhbXAiOjAsInRva2VuIjoiIiwiY2xp" + "ZW50"
            == "eyJ1aWQiOiIiLCJ0aW1lc3RhbXAiOjAsInRva2VuIjoiIiwiY2xpZW50"
  {
  }

  lemma HeaderPiece14()
    ensures "eyJ1aWQiOiIiLCJ0aW1lc3RhbXAiOjAsInRva2VuIjoiIiwiY2xpZW50" + "Ijoi"
            == "eyJ1aWQiOiIiLCJ0aW1lc3RhbXAiOjAsInRva2VuIjoiIiwiY2xpZW50Ijoi"
  {
  }

  lemma HeaderPiece15()
    ensures "eyJ1aWQiOiIiLCJ0aW1lc3RhbXAiOjAsInRva2VuIjoiIiwiY2xpZW50Ijoi" + "d2Vi"
            == "eyJ1aWQiOiIiLCJ0aW1lc3RhbXAiOjAsInRva2VuIjoiIiwiY2xpZW50Ijoid2Vi"
  {
  }

  lemma HeaderPiece16()
    ensures "eyJ1aWQiOiIiLCJ0aW1lc3RhbXAiOjAsInRva2VuIjoiIiwiY2xpZW50Ijoid2Vi" + "Iiwi"
            == "eyJ1aWQiOiIiLCJ0aW1lc3RhbXAiOjAsInRva2VuIjoiIiwiY2xpZW50Ijoid2ViIiwi"
  {
  }

  lemma HeaderPiece17()
    ensures "eyJ1aWQiOiIiLCJ0aW1lc3RhbXAiOjAsInRva2VuIjoiIiwiY2xpZW50Ijoid2ViIiwi" + "dmVy"
            == "eyJ1aWQiOiIiLCJ0aW1lc3RhbXAiOjAsInRva2VuIjoiIiwiY2xpZW50Ijoid2ViIiwidmVy"
  {
  }

  lemma HeaderPiece18()
    ensures "eyJ1aWQiOiIiLCJ0aW1lc3RhbXAiOjAsInRva2VuIjoiIiwiY2xpZW50Ijoid2ViIiwidmVy" + "c2lv"
            == "eyJ1aWQiOiIiLCJ0aW1lc3RhbXAiOjAsInRva2VuIjoiIiwiY2xpZW50Ijoid2ViIiwidmVyc2lv"
  {
  }

  lemma HeaderPiece19()
    ensures "eyJ1aWQiOiIiLCJ0aW1lc3RhbXAiOjAsInRva2VuIjoiIiwiY2xpZW50Ijoid2ViIiwidmVyc2lv" + "biI6"
            == "eyJ1aWQiOiIiLCJ0aW1lc3RhbXAiOjAsInRva2VuIjoiIiwiY2xpZW50Ijoid2ViIiwidmVyc2lvbiI6"
  {
  }

  lemma HeaderPiece20()
    ensures "eyJ1aWQiOiIiLCJ0aW1lc3RhbXAiOjAsInRva2VuIjoiIiwiY2xpZW50Ijoid2ViIiwidmVyc2lvbiI6" + "IiIs"
            == "eyJ1aWQiOiIiLCJ0aW1lc3RhbXAiOjAsInRva2VuIjoiIiwiY2xpZW50Ijoid2ViIiwidmVyc2lvbiI6IiIs"
  {
  }

  lemma HeaderPiece21()
    ensures "eyJ1aWQiOiIiLCJ0aW1lc3RhbXAiOjAsInRva2VuIjoiIiwiY2xpZW50Ijoid2ViIiwidmVyc2lvbiI6IiIs" + "Imxh"
            == "eyJ1aWQiOiIiLCJ0aW1lc3RhbXAiOjAsInRva2VuIjoiIiwiY2xpZW50Ijoid2ViIiwidmVyc2lvbiI6IiIsImxh"
  {
  }

  lemma HeaderPiece22()
    ensures "eyJ1aWQiOiIiLCJ0aW1lc3RhbXAiOjAsInRva2VuIjoiIiwiY2xpZW50Ijoid2ViIiwidmVyc2lvbiI6IiIsImxh" + "bmd1"
            == "eyJ1aWQiOiIiLCJ0aW1lc3RhbXAiOjAsInRva2VuIjoiIiwiY2xpZW50Ijoid2ViIiwidmVyc2lvbiI6IiIsImxhbmd1"
  {
  }

  lemma HeaderPiece23()
    ensures "eyJ1aWQiOiIiLCJ0aW1lc3RhbXAiOjAsInRva2VuIjoiIiwiY2xpZW50Ijoid2ViIiwidmVyc2lvbiI6IiIsImxhbmd1" + "YWdl"
            == "eyJ1aWQiOiIiLCJ0aW1lc3RhbXAiOjAsInRva2VuIjoiIiwiY2xpZW50Ijoid2ViIiwidmVyc2lvbiI6IiIsImxhbmd1YWdl"
  {
  }

  lemma HeaderPiece24()
    ensures "eyJ1aWQiOiIiLCJ0aW1lc3RhbXAiOjAsInRva2VuIjoiIiwiY2xpZW50Ijoid2ViIiwidmVyc2lvbiI6IiIsImxhbmd1YWdl" + "Ijoi"
            == "eyJ1aWQiOiIiLCJ0aW1lc3RhbXAiOjAsInRva2VuIjoiIiwiY2xpZW50Ijoid2ViIiwidmVyc2lvbiI6IiIsImxhbmd1YWdlIjoi"
  {
  }

  lemma HeaderPiece25()
    ensures "eyJ1aWQiOiIiLCJ0aW1lc3RhbXAiOjAsInRva2VuIjoiIiwiY2xpZW50Ijoid2ViIiwidmVyc2lvbiI6IiIsImxhbmd1YWdlIjoi" + "ZW4i"
            == "eyJ1aWQiOiIiLCJ0aW1lc3RhbXAiOjAsInRva2VuIjoiIiwiY2xpZW50Ijoid2ViIiwidmVyc2lvbiI6IiIsImxhbmd1YWdlIjoiZW4i"
  {
  }

  lemma HeaderPiece26()
    ensures "eyJ1aWQiOiIiLCJ0aW1lc3RhbXAiOjAsInRva2VuIjoiIiwiY2xpZW50Ijoid2ViIiwidmVyc2lvbiI6IiIsImxhbmd1YWdlIjoiZW4i" + "fQ=="
            == "eyJ1aWQiOiIiLCJ0aW1lc3RhbXAiOjAsInRva2VuIjoiIiwiY2xpZW50Ijoid2ViIiwidmVyc2lvbiI6IiIsImxhbmd1YWdlIjoiZW4ifQ=="
  {
  }

  /** The fixed header is the concatenation of its groups of four symbols,
      each the encoding of three bytes. */
  lemma HeaderGroups()
    ensures GoodWe.LoginTokenHeader == "eyJ1" + "aWQi" + "OiIi" + "LCJ0" + "aW1l" + "c3Rh" + "bXAi" + "OjAs" + "InRv" + "a2Vu" + "Ijoi" + "Iiwi" + "Y2xp" + "ZW50" + "Ijoi" + "d2Vi" + "Iiwi" + "dmVy" + "c2lv" + "biI6" + "IiIs" + "Imxh" + "bmd1" + "YWdl" + "Ijoi" + "ZW4i" + "fQ=="
  {
    HeaderPiece1();
    HeaderPiece2();
    HeaderPiece3();
    HeaderPiece4();
    HeaderPiece5();
    HeaderPiece6();
    HeaderPiece7();
    HeaderPiece8();
    HeaderPiece9();
    HeaderPiece10();
    HeaderPiece11();
    HeaderPiece12();
    HeaderPiece13();
    HeaderPiece14();
    HeaderPiece15();
    HeaderPiece16();
    HeaderPiece17();
    HeaderPiece18();
    HeaderPiece19();
    HeaderPiece20();
    HeaderPiece21();
    HeaderPiece22();
    HeaderPiece23();
    HeaderPiece24();
    HeaderPiece25();
    HeaderPiece26();
  }

  /** The login request's fixed header is the token header of the
      anonymous web credential. */
  lemma AnonymousHeader()
    ensures GoodWe.TokenHeader(GoodWe.AnonymousLogin) == GoodWe.LoginTokenHeader
  {
    AnonymousJsonText();
    AnonymousJsonGroups();
    Prefix27();
    HeaderGroups();
  }

  /** The fixed header decodes to the anonymous credential's JSON text. */
  lemma AnonymousHeaderDecodes()
    ensures Base64.Decode(GoodWe.LoginTokenHeader) == Some(Utf8.Encode(AnonymousJson))
  {
    AnonymousHeader();
    AnonymousJsonText();
  }

  /** The login request carries a token header that decodes to the JSON
      text of the anonymous web credential, the same header an
      authenticated request would carry for that credential. */
  lemma LoginRequestHeader(username: string, password: string)
    ensures exists h :: ("token", h) in GoodWe.LoginRequest(username, password).headers
              && Base64.Decode(h) == Some(Utf8.Encode(AnonymousJson))
              && h == GoodWe.TokenHeader(GoodWe.AnonymousLogin)
  {
    AnonymousHeader();
    AnonymousHeaderDecodes();
    assert ("token", GoodWe.LoginTokenHeader) in GoodWe.LoginRequest(username, password).headers;
  }
}
