/** The requests of the decoder's test file, with the outcome the decoder
    actually gives them. Several differ from what the tests expect, since
    the decoder never compares a declared size with the bytes present.

    Each request is written as its space-separated fields, so that
    `Field(Ascii("GET"), Field(Ascii("4"), Key))` is the buffer `GET 4 name`. */
module DecoderCases {
  import opened Bytes
  import opened Strconv
  import opened Protocol
  import opened DecoderProperties

  const Key: seq<byte> := Ascii("name")
  const Json: seq<byte> := Ascii("{\"name\":\"cedric\"}")

  /** The words and numbers the requests are made of. */
  lemma Words()
    ensures Ascii("GET") == Name(GET) && Ascii("SET") == Name(SET) && Ascii("DEL") == Name(DEL)
    ensures Ascii("3") == Decimal(3) && Ascii("4") == Decimal(4) && Ascii("17") == Decimal(17)
    ensures |Key| == 4 && |Json| == 17
  {
    assert Decimal(17) == Decimal(1) + Decimal(7);
  }

  /** `GET 4 name` decodes to the key with an empty value. */
  lemma GetRequestCase()
    ensures Decode(Field(Ascii("GET"), Field(Ascii("4"), Key))) == Ok(Request(GET, Key, []))
  {
    Words();
    DecodeEncode(Request(GET, Key, []));
  }

  /** `DEL 4 name` decodes to the key with an empty value. */
  lemma DelRequestCase()
    ensures Decode(Field(Ascii("DEL"), Field(Ascii("4"), Key))) == Ok(Request(DEL, Key, []))
  {
    Words();
    DecodeEncode(Request(DEL, Key, []));
  }

  /** `SET 4 17 name {"name":"cedric"}` decodes to that key and value. */
  lemma SetRequestCase()
    ensures Decode(Field(Ascii("SET"), Field(Ascii("4"), Field(Ascii("17"), Field(Key, Json))))) ==
            Ok(Request(SET, Key, Json))
  {
    Words();
    DecodeEncode(Request(SET, Key, Json));
  }

  /** `GET 3 name`: the declared size wins and the key is cut to `nam`. */
  lemma ShortKeySizeCase()
    ensures Decode(Field(Ascii("GET"), Field(Ascii("3"), Key))) == Ok(Request(GET, Ascii("nam"), []))
  {
    Words();
    KeyPrefix();
    DeclaredKeySizeWins(GET, 3, Key);
  }

  /** The first three bytes of the key. */
  lemma KeyPrefix()
    ensures Key[..3] == Ascii("nam")
  {
  }

  /** `UNHANDLED_COMMAND 4 name` is refused as an invalid command. */
  lemma UnknownCommandCase()
    ensures Decode(Field(Ascii("UNHANDLED_COMMAND"), Field(Ascii("4"), Key))) == Err(InvalidCommand)
  {
    var token := Ascii("UNHANDLED_COMMAND");
    assert Space !in token;
    assert token != Name(GET) && token != Name(SET) && token != Name(DEL);
    UnknownCommandRejected(token, Field(Ascii("4"), Key));
  }

  /** `SET z 17 name {"name":"cedric"}` stops the process: the key size is
      not a number. */
  lemma NonNumericKeySizeCase()
    ensures Decode(Field(Ascii("SET"), Field(Ascii("z"), Field(Ascii("17"), Field(Key, Json))))) == Err(Abort)
  {
    Words();
    var token := Ascii("z");
    assert token == [122];
    KeySizeNotNumberAborts(SET, token, Field(Ascii("17"), Field(Key, Json)));
  }

  /** `SET 4 z name {"name":"cedric"}` fails because the value size is not a
      number. */
  lemma NonNumericValueSizeCase()
    ensures Decode(Field(Ascii("SET"), Field(Ascii("4"), Field(Ascii("z"), Field(Key, Json))))) ==
            Err(ValueSizeNotANumber)
  {
    Words();
    var token := Ascii("z");
    assert token == [122];
    AtoiOfDecimal(4);
    ValueSizeNotNumberFails(Decimal(4), token, Field(Key, Json));
  }

  /** `SET 4 17name{"name":"cedric"}`: no space after the value size, so the
      answer is "Invalid request". */
  lemma MissingSpaceCase()
    ensures Decode(Field(Ascii("SET"), Field(Ascii("4"), Ascii("17name") + Json))) == Err(MissingDelimiter)
  {
    Words();
    var rest := Ascii("17name") + Json;
    assert Space !in Ascii("17name") && Space !in Json;
    assert Space !in rest;
    AtoiOfDecimal(4);
    ValueSizeUnterminated(Decimal(4), rest);
  }

  /** The sizes written by the tests that check the size fields. */
  lemma SizeWords()
    ensures Ascii("16") == Decimal(16) && Ascii("18") == Decimal(18)
    ensures Ascii("65545") == Decimal(65545)
  {
    assert Decimal(16) == Decimal(1) + Decimal(6);
    assert Decimal(18) == Decimal(1) + Decimal(8);
    assert Decimal(65545) == Decimal(6554) + Decimal(5);
    assert Decimal(6554) == Decimal(655) + Decimal(4);
    assert Decimal(655) == Decimal(65) + Decimal(5);
    assert Decimal(65) == Decimal(6) + Decimal(5);
  }

  /** `SET 4 16 name {"name":"cedric"}`: the declared value size wins and
      the value loses its last byte. */
  lemma ShortValueSizeCase()
    ensures Decode(Field(Ascii("SET"), Field(Ascii("4"), Field(Ascii("16"), Field(Key, Json))))) ==
            Ok(Request(SET, Key, Json[..16]))
  {
    Words();
    SizeWords();
    DeclaredValueSizeWins(Key, 16, Json);
  }

  /** `SET 4 18 name {"name":"cedric"}`: the value size exceeds the bytes
      left, so the value read panics. */
  lemma LongValueSizeCase()
    ensures Decode(Field(Ascii("SET"), Field(Ascii("4"), Field(Ascii("18"), Field(Key, Json))))) ==
            Err(SliceOutOfRange)
  {
    Words();
    SizeWords();
    DeclaredValueSizeWins(Key, 18, Json);
  }

  /** `GET 65545 name`: the token has 5 characters, well inside the limit,
      so the key size is parsed and the key read panics. */
  lemma KeySizeLimitCase()
    ensures Decode(Field(Ascii("GET"), Field(Ascii("65545"), Key))) == Err(SliceOutOfRange)
  {
    Words();
    SizeWords();
    DeclaredKeySizeWins(GET, 65545, Key);
  }
}
