/** What the request decoder guarantees: the order of its checks, what it
    makes of well-formed requests (including bytes past the declared sizes),
    which of its error returns can never happen, and the request examples
    of its test file. */
module DecoderProperties {
  import opened Bytes
  import opened Strconv
  import opened Protocol

  /** A token followed by the space that ends it, then the rest. */
  function Field(token: seq<byte>, rest: seq<byte>): seq<byte> {
    token + [Space] + rest
  }

  /** A request as a client writes it (`"%s %d %s"` for GET and DEL,
      `"%s %d %d %s %s"` for SET). */
  function Encode(r: Request): seq<byte> {
    if r.kind == SET then
      Field(Name(SET), Field(Decimal(|r.key|), Field(Decimal(|r.value|), Field(r.key, r.value))))
    else
      Field(Name(r.kind), Field(Decimal(|r.key|), r.key))
  }

  /** A request a client can send: GET and DEL carry no value, and both
      sizes fit in a Go `int`. */
  predicate Encodable(r: Request) {
    (r.kind != SET ==> r.value == []) && |r.key| <= MaxInt64 && |r.value| <= MaxInt64
  }

  /** A token without spaces is cut off exactly, up to the space after it. */
  lemma SpaceBlockOfField(token: seq<byte>, rest: seq<byte>)
    requires Space !in token
    ensures SpaceBlock(Field(token, rest)) == Ok(Split(token, rest))
  {
    var s := Field(token, rest);
    assert s[|token|] == Space;
    assert s[..|token|] == token;
    assert IndexByte(s, Space) == |token|;
    assert s[|token| + 1..] == rest;
  }

  /** Nothing but the empty buffer is reported as an empty request. */
  lemma EmptyRequestOnlyForEmptyBuffer(s: seq<byte>)
    ensures Decode(s) == Err(EmptyRequest) <==> s == []
  {
  }

  /** A buffer without any space fails with "Invalid request". */
  lemma NoSpaceIsMissingDelimiter(s: seq<byte>)
    requires s != [] && Space !in s
    ensures Decode(s) == Err(MissingDelimiter)
  {
  }

  /** The command is checked right after the first cut: an unknown command
      fails whatever follows it. */
  lemma UnknownCommandRejected(token: seq<byte>, rest: seq<byte>)
    requires Space !in token && !IsKnownCommand(token)
    ensures Decode(Field(token, rest)) == Err(InvalidCommand)
  {
    SpaceBlockOfField(token, rest);
  }

  /** The command is the only thing the decoder reports as InvalidCommand. */
  lemma InvalidCommandExactly(s: seq<byte>)
    ensures Decode(s) == Err(InvalidCommand) <==>
              s != [] && SpaceBlock(s).Ok? && !IsKnownCommand(SpaceBlock(s).value.head)
  {
  }

  /** After a known command word, the rest of the buffer goes to the
      key-size stage. */
  lemma KnownCommandStage(m: RequestType, rest: seq<byte>)
    ensures Decode(Field(Name(m), rest)) == DecodeSizes(Name(m), rest)
  {
    CommandOfName(m);
    SpaceBlockOfField(Name(m), rest);
  }

  /** A known command with no space after the key size fails with
      "Invalid request". */
  lemma KeySizeUnterminated(m: RequestType, rest: seq<byte>)
    requires Space !in rest
    ensures Decode(Field(Name(m), rest)) == Err(MissingDelimiter)
  {
    KnownCommandStage(m, rest);
  }

  /** The key-size limit counts the characters of the token, before any
      parse: a token longer than 65535 characters fails, numeric or not. */
  lemma KeySizeLimitBeforeParse(m: RequestType, token: seq<byte>, rest: seq<byte>)
    requires Space !in token && |token| > MaxUint16
    ensures Decode(Field(Name(m), Field(token, rest))) == Err(KeySizeTooLong)
  {
    KnownCommandStage(m, Field(token, rest));
    SpaceBlockOfField(token, rest);
  }

  /** A key size that is not a number stops the process, for every command
      and whatever follows. */
  lemma KeySizeNotNumberAborts(m: RequestType, token: seq<byte>, rest: seq<byte>)
    requires Space !in token && |token| <= MaxUint16 && Atoi(token) == None
    ensures Decode(Field(Name(m), Field(token, rest))) == Err(Abort)
  {
    KnownCommandStage(m, Field(token, rest));
    SpaceBlockOfField(token, rest);
  }

  /** GET and DEL take the next `n` bytes as the key and ignore the rest; the
      declared size is never compared with the bytes that follow. */
  lemma GetOrDelDecodes(m: RequestType, token: seq<byte>, n: int, rest: seq<byte>)
    requires m != SET
    requires Space !in token && |token| <= MaxUint16 && Atoi(token) == Some(n)
    ensures Decode(Field(Name(m), Field(token, rest))) ==
              if 0 <= n <= |rest| then Ok(Request(m, rest[..n], [])) else Err(SliceOutOfRange)
  {
    KnownCommandStage(m, Field(token, rest));
    CommandOfName(m);
    SpaceBlockOfField(token, rest);
  }

  /** The key-size stage of SET hands the value-size stage the key size
      and what follows the key-size token. */
  lemma SetKeySizeStage(cmd: seq<byte>, kToken: seq<byte>, n: int, tail: seq<byte>)
    requires IsKnownCommand(cmd) && CommandOf(cmd) == SET
    requires Space !in kToken && |kToken| <= MaxUint16 && Atoi(kToken) == Some(n)
    ensures DecodeSizes(cmd, Field(kToken, tail)) == DecodeSet(cmd, n, tail)
  {
    SpaceBlockOfField(kToken, tail);
    var kSize := SpaceBlock(Field(kToken, tail)).value;
    assert kSize.head == kToken && kSize.tail == tail;
    assert Atoi(kSize.head) == Some(n);
  }

  /** Once SET and a valid key size are cut off, what is left is decoded by
      the SET stage with that key size. */
  lemma SetPrefix(kToken: seq<byte>, n: int, tail: seq<byte>)
    requires Space !in kToken && |kToken| <= MaxUint16 && Atoi(kToken) == Some(n)
    ensures Decode(Field(Name(SET), Field(kToken, tail))) == DecodeSet(Name(SET), n, tail)
  {
    KnownCommandStage(SET, Field(kToken, tail));
    CommandOfName(SET);
    SetKeySizeStage(Name(SET), kToken, n, tail);
  }

  /** SET with no space after the value size fails with "Invalid request". */
  lemma ValueSizeUnterminated(kToken: seq<byte>, rest: seq<byte>)
    requires Space !in kToken && |kToken| <= MaxUint16 && Atoi(kToken).Some?
    requires Space !in rest
    ensures Decode(Field(Name(SET), Field(kToken, rest))) == Err(MissingDelimiter)
  {
    SetPrefix(kToken, Atoi(kToken).value, rest);
  }

  /** The value-size limit also counts characters, and comes before the parse. */
  lemma ValueSizeLimitBeforeParse(kToken: seq<byte>, vToken: seq<byte>, rest: seq<byte>)
    requires Space !in kToken && |kToken| <= MaxUint16 && Atoi(kToken).Some?
    requires Space !in vToken && |vToken| > MaxUint32
    ensures Decode(Field(Name(SET), Field(kToken, Field(vToken, rest)))) == Err(ValueSizeTooLong)
  {
    SetPrefix(kToken, Atoi(kToken).value, Field(vToken, rest));
    SpaceBlockOfField(vToken, rest);
  }

  /** A value size that is not a number is an ordinary error. */
  lemma ValueSizeNotNumberFails(kToken: seq<byte>, vToken: seq<byte>, rest: seq<byte>)
    requires Space !in kToken && |kToken| <= MaxUint16 && Atoi(kToken).Some?
    requires Space !in vToken && |vToken| <= MaxUint32 && Atoi(vToken) == None
    ensures Decode(Field(Name(SET), Field(kToken, Field(vToken, rest)))) == Err(ValueSizeNotANumber)
  {
    SetPrefix(kToken, Atoi(kToken).value, Field(vToken, rest));
    SpaceBlockOfField(vToken, rest);
  }

  /** SET takes `kn` bytes as the key, drops one space if present, takes `vn`
      bytes as the value and ignores the rest; neither size is compared with
      the bytes that follow. */
  lemma SetDecodes(kToken: seq<byte>, kn: int, vToken: seq<byte>, vn: int, rest: seq<byte>)
    requires Space !in kToken && |kToken| <= MaxUint16 && Atoi(kToken) == Some(kn)
    requires Space !in vToken && |vToken| <= MaxUint32 && Atoi(vToken) == Some(vn)
    ensures var s := Field(Name(SET), Field(kToken, Field(vToken, rest)));
            if !(0 <= kn <= |rest|) then Decode(s) == Err(SliceOutOfRange)
            else
              var after := TakeBytes(rest, kn).value.tail;
              Decode(s) == if 0 <= vn <= |after| then Ok(Request(SET, rest[..kn], after[..vn]))
                           else Err(SliceOutOfRange)
  {
    SetPrefix(kToken, kn, Field(vToken, rest));
    SpaceBlockOfField(vToken, rest);
    if 0 <= kn <= |rest| {
      var after := TakeBytes(rest, kn).value.tail;
      if 0 <= vn <= |after| {
        assert TakeBytes(after, vn).value.head == after[..vn];
        assert DecodeSet(Name(SET), kn, Field(vToken, rest)) == Ok(Request(SET, rest[..kn], after[..vn]));
      }
    }
  }

  /** Bytes appended after a field belong to the rest of that field. */
  lemma FieldAppend(token: seq<byte>, rest: seq<byte>, trailing: seq<byte>)
    ensures Field(token, rest) + trailing == Field(token, rest + trailing)
  {
  }

  /** The SET half of `DecodeEncodeWithTrailing`. */
  lemma DecodeEncodeSet(r: Request, trailing: seq<byte>)
    requires Encodable(r) && r.kind == SET
    ensures Decode(Encode(r) + trailing) == Ok(r)
  {
    var kToken := Decimal(|r.key|);
    var vToken := Decimal(|r.value|);
    AtoiOfDecimal(|r.key|);
    DecimalOfIntIsShort(|r.key|);
    AtoiOfDecimal(|r.value|);
    DecimalOfIntIsShort(|r.value|);
    var rest := Field(r.key, r.value + trailing);
    FieldAppend(r.key, r.value, trailing);
    FieldAppend(vToken, Field(r.key, r.value), trailing);
    FieldAppend(kToken, Field(vToken, Field(r.key, r.value)), trailing);
    FieldAppend(Name(SET), Field(kToken, Field(vToken, Field(r.key, r.value))), trailing);
    assert Encode(r) + trailing == Field(Name(SET), Field(kToken, Field(vToken, rest)));
    SetDecodes(kToken, |r.key|, vToken, |r.value|, rest);
    assert rest[..|r.key|] == r.key;
    assert rest[|r.key|..] == [Space] + (r.value + trailing);
    assert (r.value + trailing)[..|r.value|] == r.value;
  }

  /** The GET and DEL half of `DecodeEncodeWithTrailing`. */
  lemma DecodeEncodeGetOrDel(r: Request, trailing: seq<byte>)
    requires Encodable(r) && r.kind != SET
    ensures Decode(Encode(r) + trailing) == Ok(r)
  {
    var kToken := Decimal(|r.key|);
    AtoiOfDecimal(|r.key|);
    DecimalOfIntIsShort(|r.key|);
    var rest := r.key + trailing;
    FieldAppend(kToken, r.key, trailing);
    FieldAppend(Name(r.kind), Field(kToken, r.key), trailing);
    assert Encode(r) + trailing == Field(Name(r.kind), Field(kToken, rest));
    GetOrDelDecodes(r.kind, kToken, |r.key|, rest);
    assert rest[..|r.key|] == r.key;
  }

  /** Decoding a request as a client writes it, followed by any bytes at
      all, gives the request back: key and value may hold spaces, and the
      trailing bytes are ignored. */
  lemma DecodeEncodeWithTrailing(r: Request, trailing: seq<byte>)
    requires Encodable(r)
    ensures Decode(Encode(r) + trailing) == Ok(r)
  {
    if r.kind == SET {
      DecodeEncodeSet(r, trailing);
    } else {
      DecodeEncodeGetOrDel(r, trailing);
    }
  }

  /** Round trip: decoding what a client writes gives the request back. */
  lemma DecodeEncode(r: Request)
    requires Encodable(r)
    ensures Decode(Encode(r)) == Ok(r)
  {
    DecodeEncodeWithTrailing(r, []);
    assert Encode(r) + [] == Encode(r);
  }

  /** A GET or DEL whose declared size is shorter than the key that follows
      yields the truncated key; a longer one is refused. */
  lemma DeclaredKeySizeWins(m: RequestType, n: nat, key: seq<byte>)
    requires m != SET && n <= MaxInt64
    ensures Decode(Field(Name(m), Field(Decimal(n), key))) ==
              if n <= |key| then Ok(Request(m, key[..n], [])) else Err(SliceOutOfRange)
  {
    AtoiOfDecimal(n);
    DecimalOfIntIsShort(n);
    GetOrDelDecodes(m, Decimal(n), n, key);
  }

  /** A SET whose declared value size is shorter than the value that
      follows yields the truncated value; a longer one is refused. */
  lemma DeclaredValueSizeWins(key: seq<byte>, n: nat, value: seq<byte>)
    requires |key| <= MaxInt64 && n <= MaxInt64
    ensures Decode(Field(Name(SET), Field(Decimal(|key|), Field(Decimal(n), Field(key, value))))) ==
              if n <= |value| then Ok(Request(SET, key, value[..n])) else Err(SliceOutOfRange)
  {
    AtoiOfDecimal(|key|);
    DecimalOfIntIsShort(|key|);
    AtoiOfDecimal(n);
    DecimalOfIntIsShort(n);
    var rest := Field(key, value);
    SetDecodes(Decimal(|key|), |key|, Decimal(n), n, rest);
    assert rest[..|key|] == key;
    assert rest[|key|..] == [Space] + value;
    assert TakeBytes(rest, |key|).value.tail == value;
  }
}
