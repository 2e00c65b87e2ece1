/** The request decoder. A request is a byte buffer
      `GET <ksize> <key>`, `DEL <ksize> <key>` or
      `SET <ksize> <vsize> <key> <value>`;
    the decoder repeatedly cuts a space-terminated token, or a given number
    of bytes, off the front of the remaining stream, and stops at the first
    failed check.

    The pure functions `SpaceBlock`, `TakeBytes` and `Decode` say what the
    decoder computes; the class `Decoder` and the method `DecryptQuery` do it
    step by step on a mutable stream, and are proved to agree with them. */
module Protocol {
  import opened Bytes
  import opened Strconv

  /** The limits on the size fields: a key size is 2 bytes wide, a value
      size 4 bytes wide. */
  const MaxUint16: nat := 0xFFFF
  const MaxUint32: nat := 0xFFFF_FFFF

  datatype RequestType = GET | SET | DEL

  /** The command word of each request type: the ASCII bytes of `GET`,
      `SET` and `DEL`. */
  function Name(m: RequestType): (r: seq<byte>)
    ensures |r| == 3 && Space !in r
  {
    match m
    case GET => [71, 69, 84]
    case SET => [83, 69, 84]
    case DEL => [68, 69, 76]
  }

  datatype Request = Request(kind: RequestType, key: seq<byte>, value: seq<byte>)

  /** One outcome per place the decoder gives up. */
  datatype DecodeError =
    | EmptyRequest         // the buffer is empty
    | InvalidCommand       // the first token is not GET, SET or DEL
    | KeySizeTooLong       // the key-size token has more than 65535 characters
    | Abort                // the key size is not a number: the process exits
    | KeySizeNotANumber    // returned after the exit above, so never reached
    | ValueSizeTooLong     // the value-size token has more than 4294967295 characters
    | ValueSizeNotANumber  // the value size is not a number
    | UnknownCommand       // the second command check, never reached
    | MissingDelimiter     // no space left to end the next token
    | SliceOutOfRange      // a size is negative or exceeds the bytes left: Go panics

  /** The text written back to the client for each error; `None` where no
      error text exists: the process has exited (`log.Fatal`), or Go has
      panicked on a size that is negative or exceeds the bytes left. */
  function Message(e: DecodeError): (m: Option<string>)
    ensures m == Some("Invalid request") <==> e == InvalidCommand || e == MissingDelimiter
    ensures m == None <==> e == Abort || e == SliceOutOfRange
  {
    match e
    case EmptyRequest => Some("empty request")
    case InvalidCommand => Some("Invalid request")
    case KeySizeTooLong => Some("Key size should not exceed (2 Bytes)")
    case Abort => None
    case KeySizeNotANumber => Some("Key size is not a number")
    case ValueSizeTooLong => Some("Value size should not exceed (4 Bytes)")
    case ValueSizeNotANumber => Some("Value size is not a number")
    case UnknownCommand => Some("Invalid command - not in (GET, SET, DEL)")
    case MissingDelimiter => Some("Invalid request")
    case SliceOutOfRange => None
  }

  /** A decoding outcome: a value, or the error that stopped the decoder. */
  datatype Result<T> = Ok(value: T) | Err(error: DecodeError) {
    predicate IsFailure() {
      Err?
    }

    function PropagateFailure<U>(): Result<U>
      requires Err?
    {
      Err(error)
    }

    function Extract(): T
      requires Ok?
    {
      value
    }
  }

  /** A stream cut in two: the part taken off and what is left. */
  datatype Split = Split(head: seq<byte>, tail: seq<byte>)

  /** Go's `isCmdInvalid`, which despite its name holds of the VALID
      command words. */
  predicate IsKnownCommand(token: seq<byte>)
    ensures IsKnownCommand(token) ==> |token| == 3 && Space !in token
  {
    token == Name(GET) || token == Name(SET) || token == Name(DEL)
  }

  /** The request type a command word names. */
  function CommandOf(token: seq<byte>): (m: RequestType)
    requires IsKnownCommand(token)
    ensures Name(m) == token
  {
    if token == Name(GET) then GET else if token == Name(SET) then SET else DEL
  }

  /** The three command words are distinct, so each names its own type. */
  lemma CommandOfName(m: RequestType)
    ensures IsKnownCommand(Name(m)) && CommandOf(Name(m)) == m
  {
    assert Name(GET)[0] != Name(SET)[0] && Name(GET)[0] != Name(DEL)[0];
    assert Name(SET)[0] != Name(DEL)[0];
  }

  /** `extractSpaceBlock` on stream `s`: the bytes before the first space,
      and the stream after that space. */
  function SpaceBlock(s: seq<byte>): (r: Result<Split>)
    ensures r.Ok? <==> Space in s
    ensures r.Ok? ==> Space !in r.value.head && s == r.value.head + [Space] + r.value.tail
    ensures r.Err? ==> r.error == MissingDelimiter
  {
    var spaceIdx := IndexByte(s, Space);
    if spaceIdx == -1 then Err(MissingDelimiter)
    else
      assert s == s[..spaceIdx] + [Space] + s[spaceIdx + 1..];
      Ok(Split(s[..spaceIdx], s[spaceIdx + 1..]))
  }

  /** `extractBytes(size)` on stream `s`: the first `size` bytes, and the
      rest with one leading space dropped if there is one. A negative size
      or one beyond the end of `s` makes Go panic; it is refused here. */
  function TakeBytes(s: seq<byte>, size: int): (r: Result<Split>)
    ensures r.Ok? <==> 0 <= size <= |s|
    ensures r.Err? ==> r.error == SliceOutOfRange
    ensures r.Ok? ==> r.value.head == s[..size] && |r.value.head| == size
    ensures r.Ok? ==> s[size..] == r.value.tail || s[size..] == [Space] + r.value.tail
    ensures r.Ok? ==> (s[size..] == r.value.tail <==> size == |s| || s[size] != Space)
  {
    if size < 0 || size > |s| then Err(SliceOutOfRange)
    else
      var rest := s[size..];
      var spaceIdx := IndexByte(rest, Space);
      if spaceIdx == 0 then
        assert rest == [Space] + rest[1..];
        Ok(Split(s[..size], rest[1..]))
      else Ok(Split(s[..size], rest))
  }

  /** `DecryptQuery`: the checks in the order the code runs them. The
      empty buffer is refused first, then the command word. */
  function Decode(s: seq<byte>): (r: Result<Request>)
    ensures r == Err(EmptyRequest) <==> s == []
    ensures r.Ok? && r.value.kind != SET ==> r.value.value == []
    ensures r.Err? ==> r.error != KeySizeNotANumber && r.error != UnknownCommand
  {
    if |s| == 0 then Err(EmptyRequest)
    else
      var cmd :- SpaceBlock(s);
      if !IsKnownCommand(cmd.head) then Err(InvalidCommand)
      else DecodeSizes(cmd.head, cmd.tail)
  }

  /** The rest of `DecryptQuery` after a known command word `cmd`: the key
      size, then the key for GET and DEL, or the value size for SET. */
  function DecodeSizes(cmd: seq<byte>, s: seq<byte>): (r: Result<Request>)
    requires IsKnownCommand(cmd)
    ensures r.Ok? ==> r.value.kind == CommandOf(cmd)
    ensures r.Ok? && r.value.kind != SET ==> r.value.value == []
    ensures r.Err? ==> r.error in {MissingDelimiter, KeySizeTooLong, Abort, SliceOutOfRange,
                                   ValueSizeTooLong, ValueSizeNotANumber}
  {
    var kSize :- SpaceBlock(s);
    if |kSize.head| > MaxUint16 then Err(KeySizeTooLong)
    else match Atoi(kSize.head)
      case None => Err(Abort)
      case Some(kSizeVal) =>
        var m := CommandOf(cmd);
        if m == GET || m == DEL then
          var key :- TakeBytes(kSize.tail, kSizeVal);
          Ok(Request(m, key.head, []))
        else DecodeSet(cmd, kSizeVal, kSize.tail)
  }

  /** The end of `DecryptQuery` for SET, once the key size `kSizeVal` is
      known: the value size, the key, the value, and the second command
      check. */
  function DecodeSet(cmd: seq<byte>, kSizeVal: int, s: seq<byte>): (r: Result<Request>)
    requires IsKnownCommand(cmd)
    ensures r.Ok? ==> r.value.kind == CommandOf(cmd) && |r.value.key| == kSizeVal
    ensures r.Err? ==> r.error in {MissingDelimiter, ValueSizeTooLong, ValueSizeNotANumber, SliceOutOfRange}
  {
    var vSize :- SpaceBlock(s);
    if |vSize.head| > MaxUint32 then Err(ValueSizeTooLong)
    else match Atoi(vSize.head)
      case None => Err(ValueSizeNotANumber)
      case Some(vSizeVal) =>
        var key :- TakeBytes(vSize.tail, kSizeVal);
        var value :- TakeBytes(key.tail, vSizeVal);
        if !IsKnownCommand(cmd) then Err(UnknownCommand)
        else Ok(Request(CommandOf(cmd), key.head, value.head))
  }

  /** Go's `decoder`: the part of the request not consumed yet. */
  class Decoder {
    var stream: seq<byte>

    constructor (stream: seq<byte>)
      ensures this.stream == stream
    {
      this.stream := stream;
    }

    /** `extractSpaceBlock`: cut the next space-terminated token off the
        stream; on failure the stream is left as it was. */
    method ExtractSpaceBlock() returns (r: Result<seq<byte>>)
      modifies this
      ensures SpaceBlock(old(stream)).Ok? ==>
                r == Ok(SpaceBlock(old(stream)).value.head) && stream == SpaceBlock(old(stream)).value.tail
      ensures SpaceBlock(old(stream)).Err? ==> r == Err(MissingDelimiter) && stream == old(stream)
    {
      var spaceIdx := IndexByte(stream, Space);
      if spaceIdx == -1 {
        return Err(MissingDelimiter);
      }
      var cmd := stream[..spaceIdx];
      stream := stream[spaceIdx + 1..];
      return Ok(cmd);
    }

    /** `extractBytes(size)`: cut `size` bytes off the stream, then one
        space if the stream now starts with one. */
    method ExtractBytes(size: int) returns (r: Result<seq<byte>>)
      modifies this
      ensures TakeBytes(old(stream), size).Ok? ==>
                r == Ok(TakeBytes(old(stream), size).value.head) && stream == TakeBytes(old(stream), size).value.tail
      ensures TakeBytes(old(stream), size).Err? ==> r == Err(SliceOutOfRange) && stream == old(stream)
    {
      if size < 0 || size > |stream| {
        return Err(SliceOutOfRange);
      }
      var part := stream[..size];
      stream := stream[size..];
      var spaceIdx := IndexByte(stream, Space);
      if spaceIdx == 0 {
        stream := stream[1..];
      }
      return Ok(part);
    }
  }

  /** `DecryptQuery`, step by step on a decoder. */
  method DecryptQuery(stream: seq<byte>) returns (r: Result<Request>)
    ensures r == Decode(stream)
  {
    var dec := new Decoder(stream);
    if |stream| == 0 {
      return Err(EmptyRequest);
    }
    var cmd :- dec.ExtractSpaceBlock();
    if !IsKnownCommand(cmd) {
      return Err(InvalidCommand);
    }
    var kSize :- dec.ExtractSpaceBlock();
    if |kSize| > MaxUint16 {
      return Err(KeySizeTooLong);
    }
    var kSizeVal := Atoi(kSize);
    if kSizeVal.None? {
      return Err(Abort);
    }
    var m := CommandOf(cmd);
    if m == GET || m == DEL {
      var key :- dec.ExtractBytes(kSizeVal.value);
      return Ok(Request(m, key, []));
    }
    var vSize :- dec.ExtractSpaceBlock();
    if |vSize| > MaxUint32 {
      return Err(ValueSizeTooLong);
    }
    var vSizeVal := Atoi(vSize);
    if vSizeVal.None? {
      return Err(ValueSizeNotANumber);
    }
    var key :- dec.ExtractBytes(kSizeVal.value);
    var value :- dec.ExtractBytes(vSizeVal.value);
    if !IsKnownCommand(cmd) {
      return Err(UnknownCommand);
    }
    return Ok(Request(m, key, value));
  }
}
