# memrydb core, modelled in Dafny

memrydb is a small in-memory key-value store written in Go. Clients send
text requests over TCP:

- `GET <ksize> <key>` and `DEL <ksize> <key>` read or delete a key;
- `SET <ksize> <vsize> <key> <value>` stores a value under a key.

The server decodes each request and applies it to a sharded map. Every key
is routed to one shard by a 32-bit FNV-1a hash.

This project models the three parts of that core and proves properties of them.

- **Hasher** (`hasher.dfy`). `Hash32` is a loop over the key's bytes on a
  32-bit accumulator. Dafny's `bv32` arithmetic wraps modulo 2^32, exactly
  like Go's `uint32`. The method is proved equal to the specification
  function `HashOf`. `HashOf` is in turn proved to be the left fold of the
  FNV-1a round, and it matches the published FNV-1a test vectors for the
  empty key, `a` and `foobar`.
- **Sharded map** (`storage.dfy`). `SharedMap` is a class over a fixed
  array of shards, and each shard holds a map from key to value.
  - The constructor, `Get`, `Set` and `Remove` are proved against pure
    functions on the sequence of shards (`Lookup`, `Store`, `Delete`).
  - They are also proved against the single map the shards stand for,
    `Contents()`, which is the union of the shards.
  - The routing invariant is that every key sits in the shard its hash
    selects. Under it, the sharded map behaves exactly like one dictionary.
- **Request decoder** (`protocol.dfy`, `strconv.dfy`, `bytes.dfy`).
  - `Decoder` is a class holding the unconsumed stream. Its methods
    `ExtractSpaceBlock` and `ExtractBytes` cut a space-terminated token, or a
    given number of bytes, off the front of the stream.
  - `DecryptQuery` runs the checks in the source's order on a `Decoder`. It
    is proved equal to the pure function `Decode`.
  - Each place where the Go code gives up is its own `DecodeError`, paired
    with the message text the Go code returns.
  - `Atoi` models Go's `strconv.Atoi` on a 64-bit platform.
- **Decoder properties** (`decoder_properties.dfy`, `decoder_cases.dfy`).
  These state what `Decode` does to each shape of input:
  - the order of the checks;
  - the round trip from a request, as a client writes it, back to the same
    request;
  - what happens when a declared size disagrees with the bytes that follow;
  - which error returns can never happen;
  - the outcome of every request in the decoder's test file except the
    value-size-limit request, which only the general lemmas cover.

### Where the decoder differs from what its tests expect

The model follows the code, so several results differ from what the
tests in `internal/protocol/protocol_test.go` expect.

- **Declared sizes are never compared with the bytes present.**
  - A GET or DEL takes exactly `ksize` bytes as its key. `GET 3 name` yields
    the key `nam` (`DeclaredKeySizeWins`).
  - A SET takes `vsize` bytes as its value. `SET 4 16 name {"name":"cedric"}`
    yields the value without its last byte (`DeclaredValueSizeWins`).
  - Bytes after the declared sizes are ignored (`DecodeEncodeWithTrailing`).
- **The size limits count the characters of the size token**, not its
  numeric value.
  - `GET 65545 name` passes the 65535 limit, because the token has five
    characters. It then panics at the key read (`KeySizeLimitCase`).
  - The same holds for the value-size limit of 4294967295.
- **A key size that is not a number stops the process.** The code calls
  `log.Fatal`, so the error return that follows it is never reached. The
  model gives this outcome as `Abort`.
- **The second command check can never fail.** The SET branch checks the
  command again, but it was already accepted at the start.
- **A missing delimiter and an unknown command give the same message**,
  `Invalid request`. The model keeps them apart as `MissingDelimiter` and
  `InvalidCommand`, because they are different return sites.
- **`Atoi` accepts a leading `+` or `-`.** A size such as `+4` is therefore
  read as 4. A negative size makes Go panic, which the model gives as
  `SliceOutOfRange`.

## Model

| member | source | states |
|---|---|---|
| Bytes.IndexByte | internal/protocol/protocol.go:98 | the index of the first occurrence of the byte, and -1 exactly when the byte does not occur |
| Strconv.Atoi | internal/protocol/protocol.go:49 | a parsed size lies in the int64 range and starts with a digit or a sign; a token starting with a digit never parses to a negative number |
| Strconv.Decimal | internal/protocol/protocol_test.go:19 | the client's `%d` rendering is a non-empty run of digits, with no space |
| Strconv.DigitsValueOfDecimal | internal/protocol/protocol_test.go:19 | the digits of a rendered size read back as that size |
| Strconv.AtoiOfDecimal | internal/protocol/protocol.go:49 | parsing a rendered size gives the size back, for every size a Go `int` holds |
| Strconv.DecimalLengthBound | internal/protocol/protocol.go:46 | a number below 10^k renders in at most k digits |
| Strconv.DecimalOfIntIsShort | internal/protocol/protocol.go:46 | every rendered Go `int` size has at most 19 characters, well inside both size limits |
| Hasher.Hash32 | internal/utils/hasher.go:8-19 | the loop computes `HashOf(key)`, and the empty key hashes to the offset basis 2166136261 |
| Hasher.Step | internal/utils/hasher.go:13-14 | one FNV-1a round, xor the byte in and multiply by the prime with 32-bit wrap-around; `HashOfAppend` and `FoldBytesAppend` state that each byte of the key applies exactly one such round |
| Hasher.HashOf | internal/utils/hasher.go:8-19 | the hash as a specification, one round per byte from the offset basis; `Hash32` is proved equal to it, `HashIsLeftFold` proves it is the left fold in key order, and the vector lemmas fix its values |
| Hasher.HashOfAppend | internal/utils/hasher.go:12-15 | one more byte applies one more xor-then-multiply round |
| Hasher.FoldBytesAppend | internal/utils/hasher.go:12-15 | folding over a key plus one byte is the fold followed by one more round |
| Hasher.HashIsLeftFold | internal/utils/hasher.go:8-19 | the hash is the left fold of the rounds from the offset basis, in key order |
| Hasher.ShortVectors | internal/utils/hasher.go:3-6 | the FNV-1a 32-bit test vectors: the empty key gives 0x811c9dc5 and `a` gives 0xe40c292c |
| Hasher.FooPrefix | internal/utils/hasher.go:8-19 | `foo` hashes to 0xa9f37ed7 |
| Hasher.FoobarVector | internal/utils/hasher.go:8-19 | `foobar` hashes to 0xbf9cf968, the published FNV-1a 32-bit vector |
| Storage.ShardIndex | internal/storage/hash_map.go:52-56 | the routed shard index is always a valid index |
| Storage.EmptyShards | internal/storage/hash_map.go:23-27 | the fresh shards are exactly `count` in number |
| Storage.Lookup | internal/storage/hash_map.go:31-36 | what `Get` returns, the entry of the key in the shard it routes to; `LookupIsUnion`, `LookupAfterStore` and `LookupAfterDelete` state what it means |
| Storage.Store | internal/storage/hash_map.go:38-43 | `Set` keeps the number of shards, and keeps every key in the shard it routes to |
| Storage.Delete | internal/storage/hash_map.go:45-50 | `Remove` keeps the number of shards, and keeps every key in the shard it routes to |
| Storage.UnionHolds | internal/storage/hash_map.go:31-36 | a key held by exactly one shard is in the combined map with that shard's value |
| Storage.UnionLacks | internal/storage/hash_map.go:31-36 | a key held by no shard is absent from the combined map |
| Storage.LookupIsUnion | internal/storage/hash_map.go:31-36 | on routed shards, reading the key's own shard is reading the combined map |
| Storage.StoreRefines | internal/storage/hash_map.go:38-43 | `Set` changes the combined map at the key, to the value, and nowhere else |
| Storage.DeleteRefines | internal/storage/hash_map.go:45-50 | `Remove` takes the key out of the combined map and changes nothing else |
| Storage.EmptyShardsAreEmpty | internal/storage/hash_map.go:18-29 | fresh shards are routed and hold no entry |
| Storage.LookupAfterStore | internal/storage/hash_map.go:31-43 | after `Set(k, v)`, `Get(k)` gives `v` and every other key reads as before |
| Storage.LookupAfterDelete | internal/storage/hash_map.go:31-50 | after `Remove(k)`, `Get(k)` gives nothing and every other key reads as before |
| Storage.DeleteAbsent | internal/storage/hash_map.go:45-50 | removing an absent key leaves every shard unchanged |
| Storage.SharedMap.constructor | internal/storage/hash_map.go:18-29 | `size` empty shards, or 32 when `size` is 0; the map is empty and routed |
| Storage.SharedMap.GetShard | internal/storage/hash_map.go:52-56 | the index is the key's hash modulo the shard count |
| Storage.SharedMap.Get | internal/storage/hash_map.go:31-36 | the value stored under the key in its shard, which is the combined map's entry, or nothing |
| Storage.SharedMap.Set | internal/storage/hash_map.go:38-43 | only the key's shard changes; the combined map becomes `old[key := value]`; routing is preserved |
| Storage.SharedMap.Remove | internal/storage/hash_map.go:45-50 | only the key's shard changes; the combined map loses the key; an absent key changes nothing |
| Storage.StoreThenRetrieve | internal/storage/hash_map_test.go:13-21 | a value stored under a key is read back unchanged |
| Storage.RetrieveMissing | internal/storage/hash_map_test.go:23-29 | a key never stored reads as absent |
| Storage.StoreRemoveThenRetrieve | internal/storage/hash_map_test.go:31-42 | a removed key reads as absent |
| Protocol.Name | internal/protocol/protocol.go:13-17 | each command word is three bytes with no space |
| Protocol.Message | internal/protocol/protocol.go:29-117 | `Invalid request` is the text of exactly the unknown command and the missing delimiter; only the process exit and the out-of-range read have no text |
| Protocol.IsKnownCommand | internal/protocol/protocol.go:88-95 | Go's `isCmdInvalid`, which despite its name holds of exactly the three command words; an accepted word is three bytes with no space, and `CommandOfName` proves each command word is accepted |
| Protocol.CommandOf | internal/protocol/protocol.go:54-57 | the request type a known command word names is the one whose word it is |
| Protocol.CommandOfName | internal/protocol/protocol.go:88-95 | every command word is accepted and names its own type |
| Protocol.SpaceBlock | internal/protocol/protocol.go:97-106 | succeeds exactly when the stream holds a space; the head has no space and head, space and tail make up the stream; otherwise the error is a missing delimiter |
| Protocol.TakeBytes | internal/protocol/protocol.go:108-117 | succeeds exactly when `0 <= size <= len`; the head is the first `size` bytes; one space after them is dropped exactly when there is one |
| Protocol.Decode | internal/protocol/protocol.go:29-86 | the empty request error is returned exactly for the empty buffer; GET and DEL carry an empty value; the dead error returns never occur |
| Protocol.DecodeSizes | internal/protocol/protocol.go:42-61 | the decoded type is the command's; only the listed errors can follow a known command |
| Protocol.DecodeSet | internal/protocol/protocol.go:62-85 | the key has exactly the declared key size; only the listed errors can occur |
| Protocol.Decoder.constructor | internal/protocol/protocol.go:30 | the decoder starts on the whole request |
| Protocol.Decoder.ExtractSpaceBlock | internal/protocol/protocol.go:97-106 | returns the token and advances the stream past the space, as `SpaceBlock`; on error the stream is unchanged |
| Protocol.Decoder.ExtractBytes | internal/protocol/protocol.go:108-117 | returns `size` bytes and advances the stream, as `TakeBytes`; on error the stream is unchanged |
| Protocol.DecryptQuery | internal/protocol/protocol.go:29-86 | the step-by-step decoder returns exactly `Decode(stream)` |
| DecoderProperties.SpaceBlockOfField | internal/protocol/protocol.go:97-106 | a token without spaces is cut off exactly, up to the space after it |
| DecoderProperties.EmptyRequestOnlyForEmptyBuffer | internal/protocol/protocol.go:31-33 | only the empty buffer is reported as an empty request |
| DecoderProperties.NoSpaceIsMissingDelimiter | internal/protocol/protocol.go:34-37 | a non-empty buffer without a space fails with `Invalid request` |
| DecoderProperties.UnknownCommandRejected | internal/protocol/protocol.go:38-41 | an unknown first word fails, whatever follows it |
| DecoderProperties.InvalidCommandExactly | internal/protocol/protocol.go:29-41 | the invalid-command error occurs exactly when the first token exists and is not GET, SET or DEL |
| DecoderProperties.KnownCommandStage | internal/protocol/protocol.go:34-42 | after a known command word, decoding continues with the key size on the rest |
| DecoderProperties.KeySizeUnterminated | internal/protocol/protocol.go:42-45 | no space after the key size fails with `Invalid request` |
| DecoderProperties.KeySizeLimitBeforeParse | internal/protocol/protocol.go:46-48 | a key-size token longer than 65535 characters fails, numeric or not |
| DecoderProperties.KeySizeNotNumberAborts | internal/protocol/protocol.go:49-53 | a key size that is not a number stops the process, for every command |
| DecoderProperties.GetOrDelDecodes | internal/protocol/protocol.go:54-61 | GET and DEL take exactly the declared number of bytes as the key, or fail when they are not there |
| DecoderProperties.SetKeySizeStage | internal/protocol/protocol.go:42-62 | after SET and a valid key size, decoding continues with the value size |
| DecoderProperties.SetPrefix | internal/protocol/protocol.go:29-62 | a SET request with a valid key size is decoded by the SET stage |
| DecoderProperties.ValueSizeUnterminated | internal/protocol/protocol.go:62-65 | no space after the value size fails with `Invalid request` |
| DecoderProperties.ValueSizeLimitBeforeParse | internal/protocol/protocol.go:66-68 | a value-size token longer than 4294967295 characters fails, numeric or not |
| DecoderProperties.ValueSizeNotNumberFails | internal/protocol/protocol.go:69-72 | a value size that is not a number is an ordinary error |
| DecoderProperties.SetDecodes | internal/protocol/protocol.go:74-85 | SET takes the declared key bytes, drops one space, then takes the declared value bytes, or fails when they are not there |
| DecoderProperties.FieldAppend | internal/protocol/protocol_test.go:19 | bytes appended after a field extend that field's rest |
| DecoderProperties.DecodeEncodeSet | internal/protocol/protocol.go:62-85 | a SET written as a client writes it, plus any trailing bytes, decodes to itself |
| DecoderProperties.DecodeEncodeGetOrDel | internal/protocol/protocol.go:42-61 | a GET or DEL written as a client writes it, plus any trailing bytes, decodes to itself |
| DecoderProperties.DecodeEncodeWithTrailing | internal/protocol/protocol.go:29-86 | decoding a request as a client writes it, followed by any bytes, gives the request back |
| DecoderProperties.DecodeEncode | internal/protocol/protocol.go:29-86 | round trip: decoding what a client writes gives the request back |
| DecoderProperties.DeclaredKeySizeWins | internal/protocol/protocol.go:54-61 | a GET or DEL yields the key cut to the declared size, and fails when the size exceeds the key |
| DecoderProperties.DeclaredValueSizeWins | internal/protocol/protocol.go:74-85 | a SET yields the value cut to the declared size, and fails when the size exceeds the value |
| DecoderCases.Words | internal/protocol/protocol_test.go:11-68 | the command words and sizes of the test requests are the ones a client renders |
| DecoderCases.GetRequestCase | internal/protocol/protocol_test.go:32-49 | `GET 4 name` decodes to a GET of `name` with an empty value |
| DecoderCases.DelRequestCase | internal/protocol/protocol_test.go:51-68 | `DEL 4 name` decodes to a DEL of `name` with an empty value |
| DecoderCases.SetRequestCase | internal/protocol/protocol_test.go:11-30 | `SET 4 17 name {"name":"cedric"}` decodes to that key and value |
| DecoderCases.ShortKeySizeCase | internal/protocol/protocol_test.go:70-85 | `GET 3 name` decodes to the key `nam`, not to an error |
| DecoderCases.KeyPrefix | internal/protocol/protocol_test.go:70-85 | the first three bytes of `name` are `nam` |
| DecoderCases.UnknownCommandCase | internal/protocol/protocol_test.go:106-120 | `UNHANDLED_COMMAND 4 name` fails as an invalid command |
| DecoderCases.NonNumericKeySizeCase | internal/protocol/protocol_test.go:156-172 | `SET z 17 name ...` stops the process |
| DecoderCases.NonNumericValueSizeCase | internal/protocol/protocol_test.go:174-190 | `SET 4 z name ...` fails because the value size is not a number |
| DecoderCases.MissingSpaceCase | internal/protocol/protocol_test.go:210-226 | `SET 4 17name{...}` fails with `Invalid request` |
| DecoderCases.SizeWords | internal/protocol/protocol_test.go:87-136 | the sizes 16, 18 and 65545 of the size tests render as written |
| DecoderCases.ShortValueSizeCase | internal/protocol/protocol_test.go:87-104 | `SET 4 16 name {"name":"cedric"}` decodes, with the value cut by one byte |
| DecoderCases.LongValueSizeCase | internal/protocol/protocol_test.go:192-208 | `SET 4 18 name {"name":"cedric"}` panics at the value read (`SliceOutOfRange`) |
| DecoderCases.KeySizeLimitCase | internal/protocol/protocol_test.go:122-136 | `GET 65545 name` passes the size limit and then panics at the key read (`SliceOutOfRange`) |

## Left out

- The shards' `sync.RWMutex` locks and concurrent access. Each `Get`, `Set` and `Remove` is one atomic step, so no interleaving is modelled.
- The `Engine` interface in `internal/storage/engine.go`. It only names the three map operations, which are modelled on the class directly.
- The TCP server, the dispatch of decoded requests to the map, and the configuration. These are I/O and wiring around the core: `internal/server/server.go` and `internal/config/config.go` are not part of this model.
- Protocol.DecryptQuery: `log.Fatal` on a key size that is not a number ends the process. It is modelled only as the outcome `Abort`, without the exit or the log line.
- Protocol.TakeBytes: Go panics when a size is negative (`make` at internal/protocol/protocol.go:109) or exceeds the bytes left (the slice bounds at lines 110-111). The panic is not recovered by the connection handler in internal/server/server.go, so it ends the process. The model gives both as the outcome `SliceOutOfRange`, without the process exit.
- Storage.SharedMap.Get: values are immutable byte sequences, so the model has no Go `nil`. Go's `Get` returns `nil` both for an absent key and for a key stored with a `nil` value, and the model, which answers `None` only for an absent key, cannot show that overlap. Go also returns the stored slice itself, so a later write through it changes the stored value; the model's values are copies.
- Storage.SharedMap.Set: Go stores the caller's slice by reference (internal/storage/hash_map.go:42), so a later write through that slice changes the stored value. The model stores a copy, so that aliasing is not captured. The decoder always hands the map freshly made, non-nil slices.
- Strconv.Atoi: Go's two kinds of failure, a syntax error and a value out of range, are not told apart. Both are `None`, because the decoder only checks whether an error occurred.
- Hasher.Hash32: the wrap-around is stated through `bv32` arithmetic. No lemma relates it to integer arithmetic modulo 2^32.
- The value-size limit test request `SET 4 4294967296 name ...` is covered only by the general lemma `DecoderProperties.DeclaredValueSizeWins`, not by a concrete case.
- The benchmark in `internal/utils/hasher_benchmark_test.go` measures speed only and states no property.
