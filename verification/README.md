# A verified model of the messaging system

The repository is a small chat system: C++ clients and a C++ server that exchange 166-byte headers,
each possibly followed by a body, and a second implementation of the message layer and the server in
Rust. This project models its three intricate parts and proves what they are for.

**The hash** (`Words`, `Fips180`, `BitByBit`, `BlockCompression`, `LengthDigits`, `Streaming`, `Hasher`).
`Fips180` states SHA-256 as FIPS 180-4 does, on 32-bit words and whole messages. `BlockCompression`,
`LengthDigits` and `Hasher` are the streaming hasher of `picosha2.hpp`: 64-bit words masked only here
and there, a byte count in four 16-bit digits with carries, a buffer of pending bytes, arrays updated
in place. `Streaming` is the theory in between: a hasher may forget everything but a tail of less
than 64 bytes, the byte count and the digest, and pieces do not matter. `BitByBit` says what the
functions of the standard do to single bits, bytes and words, without naming them.

**The header codec and the frame stream** (`HeaderLayout`, `CppMessageLayer`, `Utf8`, `RustMessageHeader`,
`FrameStream`, `UserList`, `Wire`). The header is a record of fields in a byte array. Both
implementations are classes over such an array. The results are about any sequence of setters, about
the two builders compared byte by byte, and about reading a byte stream back into messages.

**Acknowledgement, retransmission and the shared table** (`Protocol`, `Delivery`, `SharedTable`,
`Safety`, `Endings`, `Broadcasts`, `Receipts`, `Numbers`, `Runs`, `Scenarios`, and `ServerCode`, `ClientCode`,
`Refinement`, `Progress`). `Protocol` is a
transition system: any number of connections come and go, each with a client that has a sending and
a receiving thread (which stop separately), a FIFO channel each way and a server thread; one table of users behind one
explicit read-write lock; a broadcast is a loop of single visits. Threads interleave arbitrarily. One
inductive invariant (`Runs.Invariant`) gives every statement about runs. `ServerCode` and
`ClientCode` are the same methods as sequential imperative code, proved against the same jobs and
effects; `Refinement` shows that what a thread's code does undisturbed, one turn of its loop or the
whole login procedure from the accepted to the closed socket, is a run of its own steps in the
transition system. `Progress` shows that the lock never deadlocks.

What the statements mean by a few words:

- A client *lives* until its process ends. What is said about a living client holds whatever its
  server thread is doing, also when that has stopped reading, and after the server has closed the
  socket. Frames handed to `send` after that count as being in the channel, where nobody reads them.
- The *tokens* of a message are all places where it is on its way: stored but not yet sent, in the
  channel to the server, being answered, its ACK or NACK in the channel back, or just received.
- `serial`, `sent`, `acked`, `dispatched`, `heard`, `got`, `broadcasts`, `id` and `leaked` are
  history variables. No step's guard depends on them, except that an answer copies the serial number
  of what it answers. They let a statement tell apart messages that share a packet number, and
  connections that share a file descriptor.

Results that depart from the obvious claim, with the exact condition under which it holds:

- If a login reply cannot be sent, the user is never logged out. The table is sound exactly in the
  runs in which every login reply was sent (`Runs.TableSoundIffRepliesSent`);
  `Scenarios.FailedReplyLeaks` is a run of seven steps that leaves an entry for a closed socket, and
  `Runs.LeaksAreForEver` shows that it stays.
- The Rust `set_username` does not clear the field: a name is read back exactly if it is NUL-free and
  fills the field or happens to be followed by a zero (`RustMessageHeader.SetThenGet`);
  `RustMessageHeader.LeftoverSurvives` is an instance where it is not. One of its branches can never
  be taken, and is asserted to be dead.
- The two builders agree exactly if the 32nd byte of neither username matters
  (`RustMessageHeader.BuildersAgree`): C++ keeps 31 bytes, Rust 32.
- A stream of written messages is read back exactly if each header announces exactly its body
  (`FrameStream.StreamRoundTrip`). The Rust server's error messages announce a body that is not sent;
  `FrameStream.MissingBodySwallowsNext` says what the reader then returns.
- A list of users is read back exactly if no name contains a NUL or ", " and the list fits the 16-bit
  length field (`UserList.ReplyReadsBack`).
- The server looks at the result of its read only after it has acknowledged the message. A message of
  length zero is acknowledged and makes the thread leave without dispatching it:
  `Scenarios.EmptyMessageIsNotDispatched` is such a run. Once a thread has no job left, in whatever
  phase, exactly the acknowledged messages have been dispatched if and only if none of them was
  stored with an empty body (`Runs.DispatchedUnlessEmpty`). The shipped client never stores one, since
  encryption adds a header and a tag to every body: the run needs another client that speaks the same
  protocol.
- A C++ header is read by the Rust getters as C++ stored it exactly if the 31 bytes that C++ keeps of
  a name are still UTF-8 (`RustMessageHeader.RustReadsCppNames`);
  `RustMessageHeader.CutInsideACharacter` is a name for which they are not.
- `cpp/designs/header_ascii.txt` shows bytes 70 to 133 as reserved. The code keeps the checksum of the
  body in bytes 70 to 101; the model follows the code.

Assumptions: `unsigned long` has 64 bits. Frames are sent and read whole and headers arrive intact; a
body has fewer than 65536 bytes and may be replaced by any bytes of the same length each time it is
read. `send` on an open socket
succeeds, on a closed one fails, and the login reply may fail in any case. A descriptor may be used
again as soon as it is closed. From the moment a client has sent DISCONNECT, a header its receiver has
just read may be dropped (`cpp/src/client/Client.cpp:111-114`); in the model it then stays in
`received` for good, where its token is counted. From 2^61 bytes on the length field of the padding is taken modulo
2^64, in the standard's functions as in the code; `Fips180.LengthFieldExact` shows that below that
size it is exactly what the standard says.

## Model

| member | source | states |
|---|---|---|
| Fips180.RoundConstantsAreCubeRoots | cpp/src/shared/picosha2.hpp:50-61 | every entry of the constant table is the first 32 fractional bits of the cube root of its prime |
| Fips180.InitialHashIsSquareRoots | cpp/src/shared/picosha2.hpp:63-65 | the initial digest is made of the first 32 fractional bits of square roots of the first eight primes |
| Fips180.LengthFieldExact | cpp/src/shared/picosha2.hpp:248-268 | below 2^61 bytes the last eight bytes of the padding denote the bit length of the message |
| Fips180.ZeroCountIsLeast | cpp/src/shared/picosha2.hpp:212-218 | the padding uses the least number of zero bytes that leaves room for the length field |
| BitByBit.BitwiseBit | cpp/src/shared/picosha2.hpp:67-71 | and, or and exclusive or work on each pair of bits: product, maximum, sum modulo 2 |
| BitByBit.BitsDetermine | cpp/src/shared/picosha2.hpp:67-89 | a word is determined by its bits, so the statements about bits leave no freedom |
| BitByBit.RotrBit | cpp/src/shared/picosha2.hpp:73-76 | rotating by n puts bit (k+n) modulo 32 at place k |
| BitByBit.BigSigmaBits | cpp/src/shared/picosha2.hpp:78-80 | which three bits of the word add up, modulo 2, to each bit of the two big sigmas |
| BitByBit.SmallSigmaBits | cpp/src/shared/picosha2.hpp:82-89 | the same for the two small sigmas, whose third term is shifted and runs out at bits 29 and 22 |
| BitByBit.ChBit | cpp/src/shared/picosha2.hpp:67 | each bit of x chooses between the bits of y and z |
| BitByBit.MajBit | cpp/src/shared/picosha2.hpp:69-71 | a bit is set exactly if at least two of the three bits are |
| BitByBit.PaddingBits | cpp/src/shared/picosha2.hpp:205-222 | the padding is a bit 1, then bits 0 up to the length field |
| BitByBit.BlockWordValue | cpp/src/shared/picosha2.hpp:97-102 | a word of the block is the number its four bytes denote, most significant first |
| BitByBit.ScheduleAt | cpp/src/shared/picosha2.hpp:97-106 | every schedule word by its index: a number from the block, or the sum of four words two, seven, fifteen and sixteen places back |
| BitByBit.OneRound | cpp/src/shared/picosha2.hpp:117-128 | a round moves six variables one place on and computes the other two |
| BitByBit.TwoRegisters | cpp/src/shared/picosha2.hpp:117-128 | the 64 rounds as a recurrence of two registers over their last four values each |
| BitByBit.CompressAdds | cpp/src/shared/picosha2.hpp:129-139 | each word of the new digest is the sum modulo 2^32 of the old one and what 64 rounds make of it |
| BlockCompression.Mask8 | cpp/src/shared/picosha2.hpp:46 | masking with 0xff is the remainder modulo 2^8 |
| BlockCompression.Mask32 | cpp/src/shared/picosha2.hpp:48 | masking with 0xffffffff is the remainder modulo 2^32 |
| BlockCompression.RotrAgrees | cpp/src/shared/picosha2.hpp:73-76 | on 32-bit values the 64-bit rotation is the 32-bit one: bits shifted past bit 31 do not survive |
| BlockCompression.ChAgrees | cpp/src/shared/picosha2.hpp:67 | the ones that complementing puts into the upper half never reach the result of ch |
| BlockCompression.MajAgrees | cpp/src/shared/picosha2.hpp:69-71 | maj on 64-bit words is the standard's Maj |
| BlockCompression.SigmasAgree | cpp/src/shared/picosha2.hpp:78-89 | on 32-bit values the four sigma functions on 64-bit words are those of the standard, whose bits BigSigmaBits and SmallSigmaBits give |
| BlockCompression.ScheduleHead | cpp/src/shared/picosha2.hpp:97-102 | four bytes joined by shifts and or are the big-endian word of the block |
| BlockCompression.ScheduleTail | cpp/src/shared/picosha2.hpp:103-106 | a sum of four words does not overflow 64 bits, and masked is the schedule word of the standard |
| BlockCompression.FillSchedule | cpp/src/shared/picosha2.hpp:95-106 | the array holds the 64 words of the standard's message schedule |
| BlockCompression.Step | cpp/src/shared/picosha2.hpp:118-127 | one turn of the loop with unmasked temporaries is one round of the standard; no sum overflows and all eight variables stay below 2^32 |
| BlockCompression.HashBlock | cpp/src/shared/picosha2.hpp:91-140 | the digest array becomes the standard's compression of the digest with the block, for every digest and block; what that is, down to bits, BitByBit says |
| BlockCompression.AddInto | cpp/src/shared/picosha2.hpp:129-139 | the eight additions masked afterwards are additions modulo 2^32 |
| BlockCompression.MaskAll | cpp/src/shared/picosha2.hpp:137-139 | every word is reduced modulo 2^32 |
| LengthDigits.AddToDataLength | cpp/src/shared/picosha2.hpp:235-247 | the four digits represent the old count plus n modulo 2^64, for every n, through wrap-around and early exit |
| LengthDigits.DigitsModulo | cpp/src/shared/picosha2.hpp:270 | four 16-bit digits determine the count modulo 2^64 and nothing more |
| LengthDigits.CarryStep | cpp/src/shared/picosha2.hpp:238-246 | what one turn leaves in a digit and carries on adds up to the remaining digits of the sum |
| LengthDigits.ShiftStep | cpp/src/shared/picosha2.hpp:255-261 | shifting a digit left by three with the bits of the one below is one digit of eight times the count |
| LengthDigits.WriteDataBitLength | cpp/src/shared/picosha2.hpp:248-268 | writes eight times the count modulo 2^64 as eight big-endian bytes and leaves the rest of the buffer alone |
| Streaming.AbsorbTwice | cpp/src/shared/picosha2.hpp:193-203 | processing a and then b leaves the same complete state as processing their concatenation, empty pieces included |
| Streaming.AbsorbFlattened | cpp/src/shared/picosha2.hpp:193-203 | processing any list of chunks leaves the state of processing their concatenation at once |
| Streaming.PadSplits | cpp/src/shared/picosha2.hpp:205-222 | the tail with its padding is exactly what the padded message has beyond the whole blocks already consumed |
| Streaming.FinishUnfolds | cpp/src/shared/picosha2.hpp:212-221 | finishing compresses one block if the tail has at most 55 bytes and two otherwise |
| Streaming.FinishPads | cpp/src/shared/picosha2.hpp:205-222 | absorbing a message and finishing is hashing the padded message, for any compression function |
| Streaming.ChunksHashAsOne | cpp/src/shared/picosha2.hpp:186-222 | any way of cutting a message into chunks yields the hash of the whole message |
| Hasher.AnyChunksHashRight | cpp/src/shared/picosha2.hpp:186-232 | for every list of chunks the digest bytes are the SHA-256 of their concatenation |
| Hasher.Hash256OneByOne.constructor | cpp/src/shared/picosha2.hpp:184 | a new hasher represents the state before any input |
| Hasher.Hash256OneByOne.Init | cpp/src/shared/picosha2.hpp:186-191 | whatever was absorbed before, the hasher represents the state before any input |
| Hasher.Hash256OneByOne.Process | cpp/src/shared/picosha2.hpp:193-203 | buffer, length digits and digest words represent the old state with the chunk absorbed: the digest is that of the whole blocks consumed and the buffer is the tail of under 64 bytes |
| Hasher.Hash256OneByOne.Finish | cpp/src/shared/picosha2.hpp:205-222 | compresses exactly the tail plus padding, though the zero-fills stop at byte 60 |
| Hasher.Hash256OneByOne.GetHashBytes | cpp/src/shared/picosha2.hpp:224-232 | copies the digest big-endian into the output range, as far as it has room, and touches nothing outside |
| Hasher.OctetAt | cpp/src/shared/picosha2.hpp:228-229 | byte 4k+i of the digest is word k shifted right and masked to eight bits |
| Hasher.HashChunks | cpp/src/shared/picosha2.hpp:186-232 | the class driven over any list of chunks writes the SHA-256 of their concatenation, cut to the output range |
| Hasher.HashRandomAccess | cpp/src/shared/picosha2.hpp:288-296 | writes the SHA-256 of the input, cut to the output range |
| Hasher.HashInputIterator | cpp/src/shared/picosha2.hpp:298-317 | terminates and writes the same SHA-256, for every positive buffer size, exact multiples included |
| HeaderLayout.CutAtNul | cpp/src/shared/MessageLayer.cpp:234-247 | the longest NUL-free prefix |
| HeaderLayout.BuildStringSafe | cpp/src/shared/MessageLayer.cpp:234-247 | the loop returns the bytes before the first NUL, or all of them |
| HeaderLayout.CutAtNulWhole | cpp/src/shared/MessageLayer.cpp:234-247 | a string is returned whole exactly if it contains no NUL |
| HeaderLayout.SealKeepsFields | cpp/src/shared/MessageLayer.cpp:25-45 | computing the header sum changes no byte below 134 and no field, and makes the header verify |
| HeaderLayout.NetworkOrderIsBigEndian | cpp/src/shared/MessageLayer.cpp:97-110 | a 16-bit number is stored most significant byte first |
| HeaderLayout.ReadByBytes | cpp/src/shared/MessageLayer.hpp:28-46 | every field of the record by the bytes it stands in, numbers most significant byte first |
| CppMessageLayer.NameField | cpp/src/shared/MessageLayer.cpp:127-143 | a stored username always takes the whole 32-byte field |
| CppMessageLayer.NameFieldReadsBack | cpp/src/shared/MessageLayer.cpp:127-151 | a username reads back as its first 31 bytes cut at the first NUL |
| CppMessageLayer.WriteIsAssign | cpp/src/shared/MessageLayer.cpp:99-209 | on any header, each setter changes its own field of the record to the value set and no other field |
| CppMessageLayer.WriteByBytes | cpp/src/shared/MessageLayer.cpp:104-209 | each setter by the bytes it writes, and that it leaves all other bytes alone |
| CppMessageLayer.BuilderKeepsFields | cpp/src/shared/MessageLayer.cpp:99-218 | after any sequence of setters and build, every getter returns the last value set for its field, and the header verifies |
| CppMessageLayer.BuildMessage | cpp/src/shared/MessageLayer.hpp:171-187 | the frame is the header followed by the body |
| CppMessageLayer.MessageLayer.constructor | cpp/src/shared/MessageLayer.cpp:48-51 | a new header is all zeros |
| CppMessageLayer.MessageLayer.FromHeader | cpp/src/shared/MessageLayer.cpp:65-71 | takes over the header and is valid exactly if its sum is right |
| CppMessageLayer.MessageLayer.ClearHeader | cpp/src/server/MessagingClient.cpp:51-52 | the header is all zeros, whatever it held |
| CppMessageLayer.MessageLayer.SetUsername | cpp/src/shared/MessageLayer.cpp:127-143 | the whole field holds the first 31 bytes of the name and zeros, the rest of the header is unchanged |
| CppMessageLayer.MessageLayer.SetPacketNumber | cpp/src/shared/MessageLayer.cpp:106-110 | the first two bytes denote the number, most significant first; nothing else changes |
| CppMessageLayer.MessageLayer.SetVersionNumber | cpp/src/shared/MessageLayer.cpp:117-121 | is the version setter that WriteIsAssign is about |
| CppMessageLayer.MessageLayer.SetSourceUsername | cpp/src/shared/MessageLayer.cpp:155-161 | is the source setter that WriteIsAssign is about |
| CppMessageLayer.MessageLayer.SetDestUsername | cpp/src/shared/MessageLayer.cpp:173-179 | is the destination setter that WriteIsAssign is about |
| CppMessageLayer.MessageLayer.SetMessageType | cpp/src/shared/MessageLayer.cpp:186-190 | is the message-type setter that WriteIsAssign is about |
| CppMessageLayer.MessageLayer.SetDataPacketLength | cpp/src/shared/MessageLayer.cpp:202-209 | bytes 68 and 69 denote the length, most significant first; nothing else changes |
| CppMessageLayer.MessageLayer.CalculateDataPacketChecksum | cpp/src/shared/MessageLayer.hpp:129-139 | stores the SHA-256 of the body, computed by the hasher above, in its field |
| CppMessageLayer.MessageLayer.VerifyDataPacketChecksum | cpp/src/shared/MessageLayer.hpp:143-154 | true exactly if the SHA-256 of the body is the stored one; the header is not touched |
| CppMessageLayer.MessageLayer.Build | cpp/src/shared/MessageLayer.cpp:214-218 | keeps the first 134 bytes and puts their SHA-256 into the last 32 |
| CppMessageLayer.MessageLayer.VerifyChecksum | cpp/src/shared/MessageLayer.cpp:92-95 | valid becomes true exactly if the last 32 bytes are the SHA-256 of the first 134 |
| CppMessageLayer.MessageLayer.GetPacketNumber | cpp/src/shared/MessageLayer.cpp:99-102 | returns the number that the first two bytes denote, most significant first |
| CppMessageLayer.MessageLayer.GetVersionNumber | cpp/src/shared/MessageLayer.cpp:112-115 | returns the record's version |
| CppMessageLayer.MessageLayer.GetMessageType | cpp/src/shared/MessageLayer.cpp:181-184 | returns the record's message type |
| CppMessageLayer.MessageLayer.GetSourceUsername | cpp/src/shared/MessageLayer.cpp:147-151 | returns the record's source, cut at the first NUL |
| CppMessageLayer.MessageLayer.GetDestUsername | cpp/src/shared/MessageLayer.cpp:165-169 | returns the record's destination, cut at the first NUL |
| CppMessageLayer.MessageLayer.GetDataPacketLength | cpp/src/shared/MessageLayer.cpp:195-198 | returns the number that bytes 68 and 69 denote, most significant first |
| Utf8.ValidIffEncoded | rust/message_layer/src/message_header.rs:89-93 | a byte string is accepted exactly if it is the encoding of some sequence of Unicode scalar values |
| Utf8.DecodeUndoesEncode | rust/message_layer/src/message_header.rs:89-93 | every scalar value is recovered from its encoding of one to four bytes |
| RustMessageHeader.CutKeepsUtf8 | rust/message_layer/src/message_header.rs:77-94 | cutting well-formed UTF-8 at its first NUL leaves well-formed UTF-8 |
| RustMessageHeader.SetThenGet | rust/message_layer/src/message_header.rs:52-94 | on any header, a name set is read back exactly if it has no NUL and fills the field or is followed by a zero left there before |
| RustMessageHeader.SetThenGetCleared | rust/message_layer/src/message_header.rs:52-94 | on a cleared field every UTF-8 name of at most 32 bytes comes back, cut at its first NUL |
| RustMessageHeader.LeftoverSurvives | rust/message_layer/src/message_header.rs:60-72 | writing "ab" over "xyz" reads back as "abz" |
| RustMessageHeader.ReadNamesFit | rust/server/src/main.rs:40-78 | a name successfully read is NUL-free, UTF-8 and at most 32 bytes, so setting it again cannot fail |
| RustMessageHeader.BuildersAgree | rust/message_layer/src/message_header.rs:52-168 | the C++ and the Rust builder yield the same 166 bytes exactly if neither username has a non-zero 32nd byte |
| RustMessageHeader.BuildsVerify | rust/message_layer/src/message_header.rs:129-148 | headers of either builder pass the other's verification |
| RustMessageHeader.CppBuildReads | cpp/src/client/Client.cpp:592-603 | every field the client sets for a message is read back by the C++ getters; names up to 31 bytes, the length modulo 2^16 |
| RustMessageHeader.RustReadsCppNames | rust/message_layer/src/message_header.rs:77-94 | the Rust getter recovers a username from a C++ header exactly if what C++ kept of it is still UTF-8 |
| RustMessageHeader.ShortNamesTravel | rust/message_layer/src/message_header.rs:77-94 | a UTF-8 name of at most 31 bytes is read alike by both sides from a C++ header, up to its first NUL |
| RustMessageHeader.CutInsideACharacter | cpp/src/shared/MessageLayer.cpp:127-143 | a 32-byte UTF-8 name whose last character C++ cuts in half, so that the Rust getter fails |
| RustMessageHeader.RustBuildReads | rust/message_layer/src/message_header.rs:52-168 | the C++ getters recover every field of a Rust header, names of up to 32 bytes included |
| RustMessageHeader.MessageHeader.constructor | rust/message_layer/src/message_header.rs:116-118 | a new header is all zeros |
| RustMessageHeader.MessageHeader.Clear | rust/message_layer/src/message_header.rs:120-126 | the header is all zeros, whatever it held |
| RustMessageHeader.MessageHeader.SetUsername | rust/message_layer/src/message_header.rs:52-74 | succeeds exactly if the name has at most 32 bytes; writes the bytes that fit even when it fails |
| RustMessageHeader.MessageHeader.GetUsername | rust/message_layer/src/message_header.rs:77-94 | the bytes before the first NUL if they are UTF-8, else an error |
| RustMessageHeader.MessageHeader.SetU16AtIndex | rust/message_layer/src/message_header.rs:97-105 | two bytes that denote the number, most significant first; nothing else changes |
| RustMessageHeader.MessageHeader.GetU16AtIndex | rust/message_layer/src/message_header.rs:109-114 | the number the two bytes denote, most significant first |
| RustMessageHeader.MessageHeader.CalculateHeaderChecksum | rust/message_layer/src/message_header.rs:129-141 | seals the header as the C++ build does |
| RustMessageHeader.MessageHeader.VerifyHeaderChecksum | rust/message_layer/src/message_header.rs:143-148 | true exactly if the header verifies in the sense of the C++ side |
| RustMessageHeader.MessageHeader.CalculateDataChecksum | rust/message_layer/src/message_header.rs:151-162 | stores the SHA-256 of the body in bytes 70 to 101 only |
| RustMessageHeader.MessageHeader.VerifyDataChecksum | rust/message_layer/src/message_header.rs:164-169 | true exactly if the SHA-256 of the body is the stored one |
| FrameStream.ParseUndoesPrint | rust/message_layer/src/application_layer.rs:29-67 | a written message is read back, with the stream left just behind it, exactly if its header verifies and announces exactly its body |
| FrameStream.PrintUndoesParse | rust/message_layer/src/application_layer.rs:29-57 | whatever is read successfully is well-formed and is byte for byte what was consumed |
| FrameStream.WhenParseFails | rust/message_layer/src/application_layer.rs:29-57 | exactly when a read fails, for too few bytes or for a bad sum, and that a bad header alone is consumed |
| FrameStream.StreamRoundTrip | rust/message_layer/src/application_layer.rs:29-75 | a sequence of written messages is read back whole, to the last byte, exactly if all are well-formed |
| FrameStream.CppFrameReadsBack | cpp/src/client/Client.cpp:592-608 | the Rust reader recovers a C++ frame with a body exactly if the body has fewer than 65536 bytes |
| FrameStream.MissingBodySwallowsNext | rust/server/src/messaging_client.rs:22-36 | a header whose announced body was not sent takes that many bytes of the next frame as its body |
| FrameStream.ApplicationLayer.constructor | rust/message_layer/src/application_layer.rs:21-27 | starts with nothing read and nothing written |
| FrameStream.ApplicationLayer.ReadBasicMessage | rust/message_layer/src/application_layer.rs:29-57 | behaves as the parser; the reused header and body buffers hold exactly the message, nothing of an earlier one; a bad header consumes 166 bytes; a short stream fails |
| FrameStream.ApplicationLayer.WriteBasicMessage | rust/message_layer/src/application_layer.rs:59-67 | appends the printed message and returns the size of the body written |
| Wire.MessageTravels | cpp/src/client/Client.cpp:592-608 | a stored message arrives with the fields and body it was stored with exactly if its body fits the length field and its names fit theirs |
| Wire.CodesAreEnumerated | cpp/src/shared/MessageLayer.hpp:23-24 | the message types have the codes 0 to 6 in the order of the enumeration |
| UserList.ListingReadsBack | cpp/src/server/SharedClients.cpp:122-146 | cutting the list at its NUL and splitting at ", " gives the listed names exactly if none contains a NUL or ", " |
| UserList.ReplyReadsBack | cpp/src/server/MessagingClient.cpp:150-170 | the same for the bytes a client receives: exactly if moreover the list fits the 16-bit length field |
| UserList.EveryUserOnce | cpp/src/server/SharedClients.cpp:122-146 | every registered user is recovered, and exactly once, in whatever order the table is walked |
| Delivery.ClientKeepsConn | cpp/src/client/Client.cpp:86-362 | every step of a client keeps the invariant of its connection |
| Delivery.StoreKeepsConn | cpp/src/client/Client.cpp:608-632 | storing under a free number gives that message its one token; a number in use ends the client |
| Delivery.TransmitKeepsConn | cpp/src/client/Client.cpp:633-642 | sending moves the token from the sender to the channel |
| Delivery.AckKeepsConn | cpp/src/client/Client.cpp:222-236 | an ACK takes the message it answers out of the table together with its token |
| Delivery.NackKeepsConn | cpp/src/client/Client.cpp:330-356 | a NACK sends the stored message, the one it answers, round again: the token is passed on |
| Delivery.TakeMessage | cpp/src/server/MessagingClient.cpp:176-193 | reading a message moves its token to the one answer the thread then owes |
| Delivery.AnswerSent | cpp/src/server/MessagingClient.cpp:67-84 | an answer sent to the thread's own client carries the token back and is counted once |
| Delivery.RelayDone | cpp/src/server/MessagingClient.cpp:207-229 | dispatching adds the acknowledged message to the dispatches, in order |
| Delivery.ReadKeepsConn | cpp/src/server/MessagingClient.cpp:110-257 | the main loop's reaction to any frame, however its body was corrupted, keeps the invariant |
| SharedTable.StepTable | cpp/src/server/SharedClients.cpp:151-206 | no step changes the table except add_new_user with a new name and log_out_user |
| SharedTable.LockKept | cpp/src/server/SharedClients.cpp:43-206 | under every interleaving a writer is alone and the lock is held by exactly the threads that believe they hold it |
| SharedTable.TableFrozenWhileRead | cpp/src/server/SharedClients.cpp:86-118 | no step changes the table while any thread holds the lock for reading |
| SharedTable.TableKept | cpp/src/server/Server.cpp:107-162 | every step keeps each registered thread's name mapped to its own socket, and every other entry accounted for as leaked |
| Safety.ConnsKept | cpp/src/server/MessagingClient.cpp:110-257 | every step of any thread keeps the delivery invariant of all connections |
| Safety.AnswerKeepsConns | cpp/src/server/MessagingClient.cpp:67-84 | an answer looked up by name in the shared table reaches the thread's own socket |
| Endings.EndsKept | cpp/src/server/MessagingClient.cpp:176-254 | every step keeps this: a thread that has stopped reading has dispatched all it acknowledged, except that the last message may be an empty one |
| Broadcasts.HeardKept | cpp/src/server/SharedClients.cpp:97-109 | after every step each connection has been sent each broadcast's own frame once per visit to its socket so far, and no other frame on its behalf |
| Broadcasts.BroadcastsKept | cpp/src/server/SharedClients.cpp:86-118 | a broadcast under way works on the table it locked and on the frame it began with, and no two share a record |
| Broadcasts.LateKept | cpp/src/server/SharedClients.cpp:86-118 | without leaks no connection accepted after a broadcast began has heard it, and none under way can still reach it |
| Runs.InvariantKept | cpp/src/server/Server.cpp:62-163 | the whole invariant is kept by every step of every thread |
| Runs.RunsAreSafe | cpp/src/server/Server.cpp:62-163 | the invariant holds in every world of every run |
| Runs.OneTokenPerNumber | cpp/src/client/Client.cpp:606-639 | as long as a client lives, whatever its server thread does, the message stored under a number has exactly one token, every other message sent under that number none |
| Runs.AnswersMatchStored | cpp/src/client/Client.cpp:222-236 | an ACK or NACK on its way to a living client or received by it answers the very message now stored under its number, so "already acknowledged" and "a packet we don't have" are unreachable |
| Runs.StoredUntilAcked | cpp/src/client/Client.cpp:592-639 | a stored message of a living client is never overwritten and leaves the table only when the ACK of that very message is handled, across any number of packet-number wraps |
| Runs.SoForAbandonedClients | cpp/src/client/Client.cpp:86-362 | a client that goes on after the server closed its socket, for any number of steps: tokens and answers match its table as before |
| Numbers.NumbersCount | cpp/src/client/Client.cpp:397-642 | in every run the packet number of each client is the number of its commands so far modulo 2^16, whatever was sent again |
| Numbers.CommandsAreNumbered | cpp/src/client/Client.cpp:421-642 | the frames of a client's commands carry 0, 1, 2 and so on modulo 2^16, its own name and the type of the command |
| Numbers.NumbersAreFree | cpp/src/client/Client.cpp:606-639 | a client with fewer than 65536 commands never gives up because a number is in use: its message is stored and about to be sent |
| Numbers.GivesUpIffInUse | cpp/src/client/Client.cpp:617-624 | at any time a client that stores a message gives up exactly if the message that last had the number is still unanswered |
| Runs.DispatchedOnce | cpp/src/server/MessagingClient.cpp:110-230 | in every phase each message is dispatched at most once and in order of acknowledgement; back at its read the thread has dispatched exactly the acknowledged ones; a dispatched body is as long as the body stored by its sender and hashes like it |
| Runs.AnswersRightly | cpp/src/server/MessagingClient.cpp:176-229 | in every run, reading a message makes the thread owe its own client one answer with that number; it is an ACK exactly if the bytes read hash to the checksum, so always if nothing was corrupted, and then a message that is not empty is passed on next to whom it is for |
| Runs.DispatchedUnlessEmpty | cpp/src/server/MessagingClient.cpp:176-206 | for a thread in any phase with no job left, exactly the acknowledged messages have been dispatched if and only if none of them was stored with an empty body |
| Scenarios.EmptyMessageIsNotDispatched | cpp/src/server/MessagingClient.cpp:192-199 | a run of 18 steps in which an empty message is acknowledged and never dispatched |
| Runs.NamesLeadHome | cpp/src/server/Server.cpp:107-162 | in every run no two registered threads share a name and each one's name leads to its own socket |
| Runs.LeakedByFailedReplies | cpp/src/server/Server.cpp:145-153 | a user has leaked exactly if some login reply failed |
| Runs.TableSoundIffRepliesSent | cpp/src/server/Server.cpp:145-162 | every entry belongs to a running thread with an open socket exactly if every login reply so far was sent |
| Scenarios.FailedReplyLeaks | cpp/src/server/Server.cpp:145-153 | a run of seven steps in which one failed reply leaves an entry that refers to a closed socket |
| Runs.LeaksAreForEver | cpp/src/server/Server.cpp:145-162 | between any two moments of a run, an entry leaked at the first is there at the second, unchanged |
| Runs.BroadcastCounts | cpp/src/server/SharedClients.cpp:86-118 | in any run, leaks or not, a finished broadcast has had its own frame, and no other, appended to a connection open since it began, once for every user but the sender that the locked table maps to it |
| Runs.BroadcastOnce | cpp/src/server/SharedClients.cpp:86-118 | if every login reply was sent, its own frame exactly once to each user registered when the lock was taken except the sender, no other frame, and nothing to anybody else, later connections included |
| Runs.VisitsDeliverTheFrame | cpp/src/server/SharedClients.cpp:97-109 | a visit appends exactly the frame the broadcast began with to the socket of the user visited, and no other step delivers anything on behalf of a broadcast |
| Receipts.GotKept | cpp/src/server/SharedClients.cpp:43-118 | after every step, nobody has got anything of a message not yet dispatched, except one to everybody that is just being passed on, which has arrived as often as its broadcast |
| Receipts.OnceKept | cpp/src/server/SharedClients.cpp:43-118 | without leaks every step keeps this: no connection has got a frame twice, or two frames for the same message |
| Runs.DispatchedAsStored | cpp/src/server/MessagingClient.cpp:207-224 | what is dispatched is the message as its sender stored it, to the addressee it was stored with, with a body of the same length and hash |
| Runs.NothingTwice | cpp/src/server/SharedClients.cpp:43-118 | if every login reply was sent, no connection ever got two frames for the same message of a client |
| Runs.MessageArrivesOnce | cpp/src/server/MessagingClient.cpp:176-224 | if every login reply was sent, at any time after a message was dispatched, privately or to all, each connection registered under a name it was for has got it exactly once, as dispatched, and every other connection nothing of it |
| Progress.HolderHasAStep | cpp/src/server/SharedClients.cpp:43-206 | in every reachable world a thread that holds the lock has an enabled step of its own |
| Progress.HolderReleases | cpp/src/server/SharedClients.cpp:43-206 | by a bounded number of its own steps a holder gives the lock back, and no other thread moves |
| Progress.LockComesFree | cpp/src/server/SharedClients.cpp:43-206 | by steps of the holders alone the lock becomes free |
| Progress.NoDeadlock | cpp/src/server/SharedClients.cpp:43-206 | every run can be continued by the holders alone so that whoever was waiting for the lock, to read or to write, can take it |
| ServerCode.SharedClients.SendToClient | cpp/src/server/SharedClients.cpp:43-80 | appends the frame to the socket the table has for the user and to no other; succeeds exactly if there is an entry and its socket is open; the lock is released |
| ServerCode.SharedClients.SendToAll | cpp/src/server/SharedClients.cpp:86-118 | appends to every open socket one copy per entry for it other than the sender's, whatever the order of the walk; succeeds exactly if all of them are open |
| ServerCode.SharedClients.GetLoggedInUsers | cpp/src/server/SharedClients.cpp:122-146 | returns the listing of exactly the table's names in some order |
| ServerCode.SharedClients.AddNewUser | cpp/src/server/SharedClients.cpp:151-185 | adds the user exactly if the name is new, and never replaces an entry |
| ServerCode.SharedClients.LogOutUser | cpp/src/server/SharedClients.cpp:187-206 | removes the user and tells whether there was one |
| ServerCode.MessagingClient.IncrementPacketNumber | cpp/src/server/Server.cpp:45-49 | the number becomes its successor modulo 65535, which is also returned |
| ServerCode.MessagingClient.SendErrorMessage | cpp/src/server/MessagingClient.cpp:49-64 | one ERROR with the next number to the thread's own client, and success, exactly if it is reachable |
| ServerCode.MessagingClient.SendVerificationMessage | cpp/src/server/MessagingClient.cpp:67-84 | one answer with the number of the frame it answers, and success, exactly if the client is reachable; the thread's own number is not used up |
| ServerCode.MessagingClient.HandleFrame | cpp/src/server/MessagingClient.cpp:138-255 | what one turn appends to every open socket, frame by frame and for each type of frame, which packet number it uses up and when the thread leaves; and that these are the jobs of the transition system |
| ServerCode.WorkIsTurn | cpp/src/server/MessagingClient.cpp:138-255 | the jobs that follow from a frame, done one after the other, send to each socket exactly what a turn is said to send |
| ServerCode.SessionIsTurns | cpp/src/server/MessagingClient.cpp:110-257 | a session is one such turn after the other until one makes the thread leave |
| ServerCode.NoticeReachesOthers | cpp/src/server/MessagingClient.cpp:87-109 | the notice that a client has come goes once to every entry but its own |
| ServerCode.MessagingClient.Client | cpp/src/server/MessagingClient.cpp:87-257 | the whole loop is the login notice followed by the turns, up to the frame that makes it leave or the failing read |
| ServerCode.MessagingClient.Relay | cpp/src/server/MessagingClient.cpp:207-229 | to all or to one; an error to the sender exactly if the one recipient was not reached |
| ServerCode.LoginProcedure | cpp/src/server/Server.cpp:62-163 | the socket is closed in every case; the table is what it was, except after a failed reply, when the new entry stays; only a client that logs in causes anything to be sent to others |
| Refinement.WorkIgnoresHistory | cpp/src/server/SharedClients.cpp:43-146 | what a thread's jobs send, the packet number and the phase they end with depend neither on how it sees the lock nor on what it has acknowledged and dispatched before |
| Refinement.VisitsRun | cpp/src/server/SharedClients.cpp:97-109 | the remaining visits of a broadcast, in any order, end with the frame appended once for every user but the sender |
| Refinement.SequentialIsARun | cpp/src/server/MessagingClient.cpp:138-255 | left alone, a thread's own steps in the transition system lead to exactly the sockets and the thread state that the sequential code computes |
| Refinement.TurnIsARun | cpp/src/server/MessagingClient.cpp:110-255 | one turn of the loop, undisturbed and whatever the thread has done before: reading the frame and doing its jobs step by step appends to every socket what the contract of HandleFrame says |
| Refinement.LoopIsARun | cpp/src/server/MessagingClient.cpp:110-257 | the same for any number of frames, until one makes the thread leave |
| Refinement.ClientIsARun | cpp/src/server/MessagingClient.cpp:87-257 | the whole of client, from the notice to the others on, ends as its sequential contract says |
| Refinement.LoginIsARun | cpp/src/server/Server.cpp:62-163 | the whole login procedure, undisturbed, from the accepted to the closed socket and in all its cases, ends with the sockets and the table of its sequential contract |
| ClientCode.MessageClient.SendMessage | cpp/src/client/Client.cpp:445-642 | with a free number: stores and sends one frame with that number, the own name, the recipient, the body and its SHA-256, and counts up modulo 2^16; otherwise, or if the receiver has stopped, sends nothing and ends the program; these are the steps of the transition system |
| ClientCode.MessageClient.OnHeader | cpp/src/client/Client.cpp:222-356 | ACK erases its number and nothing else, NACK resends the frame stored under its number, an unknown NACK or DISCONNECT stops the receiver, all else changes nothing |

## Left out

- Sockets, `accept`, `bind`, `listen`, signals, thread creation and process exit: operating-system calls; only channels and steps are kept.
- Short reads, partial writes and desynchronised streams: the code does not recover from them; frames are whole here.
- A `send` that fails on an open socket: the protocol has no answer to a lost ACK; only the login reply may fail.
- `Runs.DispatchedOnce`: states integrity as equality of hashes, because collision resistance of SHA-256 cannot be proved.
- `ServerCode.LoginProcedure`: the error frame sent to a rejected client is not visible in its contract, because the socket is closed right after it.
- `RustMessageHeader.MessageHeader.CalculateHeaderChecksum`: the `sha2` crate is not part of this model; it is taken to compute the SHA-256 of FIPS 180-4, as for the other three Rust checksum functions.
- The texts of notices and error messages: empty in the transition system.
- The client console, help text, command parsing and password prompt: user interface.
- `CryptoLayer`: an encrypted body is any byte string.
- The Rust server: its only traces are the error message without a body and the calls that set names that were read.
- Hex output, the `ifstream` overload, move constructors and the existing unit tests: no protocol state, hash or header byte depends on them.
- Progress beyond freedom from deadlock: that a message is ever acknowledged depends on scheduling and on the network.
- A total order of broadcasts across recipients: the shared read lock does not give one.
- Narrowing of characters with a negative value in C++ strings: bytes are unsigned throughout.
