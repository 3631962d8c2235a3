# Verification of the streaming, hashing and protocol code of Otoroshi

Otoroshi ships, next to its Scala server, a good deal of code that keeps state by hand: the byte, stream and hash
engine in the bundle of its admin UI, the callback lists of jQuery, the passkey ceremonies of the login page, the key
manager that chooses certificates for TLS, the consent store of the documentation site, and the script that publishes
a release. This project models that code in Dafny and proves what it promises, for every input and every run.

Run `dafny verify dfyconfig.toml` to check the whole project.

## What is proved

**Hashing** (`Words`, `WordBytes`, `Primes`, `Sha512Constants`, `Fips180`, `Sha512`, `HashStream`). `Fips180` is the 64-bit
compression function as FIPS 180-4 writes it. `Sha512` is the code: pairs of 32-bit words, carries detected by
comparison, an array of 160 words. Its `Update` computes the standard's function for every state and block, and
`HashStream` shows that `update` and `digest` feed exactly the blocks of the padded message, so that the digest is the
one of the standard however the message is cut. The constants are proved to be the roots that the standard asks for, of the
first eighty primes.

**Text** (`Unicode`, `Utf8Codec`, `StringDecoder`). `Unicode` holds RFC 3629 and UTF-16. The decoder and the encoder
are loops with jumps, a byte budget and a pending surrogate; they are proved inverse to each other exactly where they
are. The chunked decoder returns what one-shot decoding returns for every way of cutting UTF-8.

**Buffers** (`IntCodec`, `BufferSearch`, `BufferList`). Signed integers of one to six bytes, a substring search whose
index jumps back, and a linked list of chunks.

**Streams and queues** (`ReadableView`, `ReadableStream`, `WritableStream`, `NextTick`, `CallbackLists`, `Deferreds`). User code runs in
the middle of these: listeners, `_read`, `_write`, callbacks, items. A run therefore has a script: the n-th piece of
user code that runs does what the n-th entry of the script says, and may call back into the object. The theorems hold
for every script and every sequence of events, and the loops and nested calls are proved to end for every script.
They say what never happens, such as a callback called twice, and what does happen in the end: `finish` and `end` are
emitted, `drain` is not forgotten, and one timer runs every item unless one throws.

**Protocols** (`WebAuthn`, `KeyManager`, `Release`, `Consent`). State machines over all interleavings of their steps,
with a browser, a certificate generator, a key manager or a crash as adversary.

## Where the code does less than it promises

- `Writable` does not always pass chunks on in order. A write made from within `clearBuffer`, after a synchronous
  completion and while other writes wait, goes past them: `WritableStream.OutOfOrder` is such a run. Order holds exactly
  when this did not happen (`WritableStream.Run`, `WritableStream.InOrder`).
- `Readable` loses count of its bytes when `_read` itself takes bytes. A `read` that calls `_read` and then takes two
  bytes or more can take more than is left: `length` becomes negative (`ReadableStream.ReadInsideRead`), and later reads
  can lose bytes (`ReadableStream.LosesAByte`). No other read can (`ReadableStream.Conserved`), and every such read does
  for some `_read` (`ReadableStream.CanBeShort`). Until then, bytes are conserved.
- `StringDecoder` returns one replacement for all the bytes of a cut character that it drops, at the end of the input or
  where the next chunk does not continue it (`StringDecoder.CutBetweenChunks`); one-shot decoding returns one for each.
  `StringDecoder.AgreesIff` says exactly when the results agree.
- `utf8ToBytes` drops one of two unpaired high surrogates at the end of a string (`Utf8Codec.EncodeExact`).
- `Callbacks.empty` during a pass makes the pass miss entries that are added afterwards (`CallbackLists.EmptySkips`).
- The key manager answers for an alias that starts with `tmp-gen-` from its cache, even if the alias is the manager's
  own (`KeyManager.OwnKeyIff`), and two simultaneous handshakes for one host can leave the first session with another
  key than the one that TLS fetches (`KeyManager.TwoGenerations`). What TLS fetches for a cached alias is stable exactly
  when no handshake waits for a certificate for its host (`KeyManager.StableIff`).
- The consent store confuses a key with a longer key that it is a suffix of (`Consent.SearchExactIff`).

## Model

The bundle and jQuery are minified: all of their code is on line 2. Modules of the bundle are named by their numbers.

| member | source | states |
|---|---|---|
| Sha512.BigSigma0Pair | otoroshi/public/swagger-ui/swagger-ui-es-bundle-core.js:2 | module 890 `sigma0`: called with the halves in both orders, it gives the two halves of the 64-bit function of section 4.1.3 of FIPS 180-4 |
| Sha512.BigSigma1Pair | otoroshi/public/swagger-ui/swagger-ui-es-bundle-core.js:2 | module 890 `sigma1`: the same for the other upper-case sigma |
| Sha512.SmallSigma0Pair | otoroshi/public/swagger-ui/swagger-ui-es-bundle-core.js:2 | module 890 `Gamma0` and `Gamma0l`: the two halves of the 64-bit lower-case sigma 0, whose last term is a shift and not a rotation |
| Sha512.SmallSigma1Pair | otoroshi/public/swagger-ui/swagger-ui-es-bundle-core.js:2 | module 890 `Gamma1` and `Gamma1l`: the two halves of the 64-bit lower-case sigma 1 |
| Sha512.ChPair | otoroshi/public/swagger-ui/swagger-ui-es-bundle-core.js:2 | module 890 `Ch`: the form with one `and` computes the standard's choice function on both halves |
| Sha512.MajPair | otoroshi/public/swagger-ui/swagger-ui-es-bundle-core.js:2 | module 890 `maj`: the form used computes the standard's majority function on both halves |
| Sha512.AddPair | otoroshi/public/swagger-ui/swagger-ui-es-bundle-core.js:2 | module 890 `getCarry`: adding low words, detecting the carry by comparison with either summand and adding high words is addition modulo 2^64 |
| Sha512.RoundRefines | otoroshi/public/swagger-ui/swagger-ui-es-bundle-core.js:2 | module 890 `_update`: the chains of additions and carries of one round turn the eight pairs into the state after one 64-bit round of section 6.4.2 |
| Sha512.NextWordRefines | otoroshi/public/swagger-ui/swagger-ui-es-bundle-core.js:2 | module 890 `_update`: a new pair of the 160-entry array is the next 64-bit word of the message schedule |
| Sha512.ReadsBigEndian | otoroshi/public/swagger-ui/swagger-ui-es-bundle-core.js:2 | module 287 `readInt32BE`, as used for the block: shifts and `or` of four bytes are their big-endian number |
| Sha512.Sha512.constructor | otoroshi/public/swagger-ui/swagger-ui-es-bundle-core.js:2 | module 890 `init`: the eight pairs hold the initial hash value of section 5.3.5 |
| Sha512.Sha512.FillSchedule | otoroshi/public/swagger-ui/swagger-ui-es-bundle-core.js:2 | module 890 `_update`: after the two loops the 160 words are the 80 words of the schedule of the block, high word first |
| Sha512.Sha512.AddToState | otoroshi/public/swagger-ui/swagger-ui-es-bundle-core.js:2 | module 890 `_update`: the final additions add the working variables to the state modulo 2^64, word by word |
| Sha512.Sha512.Update | otoroshi/public/swagger-ui/swagger-ui-es-bundle-core.js:2 | module 890 `_update`: for every state and every block, the new state is the 64-bit compression function of section 6.4.2 applied to the old state and the block |
| Sha512.Sha512.Bytes | otoroshi/public/swagger-ui/swagger-ui-es-bundle-core.js:2 | module 890 `_hash`: the digest is the eight words in big-endian order |
| Sha512Constants.RoundConstants | otoroshi/public/swagger-ui/swagger-ui-es-bundle-core.js:2 | module 890: each pair of the table of 80 round constants is the first 64 bits of the fractional part of the cube root of the corresponding prime (section 4.2.3) |
| Primes.NextPrime | otoroshi/public/swagger-ui/swagger-ui-es-bundle-core.js:2 | modules 890 and FIPS 180-4, sections 4.2.3 and 5.3.5: the primes that the constants are taken from are the first eighty, in order: each is prime, and no prime lies between it and the next |
| Sha512Constants.InitialConstants | otoroshi/public/swagger-ui/swagger-ui-es-bundle-core.js:2 | module 890: the initial pairs are the fractional parts of the square roots of the first eight primes (section 5.3.5) |
| HashStream.Hash.UpdateBlock | otoroshi/public/swagger-ui/swagger-ui-es-bundle-core.js:2 | module 392, the call of `_update`: the block goes to the subclass, whose state follows the blocks fed so far |
| HashStream.Hash.CopyIn | otoroshi/public/swagger-ui/swagger-ui-es-bundle-core.js:2 | module 392 `update`: the inner loop copies a piece into the block at the current offset and changes nothing else |
| HashStream.Hash.Update | otoroshi/public/swagger-ui/swagger-ui-es-bundle-core.js:2 | module 392 `update`: whatever the size of the chunk, what was fed in blocks followed by the pending part of the block is everything given to `update` |
| HashStream.Hash.PadBlocks | otoroshi/public/swagger-ui/swagger-ui-es-bundle-core.js:2 | module 392 `digest`: marker, zero fill, the extra block when the length does not fit and the length in one or two words make the fed blocks the padded message |
| HashStream.Hash.WriteLength | otoroshi/public/swagger-ui/swagger-ui-es-bundle-core.js:2 | module 392 `digest`: the bit length, split into two 32-bit words when it needs more than one, ends the block in big-endian order |
| HashStream.Hash.Digest | otoroshi/public/swagger-ui/swagger-ui-es-bundle-core.js:2 | module 392 `digest`: the blocks given to `_update` by all the calls are exactly those of the padded concatenation of sections 5.1.1 and 5.1.2, and with SHA-512 the result is the digest of the standard |
| HashStream.GapIsLeast | otoroshi/public/swagger-ui/swagger-ui-es-bundle-core.js:2 | module 392 `digest`: the number of zero bytes is the least one that completes a block, as section 5.1 asks |
| HashStream.BlocksOfConcat | otoroshi/public/swagger-ui/swagger-ui-es-bundle-core.js:2 | module 392: cutting the concatenation of the fed blocks into blocks gives them back |
| HashStream.PadShort | otoroshi/public/swagger-ui/swagger-ui-es-bundle-core.js:2 | module 392 `digest`: when the length fits after the marker, the last block completes the padded message |
| HashStream.PadLong | otoroshi/public/swagger-ui/swagger-ui-es-bundle-core.js:2 | module 392 `digest`: otherwise two blocks complete it |
| HashStream.DigestOf | otoroshi/public/swagger-ui/swagger-ui-es-bundle-core.js:2 | modules 392 and 890: for every sequence of chunks, the digest is SHA-512 of their concatenation, so it does not depend on how the message was cut |
| Utf8Codec.Utf8Slice | otoroshi/public/swagger-ui/swagger-ui-es-bundle-core.js:2 | module 287 `utf8Slice`: the loop returns the UTF-16 units of the code points that its turns find in the slice |
| Utf8Codec.NextIsCharacter | otoroshi/public/swagger-ui/swagger-ui-es-bundle-core.js:2 | module 287 `utf8Slice`: a turn finds a character exactly where section 4 of RFC 3629 has one, with its length and its code point, and otherwise consumes one byte for a replacement |
| Utf8Codec.DecodedIsWellFormed | otoroshi/public/swagger-ui/swagger-ui-es-bundle-core.js:2 | module 287 `utf8Slice`: decoding any bytes whatever returns well-formed UTF-16, with the same code points |
| Utf8Codec.DecodedOfUtf8 | otoroshi/public/swagger-ui/swagger-ui-es-bundle-core.js:2 | module 287 `utf8Slice`: decoding inverts the encoding of RFC 3629 on all code points |
| Utf8Codec.ReencodeExact | otoroshi/public/swagger-ui/swagger-ui-es-bundle-core.js:2 | module 287: encoding what was decoded returns the same bytes if, and only if, they satisfy section 4 of RFC 3629 |
| Utf8Codec.Utf8ToBytes | otoroshi/public/swagger-ui/swagger-ui-es-bundle-core.js:2 | module 287 `utf8ToBytes`: the loop with its pending surrogate and its byte budget computes the recursive encoding `Rest`, for ill-formed strings too |
| Utf8Codec.EncodeExact | otoroshi/public/swagger-ui/swagger-ui-es-bundle-core.js:2 | module 287 `utf8ToBytes` without a budget: it encodes the string with every unpaired surrogate replaced if, and only if, the string does not end in two high surrogates |
| Utf8Codec.EncodeWithin | otoroshi/public/swagger-ui/swagger-ui-es-bundle-core.js:2 | module 287 `utf8ToBytes` with a budget above 0: on well-formed strings, the encoding of the longest prefix of whole code points that fits |
| Utf8Codec.FitIsLongest | otoroshi/public/swagger-ui/swagger-ui-es-bundle-core.js:2 | module 287: prefixes fit exactly up to that length |
| Utf8Codec.RoundTrip | otoroshi/public/swagger-ui/swagger-ui-es-bundle-core.js:2 | module 287: `utf8Slice` inverts `utf8ToBytes` on every well-formed string |
| Utf8Codec.RoundTripBytes | otoroshi/public/swagger-ui/swagger-ui-es-bundle-core.js:2 | module 287: `utf8ToBytes` inverts `utf8Slice` if, and only if, the bytes are UTF-8 |
| StringDecoder.Decoder.WriteText | otoroshi/public/swagger-ui/swagger-ui-es-bundle-core.js:2 | module 141 `utf8Text`: on the fields, the same as `Text`: the incomplete end of the chunk is kept and the rest decoded |
| StringDecoder.Decoder.WriteChunk | otoroshi/public/swagger-ui/swagger-ui-es-bundle-core.js:2 | module 141 `write` and `utf8FillLast`: on the fields, the same as `Write` |
| StringDecoder.Decoder.Finish | otoroshi/public/swagger-ui/swagger-ui-es-bundle-core.js:2 | module 141 `end`: the last chunk, and one replacement if a character is still incomplete |
| StringDecoder.ChunkIndependence | otoroshi/public/swagger-ui/swagger-ui-es-bundle-core.js:2 | module 141: for every valid UTF-8 string and every way of cutting it into chunks, empty ones included, the outputs of `write` and `end` together are the one-shot `utf8Slice` |
| StringDecoder.AgreesIff | otoroshi/public/swagger-ui/swagger-ui-es-bundle-core.js:2 | module 141: for arbitrary bytes in arbitrary chunks, `write` and `end` agree with the one-shot `utf8Slice` if, and only if, each pending character that is dropped, by a chunk that does not continue it or by `end`, is a single byte; otherwise they return less |
| StringDecoder.OutputsSpelledOut | otoroshi/public/swagger-ui/swagger-ui-es-bundle-core.js:2 | module 141: the one-shot result is what the outputs of `write` and `end` become when each dropped character is given one replacement for each of its bytes, instead of one |
| StringDecoder.OneChunkExact | otoroshi/public/swagger-ui/swagger-ui-es-bundle-core.js:2 | module 141: for one chunk of arbitrary bytes, the same as a test of its end: no character is cut there, or only its first byte is there |
| StringDecoder.CutBetweenChunks | otoroshi/public/swagger-ui/swagger-ui-es-bundle-core.js:2 | module 141 `utf8CheckExtraBytes`: two chunks that end in no cut character, on which the decoder and `utf8Slice` differ |
| IntCodec.WriteIntLE | otoroshi/public/swagger-ui/swagger-ui-es-bundle-core.js:2 | module 287 `writeIntLE`: the loop with truncating division and sticky borrow stores the two's complement digits of the value at the offset, leaves the other bytes alone, and rejects values and offsets out of range |
| IntCodec.WriteIntBE | otoroshi/public/swagger-ui/swagger-ui-es-bundle-core.js:2 | module 287 `writeIntBE`: the same digits in the other order |
| IntCodec.BorrowIsFloor | otoroshi/public/swagger-ui/swagger-ui-es-bundle-core.js:2 | module 287 `writeIntLE`: the borrow turns the truncating quotient of a negative number into the floor |
| IntCodec.StoredIsDigit | otoroshi/public/swagger-ui/swagger-ui-es-bundle-core.js:2 | module 287 `writeIntLE`: the byte stored for the quotient, truncated by `or` with 0 and less the borrow, is the digit of the two's complement |
| IntCodec.ReadIntLE | otoroshi/public/swagger-ui/swagger-ui-es-bundle-core.js:2 | module 287 `readIntLE`: the signed number that the bytes stand for |
| IntCodec.ReadIntBE | otoroshi/public/swagger-ui/swagger-ui-es-bundle-core.js:2 | module 287 `readIntBE`: the same with the bytes reversed |
| IntCodec.SignedOfDigits | otoroshi/public/swagger-ui/swagger-ui-es-bundle-core.js:2 | module 287: for every width and every value in range, the digits determine the value |
| IntCodec.DigitsOfSigned | otoroshi/public/swagger-ui/swagger-ui-es-bundle-core.js:2 | module 287: conversely, any bytes are the digits of the signed number that they stand for, which is in range |
| IntCodec.RoundTrip | otoroshi/public/swagger-ui/swagger-ui-es-bundle-core.js:2 | module 287: reading what was written returns the value, in either byte order, for every width from 1 to 6 and every offset in range, and the other bytes are unchanged |
| BufferSearch.ForwardIndexOf | otoroshi/public/swagger-ui/swagger-ui-es-bundle-core.js:2 | module 287 `arrayIndexOf` on bytes, forwards: although the index jumps back after a failed partial match, the loop ends, with the least occurrence at or after the start, or -1 when there is none |
| BufferSearch.BackwardIndexOf | otoroshi/public/swagger-ui/swagger-ui-es-bundle-core.js:2 | module 287 `arrayIndexOf` on bytes, backwards: the greatest occurrence at or before the start, or -1 |
| BufferSearch.IndexOf | otoroshi/public/swagger-ui/swagger-ui-es-bundle-core.js:2 | module 287 `bidirectionalIndexOf`: with a negative offset counted from the end, and offsets outside of the buffer, the result is still the first or the last occurrence |
| BufferList.BufferList.Push | otoroshi/public/swagger-ui/swagger-ui-es-bundle-core.js:2 | module 726 `push`: one more chunk at the end; head, tail, links and node count agree |
| BufferList.BufferList.Unshift | otoroshi/public/swagger-ui/swagger-ui-es-bundle-core.js:2 | module 726 `unshift`: one more chunk at the front |
| BufferList.BufferList.Shift | otoroshi/public/swagger-ui/swagger-ui-es-bundle-core.js:2 | module 726 `shift`: the first chunk is removed and returned; nothing happens when there is none |
| BufferList.BufferList.Clear | otoroshi/public/swagger-ui/swagger-ui-es-bundle-core.js:2 | module 726 `clear`: nothing is left |
| BufferList.BufferList.Concat | otoroshi/public/swagger-ui/swagger-ui-es-bundle-core.js:2 | module 726 `concat`, for any length: that many bytes, the first of which are all the bytes of the list, or as many as fit; the list unchanged |
| BufferList.BufferList.First | otoroshi/public/swagger-ui/swagger-ui-es-bundle-core.js:2 | module 726 `first`: the first chunk, which is all the bytes when there is one |
| BufferList.BufferList.GetBuffer | otoroshi/public/swagger-ui/swagger-ui-es-bundle-core.js:2 | module 726 `_getBuffer`: the first n bytes, taken across chunks; the nodes used up are unlinked and the one used in part is cut |
| BufferList.BufferList.Consume | otoroshi/public/swagger-ui/swagger-ui-es-bundle-core.js:2 | module 726 `consume`: exactly the first n bytes are removed and returned, and head, tail and node count stay consistent |
| ReadableView.GivenAndLeft | otoroshi/public/swagger-ui/swagger-ui-es-bundle-core.js:2 | module 412 `fromList`: what is returned, what is dropped and what is left make up the buffer; bytes are dropped, or there is an error, only if `length` is less than the number of bytes there |
| ReadableView.SoundTake | otoroshi/public/swagger-ui/swagger-ui-es-bundle-core.js:2 | module 412, the end of `read`: conservation and the exact `length` survive every read that takes no more than a positive `length`; bytes are never invented |
| ReadableView.ReadMeans | otoroshi/public/swagger-ui/swagger-ui-es-bundle-core.js:2 | module 412 `read` and `howMuchToRead`: the amounts, as bytes of the buffer: the first n, all, the first chunk, or none, before and after the end |
| ReadableView.HighWaterMarkIsLeast | otoroshi/public/swagger-ui/swagger-ui-es-bundle-core.js:2 | module 412 `computeNewHighWaterMark`: the mark for n is the least power of two that is at least n, up to 2^30 |
| ReadableView.LivelyDelivers | otoroshi/public/swagger-ui/swagger-ui-es-bundle-core.js:2 | module 412: in the states that runs without user code reach, when no task is left, a stream that flows has emitted all bytes, and `end` after the end |
| ReadableStream.Readable.Prepare | otoroshi/public/swagger-ui/swagger-ui-es-bundle-core.js:2 | module 412 `howMuchToRead`: until some read was short, never more is asked for than there is |
| ReadableStream.Readable.HowMuchToRead | otoroshi/public/swagger-ui/swagger-ui-es-bundle-core.js:2 | module 412 `howMuchToRead`: the amount, the new high-water mark and `needReadable` for every argument, in and out of flowing mode, before and after the end; it throws when it looks for a first chunk that is not there. `ReadableView.ReadMeans` and `HighWaterMarkIsLeast` say what the amounts and the marks mean |
| ReadableStream.Readable.FromList | otoroshi/public/swagger-ui/swagger-ui-es-bundle-core.js:2 | module 412 `fromList`, whatever `length` says: the first bytes of the buffer, or all; null when `length` is 0; an error when it is negative and there are several chunks |
| ReadableStream.Readable.Take | otoroshi/public/swagger-ui/swagger-ui-es-bundle-core.js:2 | module 412, the end of `read`: `length` is reduced by what was asked for; the read is short, and `length` negative, if and only if that is more than a positive `length` |
| ReadableStream.Readable.Read | otoroshi/public/swagger-ui/swagger-ui-es-bundle-core.js:2 | module 412 `read`, from every state: keeps the invariant whatever user code runs in it. Without user code, and as long as no read was short, it returns the first n bytes if they are there; if less are there, all of them after the end, and before it null, with `needReadable` set; `read()` returns all bytes, or the first chunk in flowing mode; and if `_read` pushes a chunk at once, the same with that chunk. Bytes returned are emitted. It can be short if `_read` is called before two bytes or more are taken, and is short if `_read` takes so many that less are left. A read that finds the end, or takes the last bytes after it without asking for exactly that many, schedules `end`; `_read` is called exactly when less than the high-water mark would be left, or a listener waits; `read(0)` calls it if there is room, and announces what is there |
| ReadableStream.Readable.PushChunk | otoroshi/public/swagger-ui/swagger-ui-es-bundle-core.js:2 | module 412 `push` of a chunk: nothing after the end; an empty chunk only asks for more; otherwise the bytes are emitted at once, or buffered with all fields that depend on it |
| ReadableStream.Readable.AddChunk | otoroshi/public/swagger-ui/swagger-ui-es-bundle-core.js:2 | module 412 `addChunk`: emitted at once when the stream flows, nothing waits and `_read` is not running, else buffered, and a listener that waits will be told; in both cases more is asked for |
| ReadableStream.Readable.PushEnd | otoroshi/public/swagger-ui/swagger-ui-es-bundle-core.js:2 | module 412 `onEofChunk`: marks the end without losing bytes; it is announced at once, or later while `_read` runs or when that is scheduled already |
| ReadableStream.Readable.EmitReadableNow | otoroshi/public/swagger-ui/swagger-ui-es-bundle-core.js:2 | module 412 `emitReadable_`: `readable` is emitted if there is something to read or nothing more to come; when its listener does nothing, `needReadable` is set if there is room, and in flowing mode the buffer is emptied and `end` scheduled after the end |
| ReadableStream.Readable.Flow | otoroshi/public/swagger-ui/swagger-ui-es-bundle-core.js:2 | module 412 `flow`: the loop ends for every user code; when there is none, flowing mode empties the buffer, has called `_read` before the end, and has scheduled `end` after it; another mode changes nothing |
| ReadableStream.Readable.ReadMore | otoroshi/public/swagger-ui/swagger-ui-es-bundle-core.js:2 | module 412 `maybeReadMore_`: the loop ends for every user code; `_read` is called if there is room, `readingMore` is reset unless user code throws, and nothing scheduled is lost |
| ReadableStream.Readable.ResumeNow | otoroshi/public/swagger-ui/swagger-ui-es-bundle-core.js:2 | module 412 `resume_`: calls `_read` if there is room and a listener in between; when user code does nothing, the scheduled resume is over, and a flowing stream has emptied its buffer and scheduled `end` after the end |
| ReadableStream.Readable.End | otoroshi/public/swagger-ui/swagger-ui-es-bundle-core.js:2 | module 412 `endReadableNT`: emits `end` if, and only if, it was not emitted and `length` is 0; a listener is called |
| ReadableStream.Run | otoroshi/public/swagger-ui/swagger-ui-es-bundle-core.js:2 | module 412: every state of every run, with any user code, throwing or not, is one of those that `Conserved` speaks of; no read is short if `_read` neither reads nor pauses. If listeners do nothing and `_read` pushes later, then whenever all tasks have run, nothing waits to be announced or resumed, and a stream that flows has emitted every byte pushed, and `end` if it was ended |
| ReadableStream.Conserved | otoroshi/public/swagger-ui/swagger-ui-es-bundle-core.js:2 | module 412: in those states, as long as no read was short, the bytes delivered, then the bytes buffered, are the bytes pushed, `length` counts those buffered, and `end` came at most once, with everything delivered; no read was short unless one was risky; nothing was ever made up |
| ReadableStream.CanBeShort | otoroshi/public/swagger-ui/swagger-ui-es-bundle-core.js:2 | module 412 `read`: every risky read, which calls `_read` and then takes two bytes or more, is short for some `_read`, so that the condition is exact |
| ReadableStream.ReadInsideRead | otoroshi/public/swagger-ui/swagger-ui-es-bundle-core.js:2 | module 412: a run in which a `read(3)` of five bytes calls a `_read` that itself calls `read(3)`: `length` becomes -1 |
| ReadableStream.LosesAByte | otoroshi/public/swagger-ui/swagger-ui-es-bundle-core.js:2 | module 412: the run goes on: after two more chunks `length` is positive again and too small by one, and `read()` loses the last byte |
| WritableStream.Writable.WriteChunk | otoroshi/public/swagger-ui/swagger-ui-es-bundle-core.js:2 | module 708 `write`: refused after `end`; else accepted as the next write, and held back or passed on, past the writes that wait if any; the answer says whether the size stays below the high-water mark, and sets `needDrain` if not |
| WritableStream.Writable.HoldBack | otoroshi/public/swagger-ui/swagger-ui-es-bundle-core.js:2 | module 708 `writeOrBuffer`: while a write is in flight or the stream is corked, the write joins the end of the queue |
| WritableStream.Writable.PassOn | otoroshi/public/swagger-ui/swagger-ui-es-bundle-core.js:2 | module 708 `writeOrBuffer`: otherwise it is the next one to reach `_write` |
| WritableStream.Writable.DoWrite | otoroshi/public/swagger-ui/swagger-ui-es-bundle-core.js:2 | module 708 `doWrite`: one write in flight, whatever the `_write` of the user does meanwhile, and `sync` cleared afterwards; if that completes it at once and writes again from within `clearBuffer`, the new write goes past those that wait |
| WritableStream.Writable.ClearBuffer | otoroshi/public/swagger-ui/swagger-ui-es-bundle-core.js:2 | module 708 `clearBuffer`: passes the first queued write on, and the next ones until one stays in flight or none is left |
| WritableStream.Writable.OnWrite | otoroshi/public/swagger-ui/swagger-ui-es-bundle-core.js:2 | module 708 `onwrite`: takes the completed write out of flight, passes the next queued one on if nothing holds it back, and its own callback is called now, or queued for the next tick if the write was completed at once |
| WritableStream.Writable.FinishMaybe | otoroshi/public/swagger-ui/swagger-ui-es-bundle-core.js:2 | module 708 `finishMaybe`: `finish` is emitted if, and only if, the stream needs to finish and no callback is pending, whatever the listeners do |
| WritableStream.Writable.OnWriteDrain | otoroshi/public/swagger-ui/swagger-ui-es-bundle-core.js:2 | module 708 `onwriteDrain`: `drain` is emitted when `length` is 0 and it was asked for, and afterwards is not due any more |
| WritableStream.Writable.UncorkStream | otoroshi/public/swagger-ui/swagger-ui-es-bundle-core.js:2 | module 708 `uncork`: one level less; at the last level, the first queued write is passed on unless one is in flight or being passed on |
| WritableStream.Writable.EndStream | otoroshi/public/swagger-ui/swagger-ui-es-bundle-core.js:2 | module 708 `end`: the stream is ending, whatever was corked is let go, and pending writes are kept |
| WritableStream.Writable.RunTick | otoroshi/public/swagger-ui/swagger-ui-es-bundle-core.js:2 | module 708 `afterWrite` in the next tick: the callback of the oldest completed write is called; then `finish` is not due, nor is a `drain` that nothing leads to |
| WritableStream.Writable.Perform | otoroshi/public/swagger-ui/swagger-ui-es-bundle-core.js:2 | module 708: any call by user code keeps the invariant, and has its own effect |
| WritableStream.Run | otoroshi/public/swagger-ui/swagger-ui-es-bundle-core.js:2 | module 708: in every state of every run, each accepted write is in one place, at most one is in flight, `length` is the size in flight plus the sizes queued, and `pendingcb` counts the callbacks to come; between events, the stream is finished if, and only if, it was ended and every accepted write was called back; a queued write waits for the one in flight or for `uncork`; an ended stream with nothing corked, in flight or in a tick is finished; a writer that was told to wait has something that leads to `drain`; the writes passed on, then those queued, are in the order of the writes if, and only if, none overtook queued ones |
| WritableStream.InOrder | otoroshi/public/swagger-ui/swagger-ui-es-bundle-core.js:2 | module 708: the chunks reach `_write` in the order of the writes if, and only if, no write has overtaken queued ones |
| WritableStream.OvertakingWrite | otoroshi/public/swagger-ui/swagger-ui-es-bundle-core.js:2 | module 708 `writeOrBuffer`: a write that is passed on keeps the order if, and only if, no write waits; writes can wait at that point only while `clearBuffer` runs |
| WritableStream.OutOfOrder | otoroshi/public/swagger-ui/swagger-ui-es-bundle-core.js:2 | module 708: a run in which the fourth write reaches `_write` before the second: three writes wait, the stream is uncorked, and `_write` completes the first at once and writes again |
| WritableStream.AtMostOnce | otoroshi/public/swagger-ui/swagger-ui-es-bundle-core.js:2 | module 708: no chunk reaches `_write` twice, and none that reached it still waits |
| WritableStream.FinishIsLast | otoroshi/public/swagger-ui/swagger-ui-es-bundle-core.js:2 | module 708: once finished, `finish` was emitted once, after `end`, and every accepted write reached `_write` and had its callback called exactly once |
| NextTick.Queue.NextTick | otoroshi/public/swagger-ui/swagger-ui-es-bundle-core.js:2 | module 606 `nextTick`: the item joins the queue, and a drain is scheduled exactly when it is the first one and no drain runs |
| NextTick.Queue.RunCurrent | otoroshi/public/swagger-ui/swagger-ui-es-bundle-core.js:2 | module 606 `drainQueue`, the inner loop: the items run in order, and after a throw the rest is still there |
| NextTick.Queue.DrainQueue | otoroshi/public/swagger-ui/swagger-ui-es-bundle-core.js:2 | module 606 `drainQueue`: it is left draining if, and only if, an item threw; otherwise all items have run, those enqueued meanwhile included, and no timer is set; after a throw the thrower is at the index, with a timer for the rest |
| NextTick.Queue.FireDrain | otoroshi/public/swagger-ui/swagger-ui-es-bundle-core.js:2 | module 606: the drain timer leads to the same: everything has run, or an item threw; if no item is going to throw, the first |
| NextTick.Queue.FireCleanup | otoroshi/public/swagger-ui/swagger-ui-es-bundle-core.js:2 | module 606 `cleanUpNextTick`: the rest of the current queue goes before the items enqueued since, and the thrower is not run again; unless another item throws, everything has run |
| NextTick.Queue.Settle | otoroshi/public/swagger-ui/swagger-ui-es-bundle-core.js:2 | module 606: once the timers have fired, all the items ever enqueued have run, in order, whatever was thrown |
| NextTick.Run | otoroshi/public/swagger-ui/swagger-ui-es-bundle-core.js:2 | module 606: in every run the idle invariant holds between events, and every item given to `nextTick` from outside is counted |
| NextTick.InOrder | otoroshi/public/swagger-ui/swagger-ui-es-bundle-core.js:2 | module 606: the n-th item that runs is the n-th one enqueued, and no item is lost |
| NextTick.AtMostOnceAndTimed | otoroshi/public/swagger-ui/swagger-ui-es-bundle-core.js:2 | module 606: no item runs twice, and unrun work has exactly one pending timer |
| CallbackLists.Callbacks.Push | otoroshi/public/javascripts/jquery.js:2 | `ce.Callbacks`, the recursive part of `add`: the function joins the end, unless `unique` finds it there; during a pass it is passed over only if the index is already past the end |
| CallbackLists.Callbacks.Splice | otoroshi/public/javascripts/jquery.js:2 | `remove`: taking one entry out and adjusting the firing index neither skips nor repeats an entry |
| CallbackLists.Callbacks.Remove | otoroshi/public/javascripts/jquery.js:2 | `remove`: all occurrences of the function go, the rest keeps its order, and the pass goes on at the right entry |
| CallbackLists.Callbacks.Lock | otoroshi/public/javascripts/jquery.js:2 | `lock`: no more firing; the list is disabled when there is nothing to remember and it does not fire |
| CallbackLists.Callbacks.Disable | otoroshi/public/javascripts/jquery.js:2 | `disable`: the list is gone for good |
| CallbackLists.Callbacks.Advance | otoroshi/public/javascripts/jquery.js:2 | the firing loop: the next entry is called with the arguments of the pass |
| CallbackLists.Callbacks.EndPass | otoroshi/public/javascripts/jquery.js:2 | the firing loop: the pass that ends is complete |
| CallbackLists.Callbacks.Finish | otoroshi/public/javascripts/jquery.js:2 | the end of firing: memory, and the list emptied or disabled when locked |
| CallbackLists.Place.SpliceKeeps | otoroshi/public/javascripts/jquery.js:2 | `remove`: dealt-with and pending entries stay apart when an entry goes and the index moves |
| CallbackLists.Place.PushKeeps | otoroshi/public/javascripts/jquery.js:2 | `add`: and when an entry is added |
| CallbackLists.Page.FireLoop | otoroshi/public/javascripts/jquery.js:2 | the firing loop with callbacks that call back into the list: it ends, and every pass that it makes is complete; callbacks that do nothing are called one after the other, with the arguments |
| CallbackLists.Page.Add | otoroshi/public/javascripts/jquery.js:2 | `add`: the entries join the end unless the list is disabled; with something to remember, and no pass under way, the new entries get a pass of their own, with the arguments remembered |
| CallbackLists.Page.FireWith | otoroshi/public/javascripts/jquery.js:2 | `fireWith`: unless the list is locked, a pass over all entries, at once or after the one under way; callbacks that do nothing are called in order, with the arguments, which are remembered if the list has memory |
| CallbackLists.Page.Perform | otoroshi/public/javascripts/jquery.js:2 | any call made by a callback keeps the pass under way consistent |
| CallbackLists.Run | otoroshi/public/javascripts/jquery.js:2 | for all options, callbacks and calls, every pass calls its entries at most once, in list order, and misses no survivor unless a callback emptied the list or stopped the pass |
| CallbackLists.SurvivorCalledOnce | otoroshi/public/javascripts/jquery.js:2 | a complete pass that was not cut calls every surviving entry exactly once |
| CallbackLists.EmptySkips | otoroshi/public/javascripts/jquery.js:2 | `empty` inside a pass, then `add`: the new entry survives and is not called |
| Deferreds.Deferred.constructor | otoroshi/public/javascripts/jquery.js:2 | `ce.extend({Deferred})`: three lists, two of which start with the handlers that set the state, disable the other list and lock the progress list |
| Deferreds.Deferred.AddTo | otoroshi/public/javascripts/jquery.js:2 | `done`, `fail` and `progress`: the callbacks are added unless the list is disabled, and run at once when the outcome is known |
| Deferreds.Deferred.FireWith | otoroshi/public/javascripts/jquery.js:2 | `resolveWith`, `rejectWith` and `notifyWith`: the first one that resolves or rejects decides, with its arguments; later ones change nothing; `notify` makes a pass, or queues one behind the pass under way |
| Deferreds.Deferred.FireLoop | otoroshi/public/javascripts/jquery.js:2 | the firing loop of one list, nested in those of the others: the outcome is set and never undone |
| Deferreds.Deferred.CallHandler | otoroshi/public/javascripts/jquery.js:2 | the handlers added by the constructor have their effects in order before any user callback runs; a user callback runs, and decides if it resolves first |
| Deferreds.Deferred.Perform | otoroshi/public/javascripts/jquery.js:2 | any request keeps the invariant, has its own effect, and leaves passes under way and the outcome alone |
| Deferreds.Run | otoroshi/public/javascripts/jquery.js:2 | for every re-entrant run, the invariant holds, no list fires between requests from outside, and a request that resolves or rejects leaves it decided |
| Deferreds.Outcome | otoroshi/public/javascripts/jquery.js:2 | once resolved, every done callback has run exactly once, in the order of addition and with the same arguments, and no fail callback has run; symmetrically when rejected; none before |
| Deferreds.OutcomeSoFar | otoroshi/public/javascripts/jquery.js:2 | while callbacks run, those called so far are the first ones, in order, with the arguments of the outcome, and none of the other list |
| WebAuthn.Page.Start | otoroshi/javascript/src/webauthn.js:21-31 | `ceremony`: the previous ceremony is aborted, the new one is current, and asks at once or after the pause |
| WebAuthn.Page.Answer | otoroshi/javascript/src/webauthn.js:37-43 | the browser resolves: the ceremony settles exactly when there are credentials and it was not aborted, and then it was current |
| WebAuthn.Page.Refuse | otoroshi/javascript/src/webauthn.js:44-58 | the browser rejects: superseded, retried with the next delay, or failed; a late outcome of an old ceremony leaves the current one alone |
| WebAuthn.Page.TimerFires | otoroshi/javascript/src/webauthn.js:49-61 | a pause or a retry delay is over: the browser is asked once more |
| WebAuthn.Page.Abort | otoroshi/javascript/src/webauthn.js:76-81 | `abortCeremony`: the current ceremony is aborted and forgotten |
| WebAuthn.Continue | otoroshi/javascript/src/webauthn.js:21-81 | over all interleavings of any number of ceremonies: each start is a ceremony; what was aborted unsettled never settles, and what was settled stays as it is |
| WebAuthn.Run | otoroshi/javascript/src/webauthn.js:10-81 | in every reachable state, the current ceremony is neither aborted nor settled, and any ceremony that is neither is the current one |
| WebAuthn.Bounded | otoroshi/javascript/src/webauthn.js:8-61 | at most one ceremony is live; each makes at most 6 calls to the browser and waits at most 8450 ms, whatever the browser answers |
| WebAuthn.WaitedBefore | otoroshi/javascript/src/webauthn.js:8-61 | the delays before the attempts, added up: 0, 400, 1200, 2800, 5200 and 8400 ms |
| KeyManager.FirstMatching | otoroshi/app/ssl/X509KeyManagerSnitch.java:123-125 | the alias chosen is the first one that matches the host |
| KeyManager.X509KeyManagerSnitch.ChooseEngineServerAlias | otoroshi/app/ssl/X509KeyManagerSnitch.java:112-205 | a matching alias of the manager comes before a cached certificate, a cached one is not generated again, the manager's own pair is stored for the session in the first case, and the pair stored is the one that the getters answer for the alias, in the first case if that does not start with `tmp-gen-` |
| KeyManager.X509KeyManagerSnitch.Generated | otoroshi/app/ssl/X509KeyManagerSnitch.java:143-157 | a generated certificate is cached under its host, given to the provider unless it is marked, and stored for the session |
| KeyManager.X509KeyManagerSnitch.Step | otoroshi/app/ssl/X509KeyManagerSnitch.java:82-205 | any step keeps the cache keyed by host and changes what the getters depend on as `Next` says |
| KeyManager.Continue | otoroshi/app/ssl/X509KeyManagerSnitch.java:82-205 | over all interleavings, what the getters depend on is what `After` says |
| KeyManager.ManagerAlias | otoroshi/app/ssl/X509KeyManagerSnitch.java:82-110 | over all interleavings, key and chain of an alias without the prefix do not change until the manager does |
| KeyManager.StableIff | otoroshi/app/ssl/X509KeyManagerSnitch.java:82-205 | key and chain of a cached alias are the same after every interleaving that does not evict the entry, whatever else happens, if and only if no handshake waits for a certificate for the host |
| KeyManager.Run | otoroshi/app/ssl/X509KeyManagerSnitch.java:82-205 | in every reachable state, a cached `tmp-gen-h` entry holds a certificate generated for h, and what the getters depend on is what `After` says |
| KeyManager.TwoGenerations | otoroshi/app/ssl/X509KeyManagerSnitch.java:133-155 | two handshakes that both miss the cache: afterwards the first session stores another key than the getters answer |
| KeyManager.OwnKeyIff | otoroshi/app/ssl/X509KeyManagerSnitch.java:82-110 | for a given cache and any manager, and for a given manager and any cache, the getters answer with the manager's own key, and with its own chain, for the alias if and only if it does not start with `tmp-gen-` |
| KeyManager.AfterEviction | otoroshi/app/ssl/X509KeyManagerSnitch.java:82-110 | once the entry of a host is evicted, the getters ask the manager for the host itself, without the prefix |
| Release.Script.EnsureStep | scripts/release/github-action-release.js:139-157 | a step that has a recorded stop writes nothing and is passed; else a start is written, then a stop if and only if its work succeeds, an error if and only if it fails, and nothing if the script dies |
| Release.Script.BuildVersion | scripts/release/github-action-release.js:249-257 | the six build steps run in the order of the pipeline |
| Release.Script.ReleaseOtoroshi | scripts/release/github-action-release.js:377-420 | the first record of a run is the start of the first step that had not stopped; a run that gets to its end completes the pipeline; a dry run does not go past the eighth step |
| Release.Run | scripts/release/github-action-release.js:134-420 | over any number of runs with deaths and failures anywhere, the steps with a recorded stop are exactly the executions that succeeded, in order; each record of the log is about the first step that had not stopped before it, and each stop or error follows its start |
| Release.StoppedIsPrefix | scripts/release/github-action-release.js:139-157 | the steps with a recorded stop are a prefix of the pipeline, once each |
| Release.NothingAfterStop | scripts/release/github-action-release.js:139-157 | no step starts, fails or stops again after its stop |
| Release.EarlierStopped | scripts/release/github-action-release.js:388-417 | no step has a record before all the earlier ones have stopped |
| Consent.EraseIsDrop | docs/assets/js/tarteaucitron/tarteaucitron.js:861-871 | `cookie.create`: replacing the matches of the regular expression by nothing drops exactly the entries of the key |
| Consent.CreateIsPut | docs/assets/js/tarteaucitron/tarteaucitron.js:861-871 | `cookie.create`: on the printed store, the new string is the printed map update: others unchanged, one entry for each key |
| Consent.KeyedPut | docs/assets/js/tarteaucitron/tarteaucitron.js:861-871 | the update keeps one entry for each key and changes no other key |
| Consent.Tarteaucitron.Create | docs/assets/js/tarteaucitron/tarteaucitron.js:861-876 | `cookie.create`: the cookie is the printed store after the update, whatever else is in the jar |
| Consent.Tarteaucitron.Read | docs/assets/js/tarteaucitron/tarteaucitron.js:877-894 | `cookie.read`: splitting, trimming and testing prefixes finds the value of the cookie in any jar |
| Consent.ReadAfterSet | docs/assets/js/tarteaucitron/tarteaucitron.js:876-894 | what is set is what is read, from any jar |
| Consent.SearchIsLookup | docs/assets/js/tarteaucitron/tarteaucitron.js:404-407 | `indexOf(key + '=...')`: finds exactly the entries of the store when no key is a suffix of another one |
| Consent.SearchExactIff | docs/assets/js/tarteaucitron/tarteaucitron.js:404-407 | for a set of keys, the search agrees with the store for all stores if, and only if, no key is a suffix of another |
| Consent.SuffixConfuses | docs/assets/js/tarteaucitron/tarteaucitron.js:404-407 | a key that is a suffix of another one is found without an entry of its own |
| Consent.Tarteaucitron.AddService | docs/assets/js/tarteaucitron/tarteaucitron.js:394-475 | `addService`: a service is launched if, and only if, it is allowed, and once; another gets its fallback called; an answer is kept and acted upon; without one the service is allowed, or waits, exactly by the stated conditions |
| Consent.Tarteaucitron.Respond | docs/assets/js/tarteaucitron/tarteaucitron.js:532-555 | `respond`: the state takes the answer, other services keep theirs; the service is launched if, and only if, the answer is yes and it was not; the page asks for a reload exactly when what runs, and was not denied before, is denied |
| Consent.Tarteaucitron.RespondAll | docs/assets/js/tarteaucitron/tarteaucitron.js:508-531 | `respondAll`: every service of the list has the answer, with the same effects, and no other service is touched |
| Consent.Step | docs/assets/js/tarteaucitron/tarteaucitron.js:394-555 | any call of a visit has its effect, and a service is launched only in a step after which its allowance is stored |
| Consent.PrintedAnswers | docs/assets/js/tarteaucitron/tarteaucitron.js:861-871 | which word stands for which answer in the cookie |
| Consent.Run | docs/assets/js/tarteaucitron/tarteaucitron.js:394-894 | in every run, a true or false state is the stored answer, what is allowed was launched, the last answer counts, and whatever was launched had an allowance stored for it |
| Consent.ConsentHonoured | docs/assets/js/tarteaucitron/tarteaucitron.js:508-555 | whatever the page acts on is what a later visit will read, and not the opposite answer |

## Left out

- ReadableStream.Run: a call that throws ends the user code that made it; user code that catches the error and goes on is not followed. A negative length given to `concat` throws, as it does for a `Buffer` of more than 2^31 bytes.
- WritableStream.Writable.OnWrite: a second completion of one write throws in the source, and here changes nothing, as if user code caught the error.
- Deferreds.Deferred.constructor: the second list of each tuple, which only `then` fills, and the handlers that disable and lock it, are not there.
- Deferreds.Deferred.CallHandler: the handler that fires the second list, which is empty without `then`, is left out.
- Consent.Run: a run starts with a cookie that is absent or was printed by the store for plain keys; a cookie written in another form, by hand or by another script, is not considered.
- KeyManager.X509KeyManagerSnitch.ChooseEngineServerAlias: coherence is stated for aliases of the manager without the prefix; `OwnKeyIff` shows that this is the exact condition. A call is one step, except that the generation of a certificate is a second one, so that handshakes can overlap there and nowhere else.
- HashStream.DigestOf: the digest is stated for messages below 2^53 bits, up to which JavaScript numbers count exactly; `Hash.update` is modelled on bytes, without the conversion of strings.
- Words: a JavaScript bitwise operator is modelled on the residues of its operands modulo 2^32; signs left by `|0` or `^` are not represented.
- Streams: errors, `destroy`, `_writev`, `_final`, `unshift` on a stream, object mode, encodings, `pipe`, a callback given to `end`, and a push after the end (which emits an error).
- `highWaterMark` rounding in `Readable`: modelled as the least power of two, without the bit manipulation that computes it.
- `listenerCount`: its answers are given with the request that leads to them.
- Buffer: base64, hex, latin1 and UCS-2, floating point numbers, and the two-byte mode of the search, whose backward branch does not rescale its result.
- Strings that are not well-formed UTF-16, with a byte budget: `Utf8ToBytes` covers them, but no property beyond its recursive form is stated.
- Infinite runs: scripts and event sequences are finite, of any length.
- `Callbacks` and `Deferred`: `then`, `pipe`, `when` and `catch`; the second list of each tuple, which only `then` fills; callbacks that throw; `fired` and `locked` as queries.
- `nextTick`: an item enqueues all its new items before it returns or throws.
- WebAuthn: the credentials themselves, and a browser without `navigator.credentials`. `isBrowserBusy` is the answer of the browser.
- Key manager: sizes and expiry times of the caches (entries are evicted at any time), client aliases, certificate parsing, and exceptions of the wrapped manager. Certificate generation and `RegexPool` are oracles.
- Release: what the steps do, lines of the log torn by a crash in the middle of a write, and two runs at the same time.
- Consent: markup, colours, the `pro` and `checkCount` calls, cookie expiry, the parsing of the element id in `respond`, and services whose `js` or `fallback` calls back into the store.
- HTTP proxying, the Scala server, the React pages, the Swagger UI components and the other generated bundles.
