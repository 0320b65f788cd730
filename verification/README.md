# A verified model of the csenc codec

csenc is the stream format of encrypted Cloud Sync files. A stream is a magic
string with its checksum, a dict of metadata that wraps a session key, a run of
data dicts with AES-CBC ciphertext of the (optionally LZ4-framed) plaintext, and
a closing dict with the plaintext's MD5. This project models the library that
writes and reads such streams and proves what the two sides owe each other:

- **The object stream** (`Wire`, `WireEnds`, `WireReader`, `Encoder`): the
  recursive parser and the sticky-error printer are inverse to each other; where
  a stream may end, and what the printer leaves behind when its output refuses a
  write, is settled for all inputs.
- **The writer** (`EncryptPipe`, `Dicts`, `Writer`): mutable objects with
  residual buffers, proved to produce one function of the options, the
  randomness and what was written.
- **The reader** (`Metadata`, `Fields`, `Envelope`, `Meaning`, `Objects`, `Exits`,
  `Decrypt`): the streaming code with its one-chunk lookahead accepts exactly the
  streams that a one-shot description (`Meaning`) gives a plaintext, and writes
  exactly that plaintext; the same is described a second time through the list of
  top-level objects (`Objects`) and the last field of each name (`Fields`), and the
  two descriptions agree. How Decrypt leaves the payload pipe, and with which error
  it returns, is decided on the bytes (`Exits`).
- **Both together** (`RoundTrip`, `EndToEnd`, `FrameEnd`, `Truncation`): every
  written stream has what was written as its plaintext, for every slicing of it,
  every version, with either credential; when Decrypt returns it, for every LZ4
  reader, and the one case in which it does not; and which strict prefixes of a
  written stream still pass for streams, with which plaintext.
- **The concurrent parts** (`PipeWorker`, `ReaderSteps`, `Batch`, `BatchSteps`):
  step systems whose safety and progress hold over all interleavings, with the
  places where they wait for somebody else made explicit.

Bytes are integers from 0 to 255 (`Bytes`), Go strings are byte sequences, and
hexadecimal and base64 are spelled out (`TextCodecs`). AES, MD5, RSA-OAEP
(section 7.1 of RFC 8017) and LZ4 are arbitrary functions that obey the few laws
collected in `Primitives.Family.Lawful`; every theorem is for all of them at
once, and `Primitives.TrivialIsLawful` shows that the laws can be met. CBC
(section 6.2 of NIST SP 800-38A) and PKCS#7 padding (section 6.3 of RFC 5652)
are defined and their laws proved. Randomness is a byte sequence drawn from
front to back; outputs are objects that grow and may refuse any call.

Where the code and its comments part, the model follows the code and says
exactly when the comment holds:

- The comment on `StreamReader.Next` (csenc/wire.go:70-71) promises a clean end
  for a fully consumed stream. The code also takes an input that breaks off at the
  start of any field, however many dicts are open, for a clean end; a single dict
  tag is one (`WireEnds.OpenDictEndsCleanly`). `WireEnds.CleanEnd` decides every
  input by a flat scan. For written streams this means that some strict prefixes
  pass, without their MD5 check; `Truncation.TruncatedStream` says which, and
  `Truncation.CutAfterFirstDict` gives one.
- The comment on `Reader` (csenc/reader.go:21-22) promises that a read after Close
  returns io.EOF or the error that ended the decryption. Every such read returns
  io.ErrClosedPipe, so the promise is kept if and only if that is the error with
  which the decryption ended (`ReaderSteps.AfterCloseIff`); there is a run in which
  it is not (`ReaderSteps.ReadAfterCloseFails`).
- finish and abort each expect one result of the LZ4 worker (csenc/decrypt.go:448),
  but some exits of Decrypt go through neither. The result is not received, and the
  worker is left behind, if and only if the first flaw of the stream from its first
  data dict on is a top-level value that is no dict or has no known type, or a
  metadata dict with an undecodable key, and the LZ4 reader has refused nothing before
  (`Exits.StrandedIff` on the bytes, `PipeWorker.ReportTakenOnStream` over all
  interleavings), as long as the output refuses nothing. A written header, one data
  dict and a string are such a stream (`RoundTrip.StringAfterPayload`).
- The Writer is the "encoding counterpart of Reader" (csenc/encrypt.go:152), but for
  one case. When the LZ4 frame fills whole chunks of 32768 bytes, the last data dict
  is pure padding and finish makes an empty write to the pipe. If the LZ4 reader has
  stopped at the end of its frame by then, the pipe is closed
  (csenc/decrypt.go:457-461), the write is refused, and Decrypt fails on a correctly
  written stream. For readers that read on within their frame this is the only such
  case (`EndToEnd.EncryptThenDecrypt`, `EndToEnd.ReadBackIff`);
  `FrameEnd.ExactChunkFails` is one.
- After a refused payload write the writer's `failed` stays nil (csenc/encrypt.go:207),
  so that a later Close can return nil. Without compression its nil means a complete
  stream if and only if no Write has been refused (`Writer.Writer.Close`,
  `Writer.CloseAfterRefusal`).
- Close "terminates the underlying decryption pipeline" (csenc/reader.go:94), but
  it cannot interrupt a Read of the encrypted input: it can return without more
  input if and only if Decrypt is not waiting for some
  (`ReaderSteps.CloseReturnsIff`, `ReaderSteps.CloseSettles`). In the same way a call
  of the payload pipe waits for the output exactly when the worker is inside a write
  to it (`PipeWorker.StuckIff`).

The LZ4 reader is described by what it makes of the bytes it has taken so far.
The main results hold for every such reader, with "the reader takes all that it is
given" (`Exits.ReaderTakesAll`) as one side of the equivalence. Two hypotheses say
when it does: `LzReadsOn`, that within an input it can decode it asks for more, and
`LzDrains`, that it does so up to and including the end.

## Model

| member | source | states |
|---|---|---|
| RoundTrip.WrittenStreamReadsBack | csenc/encrypt.go:189-358 | For every plaintext, slicing, version, compression mode and matching credential, the plaintext that a written stream has for the reader is the concatenation of the written slices |
| EndToEnd.EncryptThenDecrypt | csenc/encrypt.go:84-96 | Running Encrypt and then Decrypt over outputs that take everything: Encrypt fails only on unacceptable options or a header that cannot be started; Decrypt returns nil, and then has written exactly the slices, if and only if the LZ4 reader, if one is used, takes all pieces of the frame; for a reader that reads on within its frame this fails exactly when the frame fills whole chunks and the reader stops at its end, for a draining reader never |
| EndToEnd.ReadBackIff | csenc/decrypt.go:502-506 | Under the hypothesis LzReadsOn a written stream is read back unless it is compressed, its frame is a multiple of 32768 bytes long and the reader stops at the end of it |
| EndToEnd.WrittenCalls | csenc/decrypt.go:477-514 | Decrypt of a written stream opens one pipe and writes to it the payload in pieces of 32768 bytes and a last, shorter and perhaps empty one |
| FrameEnd.ExactChunkFails | csenc/decrypt.go:502-506 | With a lawful LZ4 stand-in whose reader stops at its frame end, the written stream of 16383 zeros has a plaintext that Decrypt does not return |
| FrameEnd.MarkedIsLawful | csenc/decrypt.go:454-463 | That stand-in obeys all laws, reads on within every frame and stops at the end of each |
| RoundTrip.EncryptTwoSplits | csenc/encrypt.go:373-393 | Without compression, two ways of cutting the same plaintext into writes give byte-identical files |
| RoundTrip.StreamGrammar | csenc/encrypt.go:210-245 | A finished stream is magic, one leading dict, one or more data dicts and one file_md5 dict; payloads are aligned whole chunks up to the last; n cipher input bytes make 16*(n/16+1) payload bytes plus 26 per dict |
| RoundTrip.WrittenStreamInspects | csenc/decrypt.go:255-292 | Inspect of any written stream returns, without a credential, exactly the record the writer made |
| RoundTrip.InspectedOptions | csenc/encrypt.go:257-342 | Inspect of a written stream reports version, compression, encryption and file name as the options ask for them (3.1 and compressed by default), the digest "md5", and the salt, wrapped keys and hashes as they were prepared |
| RoundTrip.StreamCollected | csenc/decrypt.go:66-128 | Reading a written stream gathers the written record as head, the written chunks in order as payloads, and the MD5 of the plaintext as last metadata |
| RoundTrip.SectionCollected | csenc/decrypt.go:96-123 | A run of printed data dicts in front of any tail is gathered payload by payload and leaves the tail |
| RoundTrip.FirstSection | csenc/decrypt.go:96-114 | The first data dict fixes the head, for Decrypt and Inspect alike |
| RoundTrip.PayloadDecoded | csenc/decrypt.go:477-518 | Decrypting, unpadding and decompressing what the cipher stage produced gives back the written bytes, for both compression modes |
| RoundTrip.HeaderCollected | csenc/decrypt.go:85-94 | The printed leading dict is read back into the record that was printed |
| RoundTrip.TrailerCollected | csenc/encrypt.go:509-516 | The printed trailer sets file_md5 and nothing else, and ends the stream |
| RoundTrip.MagicPassed | csenc/encrypt.go:456-463 | What writeMagic writes is what consumeMagic consumes, leaving exactly the rest |
| RoundTrip.LeadingModes | csenc/encrypt.go:331-342 | A written record passes the mode check, and its compress field tells whether LZ4 was used |
| Truncation.TruncatedStream | csenc/wire.go:74-76 | Of the strict prefixes of a written stream, exactly those have a plaintext that hold the header and a whole data dict and break off at the start of a field: with all data dicts it is everything that was written, with fewer what the held part of the payload unpads and decompresses to, if it does |
| Truncation.CutAfterFirstDict | csenc/decrypt.go:73-75 | Uncompressed, with byte 32767 of at least 32768 equal to 1: the stream cut after its first data dict has the first 32767 bytes as its plaintext |
| Truncation.FrontDecrypted | csenc/decrypt.go:477-493 | A strict front of the ciphertext in whole blocks decrypts to the front of the payload, which the padding does not reach |
| Decrypt.Decrypt | csenc/decrypt.go:51-147 | Over a reliable output Decrypt succeeds if and only if the stream has a plaintext and the LZ4 reader, if one is used, takes all that it is given; over any output success means that exactly the plaintext was written, and an error that a prefix of what the payloads up to the first flaw decode to was written; the metadata hook is called exactly when a data dict with supported modes is reached, before any payload byte; over a reliable output the error is the one that the bytes decide (Exits.ErrorOf), and the LZ4 worker is joined or left behind exactly as they decide; otherwise it can only be joined in addition |
| Objects.PlaintextIff | csenc/decrypt.go:51-147 | A second description of the plaintext, as an equivalence for all streams: magic and its MD5 in front; nothing but metadata dicts and data dicts with one or more whole blocks; at the first data dict a supported mode and a recoverable key; the blobs together decipher to a padded payload; the last recorded MD5, if any, is that of the plaintext |
| Objects.CollectIff | csenc/decrypt.go:66-128 | What the loop gathers is what the list of all top-level objects adds up to: the members of all metadata dicts, those in front of the first data dict, and the first "data" blob of every data dict |
| Objects.InspectIff | csenc/decrypt.go:255-292 | Inspect returns the members of the metadata dicts in front of the first data dict, absorbed, if and only if nothing else stands there, whatever follows |
| Objects.BadObjectRefused | csenc/decrypt.go:77-83 | A first object that is no dict, has no string type, or a type other than "metadata" and "data" is refused by Inspect and Decrypt as NotADict, NoType or UnknownType, and the stream has no plaintext |
| Objects.BadObjectCalls | csenc/decrypt.go:115-126 | With an open pipe such an object makes Decrypt return past it with that error; a data dict without a blob, or without whole blocks, makes it abort with NoPayload or DataUnaligned |
| Objects.HookedIff | csenc/decrypt.go:97-104 | The hook is called exactly when a data dict is reached behind metadata dicts alone whose fields ask for encryption and for LZ4 or nothing, and is given those |
| Objects.MismatchRejects | csenc/decrypt.go:329-366 | A recorded hash that does not match the password used, or the session key unwrapped, leaves no plaintext |
| Objects.AfterMagicIff | csenc/decrypt.go:294-311 | Exactly what follows the magic and its MD5 in hexadecimal is let past |
| Objects.EarlyErrors | csenc/decrypt.go:98-132 | A stream that ends behind metadata dicts alone is refused as one without data; an unsupported encrypt or compress and an unrecoverable key at the first data dict give each their own error |
| Objects.LateErrors | csenc/decrypt.go:130-142 | A stream that can be gathered whole is refused for its padding, because the LZ4 reader does not take all of it or finds the frame incomplete, or because its MD5 differs, in this order |
| Exits.CallsErrorIs | csenc/decrypt.go:468-518 | Calls that end in finish's write fail only because the LZ4 reader refuses or finds the frame incomplete; others end in the error behind them, unless a feed is refused before |
| Meaning.AcceptedStream | csenc/decrypt.go:105-142 | What acceptance means: supported modes, the key recovered under the inspected metadata, the output equal to the one-shot decoding of all payloads, and the last recorded file_md5 equal to the MD5 of the output |
| Meaning.HeadIsInspected | csenc/decrypt.go:97-104 | The metadata that govern the payload are those Inspect returns on the same bytes, and have supported modes |
| Meaning.CollectKeeps | csenc/decrypt.go:85-128 | Objects after the first data dict never change the head and only append payloads, all of them non-empty and aligned |
| Decrypt.TakeObject | csenc/decrypt.go:77-127 | One iteration of the main loop keeps the loop's state; an error over a reliable output means that the stream has no plaintext or the reader does not take it all; by then the worker's report has been received through abort or not, as the bytes decide if the output refuses nothing |
| Decrypt.Conclude | csenc/decrypt.go:130-146 | After the last object: success means the plaintext is out; over a reliable output failure means that there is none or that finish's write is not taken; the worker is joined |
| Decrypt.OpenPipe | csenc/decrypt.go:97-114 | At the first data dict: mode check, then the hook with a snapshot, then the key, then the pipe; a pipe exists exactly when modes and key are good |
| Decrypt.FeedPayload | csenc/decrypt.go:115-123 | A payload is fed, or refused and the pipe aborted with one receive of the report; a good payload is refused when the LZ4 reader or the output refuses, and over a reliable output only when the reader does not take all that it is given |
| Decrypt.DecryptPipe.constructor | csenc/decrypt.go:433-465 | The pipe starts empty with the key and iv derived from the session key |
| Decrypt.DecryptPipe.Feed | csenc/decrypt.go:477-493 | After each chunk the sink has the CBC plaintext of all chunks but the last and the last one's is pending; over a reliable output only empty or unaligned chunks and what the LZ4 reader does not take are refused; after an error nothing but plaintext of the chunks has gone out |
| Decrypt.DecryptPipe.Finish | csenc/decrypt.go:495-518 | Over a reliable output finishing succeeds if and only if the whole plaintext unpads and decompresses and the LZ4 reader takes the last write, and yields exactly that; with a worker, every way out of it receives the report exactly once |
| Decrypt.DecryptPipe.Abort | csenc/decrypt.go:520-525 | With a worker its report is received once, without one nothing happens |
| Decrypt.DecryptPipe.WriteSink | csenc/decrypt.go:468-475 | Output and hash advance together on the direct path; on the LZ4 path the worker takes the bytes bit by bit and may write output meanwhile, and the write is refused when the reader stops or the output refuses |
| Decrypt.DecryptPipe.WorkerRuns | csenc/decrypt.go:454-463 | The worker at work between two steps: it writes any part of the output it has, in any pieces, output and hash together, until a write is refused |
| Decrypt.DecryptPipe.AwaitWorker | csenc/decrypt.go:454-463 | When the report is received, all decoded output has reached output and hash, or the output has refused some, or the frame was incomplete; PipeWorker.PipeDecodes proves the same of every interleaving |
| Decrypt.TailDecides | csenc/decrypt.go:419-421 | Unpadding the held-back chunk decides the unpadding of everything |
| Meaning.StoppedRejects | csenc/decrypt.go:486-490 | Under the hypothesis LzDrains, a reader that stops within the early chunks although more follow means that the stream has no plaintext |
| Meaning.UnrecoveredRejects | csenc/decrypt.go:105-109 | A stream whose key cannot be recovered has no plaintext, whatever follows |
| Decrypt.Inspect | csenc/decrypt.go:255-292 | Inspect's loop computes the metadata in front of the first data dict, or the first error |
| Decrypt.ConsumeMagic | csenc/decrypt.go:294-311 | The three ways to reject the start of a stream, and otherwise exactly the rest is left |
| Envelope.KeyAgreement | csenc/decrypt.go:324-378 | For every key, salt, password and key pair, the key recovered by either credential is the one the writer fed to the payload KDF; the writer's test on the version and the reader's on the salt agree |
| Envelope.RecoverSessionKey | csenc/decrypt.go:324-378 | The code with its KDF and unpadding loops computes the recovered key or its precise error, the password branch first |
| Envelope.RecoverIff | csenc/decrypt.go:324-378 | A key is recovered if and only if the credential unwraps something (by password: the recorded hash matches and the wrap deciphers to its padding under the KDF's key; otherwise by OAEP), the recorded session key hash matches it, and the key is it, or with a salt what it is the hexadecimal form of |
| Envelope.RecoverRefuses | csenc/decrypt.go:324-378 | No usable secret, a mismatching password hash, an unaligned wrap, a wrap without padding, a failing OAEP, a mismatching session key hash and a key that is not hexadecimal give each their own error |
| Envelope.PreparedFields | csenc/encrypt.go:66-82 | The header says what the options ask for: version 3.1 by default and otherwise the numbers given, compression unless switched off, encryption, and the file name |
| Envelope.PreparedSecrets | csenc/encrypt.go:257-327 | Which random bytes become what: session key, alphanumeric salt of version 3, OAEP seed, and the prefixes of both recorded hashes; the key travels in hexadecimal in version 3 and as it is in version 1 |
| Envelope.PreparedWrap | csenc/encrypt.go:289-302 | What the password wraps deciphers to the padded session key under the key of 1000 rounds when there is a salt and of one otherwise |
| Envelope.PreparedIff | csenc/encrypt.go:257-327 | A header can be prepared exactly when the randomness reaches and OAEP takes the session key |
| Envelope.KeysAre | csenc/decrypt.go:333-338 | The password's and the payload's cipher keys are exactly what the KDF's chain yields for 1000 rounds or one |
| Envelope.DataKeyIs | csenc/decrypt.go:434-434 | The payload's key and iv written out as three MD5 values |
| Envelope.PasswordUnwraps | csenc/encrypt.go:289-302 | What the password wraps, the same password unwraps |
| Envelope.DigestAccepts | csenc/decrypt.go:380-389 | Against a recorded salted digest, verifyKeyHash accepts a secret exactly when the MD5 values agree |
| Envelope.DrawnDigestAccepts | csenc/hash.go:13-18 | A freshly drawn digest accepts its own secret |
| Envelope.DeriveKey | csenc/encrypt.go:294-294 | Key and iv are the first 48 bytes of the KDF stream |
| Kdf.EvpKdf | csenc/kdf.go:13-39 | The nested loops produce the first keyLen+ivLen bytes of a chain of digests, for any count, and terminate; the chain starts from nothing and each link is the last of max(count,1) successive MD5 values, the first of them of previous link, password and salt in this order |
| Kdf.MaterialYields | csenc/kdf.go:17-37 | Such a chain determines the output |
| Kdf.OneRound | csenc/kdf.go:21-34 | With one round the first 48 bytes are md5(p+s), md5(md5(p+s)+p+s) and so on, written out |
| Kdf.MaterialExtends | csenc/kdf.go:17-37 | A larger request only extends a smaller one |
| Kdf.MaterialByte | csenc/kdf.go:21-34 | Byte k of the output is byte k mod 16 of digest k/16+1 of the chain |
| Pkcs7.UnpadInvertsPad | csenc/decrypt.go:391-405 | unpadPKCS7 returns x for y if and only if y is the padding of x, so padding and unpadding are inverse both ways |
| Pkcs7.PadBytes | csenc/encrypt.go:592-600 | Padding byte by byte: the data, then one to sixteen bytes up to the next multiple of sixteen that all hold their number |
| Pkcs7.Unpad | csenc/decrypt.go:391-405 | The checking loop decides exactly that |
| Pkcs7.UnpadSuffix | csenc/decrypt.go:419-421 | Whole blocks in front of the last ones are carried through unpadding |
| Pkcs7.PadCopy | csenc/encrypt.go:592-600 | The copying loop produces the padding |
| Cbc.DecryptEncrypt | csenc/decrypt.go:345-346 | CBC decryption inverts CBC encryption under the same key and iv |
| Cbc.DecryptBlock | csenc/decrypt.go:481-482 | Bit for bit: every deciphered block is the block cipher's inverse on its ciphertext block exclusive-or the ciphertext block in front, the iv for the first |
| Cbc.EncryptBlock | csenc/encrypt.go:381-381 | Every enciphered block is the block cipher on its plaintext block exclusive-or the ciphertext block in front |
| Bytes.XorBit | csenc/decrypt.go:481-482 | Each bit of the exclusive or is the sum of the two bits without carry |
| Cbc.EncryptAppend | csenc/encrypt.go:381-381 | Enciphering in consecutive calls, with the chaining value carried over, equals enciphering at once |
| Cbc.DecryptAppend | csenc/decrypt.go:481-482 | The same for deciphering |
| Metadata.LeadingRoundTrip | csenc/encrypt.go:465-497 | Absorbing the leading dict reproduces every field written, including both base64 keys and all integers, and the defaults of the fields left out |
| Fields.FieldsAreLast | csenc/decrypt.go:174-235 | Absorbing any member list fails exactly when a wrapped key cannot be decoded, and otherwise every field is the last member of its name and kind, or what it was before |
| Fields.FirstBadKey | csenc/decrypt.go:192-203 | The first wrapped key that cannot be decoded gives the error, by its name |
| Fields.ToInt64Is | csenc/decrypt.go:177-182 | The integer kept is the one in the 64-bit range that differs by a multiple of 2^64 |
| Metadata.Record.AbsorbField | csenc/decrypt.go:174-235 | The in-place update of the record by one field; a bad base64 key is an error that changes nothing |
| Metadata.Record.AbsorbMembers | csenc/decrypt.go:87-94 | The loop over one metadata dict, which passes over non-string keys and the dict's own type |
| Metadata.Record.constructor | csenc/decrypt.go:169-171 | A new record holds the defaults compress=1 and encrypt=1 |
| Metadata.AbsorbAppend | csenc/decrypt.go:87-94 | Absorbing two member lists in a row is absorbing their concatenation, the first error stopping it |
| Metadata.VersionAbsorbed | csenc/decrypt.go:176-182 | The nested version dict gives back both numbers |
| Wire.RoundTrip | csenc/wire.go:87-144 | Reading the printed form of any encodable value tree, whatever follows, returns the tree and leaves exactly what follows |
| Wire.WireExample | csenc/wire.go:23-29 | The printed bytes of one value of each kind, with its tag and lengths |
| Wire.LeadingDigitCounts | csenc/wire.go:139-139 | Integers are big-endian: the leading digit counts 256 to the number of digits behind it |
| Wire.Reprint | csenc/wire.go:87-144 | Whatever parses is encodable, and the consumed bytes are its printed form if and only if every integer among them is minimally encoded |
| Wire.MembersRoundTrip | csenc/wire.go:96-114 | The member loop inverts the printing of a member list, on top of members read before |
| Wire.DigitsRoundTrip | csenc/encrypt.go:568-588 | The encoder's digit strings are exactly the minimal ones with the right value |
| Wire.IntReprint | csenc/wire.go:130-139 | An integer field re-prints to itself exactly when it is minimal |
| Wire.FindIsFirst | csenc/wire.go:47-58 | Lookup returns the value of the first matching key, and nothing exactly when there is none |
| Wire.ReadOne | csenc/wire.go:87-144 | Every successful read consumes at least one byte, which is why the parser terminates |
| WireEnds.PrefixFree | csenc/wire.go:87-160 | Every strict prefix of the bytes a parse consumed runs out of input |
| WireEnds.ReadExtends | csenc/wire.go:87-160 | More input after a parse that did not run out changes nothing but the rest |
| WireEnds.CleanEnd | csenc/wire.go:72-85 | What Next comes to is decided by a flat scan with a stack of open dicts: a clean end if and only if the input starts with an end tag or breaks off at the start of a field, an unexpected end exactly when it breaks off inside one, an object exactly when a whole value is there |
| WireEnds.ScanIsRead | csenc/wire.go:87-144 | The recursive parser and that scan agree on every input, inside any open dicts |
| WireEnds.OpenDictEndsCleanly | csenc/wire.go:74-76 | A single dict tag is taken for a clean end |
| WireEnds.TruncatedValue | csenc/wire.go:72-144 | A printed value cut short is taken for a clean end exactly when the cut is on a field boundary, and is an error otherwise |
| WireReader.ReadItem | csenc/wire.go:87-144 | The recursive reader over a consumed source, with its member loop, computes the parse and leaves the source at its rest |
| WireReader.ReadShortBlob | csenc/wire.go:146-160 | A length-prefixed blob is read, with the two ways of running out told apart |
| WireReader.StreamReader.Next | csenc/wire.go:72-85 | An object, a clean end or an error, as the parse says |
| Encoder.Sticky | csenc/encrypt.go:519-529 | For any pieces and any pattern of refusals, the output is the full encoding cut off at the first failure, the writer is not called after it, and err is nil exactly when nothing failed |
| Encoder.FullPrefix | csenc/encrypt.go:524-529 | The bytes out are always a prefix of the full encoding |
| Encoder.OpForm | csenc/encrypt.go:531-551 | An operation is carried out if and only if its blobs fit in a u16 and its integer is non-negative, and then spells its wire form |
| Encoder.OpsEffect | csenc/encrypt.go:519-551 | A run of operations without error wrote exactly the wire forms of all of them |
| Encoder.WireEnc.WriteAll | csenc/encrypt.go:524-529 | One write, or none once an error stands |
| Encoder.WireEnc.WriteShortBlob | csenc/encrypt.go:553-564 | Length and body, or the error for more than 65535 bytes |
| Encoder.WireEnc.WriteIntBody | csenc/encrypt.go:568-588 | The zero-skipping loop writes the minimal big-endian form of every non-negative int64 |
| Encoder.WireEnc.StrPair | csenc/encrypt.go:538-542 | Key and string value, continuing the run |
| Encoder.WireEnc.IntPair | csenc/encrypt.go:543-547 | Key and integer value, continuing the run |
| Encoder.WireEnc.BytesValue | csenc/encrypt.go:548-551 | A bytes value, continuing the run |
| Encoder.WireEnc.Key | csenc/encrypt.go:534-537 | A key, continuing the run |
| Encoder.WireEnc.DictStart | csenc/encrypt.go:531-531 | A dict tag, continuing the run |
| Encoder.WireEnc.DictEnd | csenc/encrypt.go:532-532 | An end tag, continuing the run |
| Dicts.LeadingForm | csenc/encrypt.go:465-497 | The leading dict can be printed if and only if it fits the wire format, and its operations print exactly the dict's tree |
| Dicts.DataForm | csenc/encrypt.go:499-507 | A data dict prints exactly when its payload fits in a u16, and costs 26 bytes beyond it |
| Dicts.FinalForm | csenc/encrypt.go:509-516 | The trailing dict's operations print the trailing dict's tree |
| Dicts.WriteLeadingMetadata | csenc/encrypt.go:465-497 | The header dict is written whole, or the output is left as the sticky run says |
| Dicts.WriteDataDict | csenc/encrypt.go:499-507 | One data dict is appended, or there is an error |
| Dicts.WriteFinalMetadata | csenc/encrypt.go:509-516 | The trailing dict is appended, or there is an error |
| Dicts.WriteMagic | csenc/encrypt.go:456-463 | Magic and its hexadecimal MD5 are appended, or there is an error |
| EncryptPipe.ChunksShape | csenc/encrypt.go:419-440 | Cutting aligned ciphertext gives non-empty aligned payloads, all but the last exactly 32768 long, that concatenate to it; their number and total size are given |
| EncryptPipe.ChunksAppend | csenc/encrypt.go:419-429 | Whole chunks in front are cut off as they stand |
| EncryptPipe.PendingSink.Write | csenc/encrypt.go:419-429 | Everything received is in data dicts of full size or in the buffer, in order, also after a refusal; without one the buffer is shorter than one chunk and nothing else is out |
| EncryptPipe.PendingSink.Flush | csenc/encrypt.go:431-440 | After the flush all that was received is in data dicts |
| EncryptPipe.AesFeeder.Write | csenc/encrypt.go:373-393 | Fewer than 16 bytes stay buffered and the sink has received the CBC encryption of every full block so far, as one run; if the sink fails, the full blocks it has received stay in the buffer too and are enciphered a second time |
| EncryptPipe.AesFeeder.Finish | csenc/encrypt.go:397-409 | The in-place padding loop completes the run to the CBC encryption of the padding of everything consumed |
| EncryptPipe.CbcStep | csenc/encrypt.go:380-381 | One more cipher call continues the run and its chaining value |
| EncryptPipe.LzWriter.Write | csenc/encrypt.go:203-207 | What the LZ4 writer hands on for a write reaches the cipher stage in order |
| EncryptPipe.LzWriter.Close | csenc/encrypt.go:225-230 | After Close the cipher stage has consumed the whole frame |
| Writer.Writer.Write | csenc/encrypt.go:189-208 | A closed or failed writer refuses and stays as it is, still good for Close; otherwise the slice joins the run, and over an output that takes everything only the header can fail; an error of the output is returned, and without compression leaves the writer open, with blocks that will be sent twice |
| Writer.Writer.Close | csenc/encrypt.go:210-245 | The first Close completes the stream of everything written; later ones repeat its result and write nothing; if a Write was refused before, a Close that returns nil leaves more bytes than that stream has |
| Writer.CloseAfterRefusal | csenc/encrypt.go:207-245 | An output that refuses one call during a Write of at least 32768 bytes: Write returns an error, Close returns nil, and the stream is not the one that was to be written |
| Writer.Writer.Start | csenc/encrypt.go:257-358 | Header out and pipeline wired, or an error exactly when the header cannot be prepared or printed |
| Writer.Writer.PrepareHeader | csenc/encrypt.go:257-342 | The header's contents are drawn and computed in the order of the code |
| Writer.Writer.Complete | csenc/encrypt.go:225-244 | Closing LZ4, padding, flushing and the trailer complete the stream, or a stream that is too long if a Write was refused |
| Writer.Writer.constructor | csenc/encrypt.go:182-186 | A new writer has written nothing and is ready to start |
| Writer.NewWriter | csenc/encrypt.go:175-187 | Refused exactly without any credential or for a major version other than 1 and 3 |
| Writer.Encrypt | csenc/encrypt.go:84-96 | Copying slices into a writer and closing it leaves the whole stream in the output |
| TextCodecs.HexRoundTrip | csenc/decrypt.go:370-371 | Hexadecimal decoding inverts the writer's encoding |
| TextCodecs.HexSpells | csenc/hash.go:17-17 | Byte i is written as two small hexadecimal digits, the high half first |
| TextCodecs.HexDecodeIff | csenc/decrypt.go:370-371 | Exactly the strings of two hexadecimal digits a byte, in either case, are decoded |
| TextCodecs.Base64RoundTrip | csenc/decrypt.go:313-322 | Base64 decoding inverts the writer's encoding |
| TextCodecs.Base64Alphabet | csenc/encrypt.go:481-487 | The alphabet of section 4 of RFC 4648 |
| TextCodecs.QuadNumber | csenc/encrypt.go:481-487 | Three bytes and their four characters are the same 24-bit number |
| TextCodecs.LineBreaksIgnored | csenc/decrypt.go:313-322 | A line break anywhere in base64 makes no difference to what is decoded |
| TextCodecs.PaddingRules | csenc/decrypt.go:313-322 | Padding is required, ends the input, and may follow bits that are not zero |
| Names.SpelledOut | csenc/encrypt.go:465-497 | The byte constants spell the field names, type names and the magic |
| Exits.StrandedIff | csenc/decrypt.go:66-128 | For every stream, over an output that refuses nothing: the worker is left behind if and only if one is started, the first flaw from the first data dict on is a value that is no dict or of no known type or a metadata dict with an undecodable key, and the LZ4 reader has refused nothing up to there |
| Exits.TakesAllIff | csenc/decrypt.go:502-506 | Under LzReadsOn, of a stream with a plaintext the reader takes everything except an empty last write after it has stopped at the end of its frame |
| Exits.AllTakenIff | csenc/decrypt.go:468-475 | The same for any list of non-empty feeds and a last write |
| Exits.DrainingTakesAll | csenc/decrypt.go:468-475 | Under LzDrains the reader takes all of every stream that has a plaintext |
| Exits.PlaintextOpens | csenc/decrypt.go:97-114 | A stream with a plaintext opens a pipe, and its calls feed exactly the payload that decodes to it |
| Exits.HookedIsInspected | csenc/decrypt.go:101-104 | The metadata the hook is given are those that Inspect returns |
| Exits.WalksIff | csenc/decrypt.go:66-128 | The calls that the rest of a stream leads to end in a return past the open pipe exactly under that condition |
| Exits.NoneRefusedWithin | csenc/decrypt.go:486-490 | A draining LZ4 reader refuses no write while it is being fed part of something that it can decode |
| Exits.ScriptSpells | csenc/decrypt.go:477-514 | Those calls feed exactly the unpadded CBC plaintext of all payloads, and end in finish's last write if and only if the stream can be collected and unpadded |
| RoundTrip.StringAfterPayload | csenc/decrypt.go:77-79 | A written compressed header, one data dict and then a string: Decrypt fails and its worker is left behind |
| PipeWorker.PipeDecodes | csenc/decrypt.go:433-525 | Over all interleavings and for every LZ4 reader, a pipe left without error has written and hashed exactly the one-shot decoding of all payloads; over an output that refuses nothing it is left with an error only if there is none or the reader does not take all that it is given |
| PipeWorker.PipeDecodesDraining | csenc/decrypt.go:433-525 | With a draining reader, over such an output, the decoding alone decides |
| PipeWorker.SuccessHappens | csenc/decrypt.go:433-525 | Where all writes are taken and the whole is complete there is a run that ends without error and has passed on what the LZ4 reader makes of it |
| PipeWorker.RunsEnd | csenc/decrypt.go:433-525 | From wherever a run has come to, it can go on until Decrypt has returned or has no call left to make |
| PipeWorker.ErrorIsWhose | csenc/decrypt.go:457-523 | The error that is returned is Decrypt's own, the worker's, or that of a closed pipe after a worker that ended well |
| PipeWorker.EmptyWriteFails | csenc/decrypt.go:502-506 | Where the reader stops at the end of its frame, every run with an empty last write after it ends with an error, although the frame is complete |
| PipeWorker.ExitedMeansStopped | csenc/decrypt.go:495-525 | Over all interleavings, when finish or abort has returned, the worker's result was received exactly once and the worker has stopped; nil means that the LZ4 reader took all that was fed and output and hash hold exactly what it makes of it; over an output that refuses nothing there is an error only for a write the reader does not take, a last write that is not reached, or an incomplete whole |
| PipeWorker.HashIsFinal | csenc/decrypt.go:133-138 | After that nothing is possible any more, so the MD5 that is read cannot change |
| PipeWorker.ReportTakenIff | csenc/decrypt.go:66-137 | When Decrypt has returned, the report is untaken only if its calls walk past the pipe with the LZ4 reader's refusals on the way, and exactly then if the output refused nothing |
| PipeWorker.ReportTakenOnStream | csenc/decrypt.go:66-137 | For the calls of a stream this is: exactly when its first flaw is a bad object and nothing was refused before |
| PipeWorker.StrandedOnStream | csenc/decrypt.go:77-93 | Whenever that is so, some run leaves the worker behind, and in no continuation is a report taken, nor does the worker stop unless its reader asks for no more or the output refuses |
| PipeWorker.StrandedForGood | csenc/decrypt.go:125-126 | After a return past the pipe it stays open and no report is ever taken; unless the LZ4 reader asks for no more or the output refuses, the worker never ends |
| PipeWorker.WriteReturns | csenc/decrypt.go:468-475 | A write into the pipe is refused exactly when the LZ4 reader refuses it, whatever the interleaving, while the output refuses nothing |
| PipeWorker.StuckIff | csenc/decrypt.go:454-525 | Inside a call nothing is possible without the output if and only if the worker is inside a write to the output and Decrypt cannot go on without it |
| PipeWorker.CallsEnd | csenc/decrypt.go:468-525 | Every step inside a call lowers a non-negative rank, so a call that the output does not hold up returns |
| PipeWorker.StepKeepsInv | csenc/decrypt.go:433-525 | Every step keeps: one report at most, taken at most once, no byte lost or reordered before a refusal, output a prefix of what the LZ4 reader makes of its input |
| ReaderSteps.ReadsAreFaithful | csenc/reader.go:61-75 | What has been read is a prefix of what Decrypt wrote, and EOF is seen only after Decrypt returned nil and everything was delivered |
| ReaderSteps.ReadDelivers | csenc/reader.go:74-76 | While a write is in progress and both ends are open, a read delivers the front of it |
| ReaderSteps.ResultSurfaces | csenc/reader.go:62-66 | Once Decrypt has finished and the reading end is open, a read gives EOF after a success, with everything delivered, and after an error that error |
| ReaderSteps.AllDelivered | csenc/reader.go:61-76 | Whatever is written, in whatever pieces, there is a run in which the caller reads all of it and then sees EOF |
| ReaderSteps.CloseResult | csenc/reader.go:100-120 | A Close that has returned gives the goroutine's error, or else the extra closer's, with the closed pipe forgiven; doneCh was received exactly once and the goroutine has finished; a caller that had seen EOF gets no error but the extra closer's |
| ReaderSteps.ClosesAgree | csenc/reader.go:94-120 | Any two Close calls, at any times, give the same result |
| ReaderSteps.NothingReadAfterClose | csenc/reader.go:100-103 | Once Close has closed the pipe, no read delivers anything or sees EOF: each fails with io.ErrClosedPipe |
| ReaderSteps.AfterCloseIff | csenc/reader.go:21-22 | After a Close has returned, a read gives io.EOF or the error that ended the decryption, as promised, if and only if that error is io.ErrClosedPipe |
| ReaderSteps.ReadAfterCloseFails | csenc/reader.go:21-22 | A run in which the decryption succeeds, Close returns nil and a read fails |
| ReaderSteps.CloseReturnsIff | csenc/reader.go:100-120 | The Close in the once block can return without another arrival of input if and only if Decrypt is not waiting for input |
| ReaderSteps.CloseSettles | csenc/reader.go:100-120 | In every run without an arrival of input after Close has closed the pipe, the number of steps before Close is over is bounded, and where nothing more can happen without input Close is over or Decrypt waits for input |
| ReaderSteps.CloseHangs | csenc/reader.go:103-108 | While Decrypt waits for input that does not come, Close does not return, whatever else happens |
| ReaderSteps.CloseWindsDown | csenc/reader.go:100-120 | Once the pipe is closed for reading, every step that is not an arrival of input lowers a rank |
| ReaderSteps.StepKeepsInv | csenc/reader.go:46-120 | Every step keeps the bookkeeping of bytes, of doneCh and of the once block |
| Batch.Discovery.Discover | csenc/batch.go:220-287 | The loops queue exactly the first unit of every path that is taken, in the order in which the inputs and walks come across them, and record the problems in order; queued paths are distinct |
| Batch.Discovery.Walk | csenc/batch.go:251-274 | One directory walk adds its findings |
| Batch.Discovery.Push | csenc/batch.go:226-232 | A path already seen is dropped, any other is appended |
| Batch.QueueIsDistinct | csenc/batch.go:222-232 | The queue holds the path of every candidate exactly once and nothing else |
| Batch.DiscoveredIs | csenc/batch.go:238-285 | What is taken is a regular input, or with Recursive a file that the walk of a directory finds, where the filter accepts it; problems are missing inputs, directories without Recursive, unreadable visits and walks cut short |
| Batch.QueuedIff | csenc/batch.go:238-285 | A path is queued if and only if the filter accepts it and it is offered so |
| BatchSteps.Conservation | csenc/batch.go:148-208 | When Batch returns: succeeded, skipped and failed add up to units and discovery problems, Discovered counts the units, each failure has its error, byte counts are those of the succeeded units, and each path of the queue, and no other, had exactly one discovery event and exactly one terminal event, all discovery events first |
| BatchSteps.EachPathOnce | csenc/batch.go:148-208 | Over the configuration: every distinct path that is offered and accepted by the filter, and no other, has one discovery and one terminal event, and the report counts each of them and each problem once |
| BatchSteps.ErrorsAre | csenc/batch.go:194-199 | When Batch returns, its errors name, beyond the discovery problems, exactly the units that failed, once each |
| BatchSteps.Plan | csenc/batch.go:140-164 | The units and problems of discovery and the number of workers make a task with distinct paths and at least one worker |
| BatchSteps.AtMostWorkers | csenc/batch.go:167-185 | At no time are more jobs in flight than workers |
| BatchSteps.BatchReturns | csenc/batch.go:177-205 | Batch returns if every runOne and every OnEvent does: until then some step is possible, which is the end of such a call only if a job is inside one, and every step lowers a non-negative rank |
| BatchSteps.LogKept | csenc/batch.go:200-202 | Every step keeps: terminal events per path match the jobs that have told theirs |
| BatchSteps.TallyKept | csenc/batch.go:186-199 | Every step keeps: the report is the sum of the updates made so far |
| BatchSteps.PoolKept | csenc/batch.go:178-185 | Every step keeps: semaphore and wait group count the jobs they should |
| Streams.Source.ReadFull | csenc/wire.go:89-89 | Nothing read at end of input and a short read are different errors |
| Streams.Output.Write | csenc/encrypt.go:524-529 | A call is taken whole or refused |

## Left out

- Internals of AES, MD5, RSA-OAEP, LZ4 and the system's random source: library code, kept as arbitrary functions with laws; nothing is claimed about secrecy or collisions.
- Writer.Writer.Write: the returned byte counts are not modelled; nor is, with compression, a writer after the output has refused part of a slice, which depends on what the LZ4 library's writer does then.
- Writer.Writer.PrepareHeader: OAEP is taken to draw a seed of 20 bytes (the hash length of section 7.1.1 of RFC 8017) from the same source.
- Decrypt.DecryptPipe.Abort: closing the pipe with the error, and waiting for the report, are steps of `PipeWorker` only.
- Decrypt.DecryptPipe.AwaitWorker: here the worker runs between the steps of Decrypt; true concurrency is in `PipeWorker`.
- Decrypt.DecryptPipe.constructor: that the goroutine runs from here on, and that doneCh is filled beforehand on the direct path, appears only in `PipeWorker` and in the count of receives.
- Decrypt.Decrypt: which error it returns is stated over an output that refuses nothing; the messages of errors are not modelled. What a worker that was left behind writes after Decrypt has returned is in `PipeWorker` only.
- Streams.Source.ReadFull: read errors of the underlying input other than its end are not modelled.
- The LZ4 reader is described by the bytes it has taken; that it reads ahead into buffers of its own changes only how many it takes at once.
- ReaderSteps.CloseReturnsIff: the closer handed over with the input, and everything Decrypt does between its reads and writes, are taken to return; for its waiting on the LZ4 worker that is `PipeWorker.StuckIff` and `PipeWorker.CallsEnd`, as a closed pipe refuses the worker's writes.
- BatchSteps.BatchReturns: that runOne and the event hook return is its hypothesis, and that stat, the walk and the filter do is taken for granted.
- PipeWorker, ReaderSteps and BatchSteps are step systems on values rather than objects with fields: goroutines, channels, atomics, the mutex and sync.Once become the atomic steps they perform.
- BatchSteps.Conservation: runOne's choice among succeeded, skipped and failed is any outcome the configuration allows; the file system behind it, timestamps and durations are not part of this model.
- The configuration checks at the start of Batch, Format, logging and key2_hash, which the code never verifies.
- Directory walking and path joining in discover are given as an abstract list of visits; output paths are not claimed distinct.
- csenc/file.go and the PEM loaders: operating-system and x509 plumbing that would add only easy members.
- cmd/cloudsync-decrypt/main.go: flags, printing and a second batch loop of the same form.
