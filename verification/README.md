# mediasoup for Go: a verified model

mediasoup is a Go library that drives a media worker process. A client creates
routers; a router owns transports; a transport owns producers (media coming in)
and consumers (media going out). This project models the three parts of it whose
behaviour is hardest to see from any single function, and proves what they do for
every input, every state and every sequence of calls.

1. **Negotiation** (`H264Profile`, `Matching`, `SupportedCapabilities`,
   `RouterCapabilities`, `RouterGeneration`, `ProducerMapping`, `Consumable`,
   `ConsumerParameters`, `PipeConsumer`, with `RtpTypes`, `Selection`,
   `Bytes` and `Wrappers` below them). Media
   codecs become router capabilities, a producer is mapped to them, the mapping
   gives consumable parameters, and these give consumer or pipe-consumer
   parameters. Main results: piping into a second router with the same
   capabilities changes nothing but the ssrcs (`PipeTransparency`), and is
   accepted exactly when every codec was supported (`PipeAcceptedIff`); RTX stays
   with its media codec under renumbering; the payload-type allocator is
   characterised exactly, and so is which parameters survive when capabilities
   share a row of the supported table; `CanConsume` and
   `GetConsumerRtpParameters` disagree in exactly one case; H.264 answers are fixpoints.
2. **Framing and requests** (`Netstring`, `Channel`). The streaming decoder, with
   its bulk copy, refines a byte automaton, so how the bytes are cut does not
   matter; whatever it emits stands in the input, also through the read loop and
   its discards; it panics exactly on certain headers; and a payload comes out of
   the read loop exactly when no read ends at the wrong place, which for at most
   65536 bytes is always. The request table matches responses with requests in every
   run that reuses no id of a waiting request.
3. **Life cycle** (`Lifecycle`, `Cascade`, `Registries`, `PauseMirror`,
   `EventEmitter`). Closing an object runs callbacks that close others, across
   routers and around cycles of links. The registries are related to the closed
   flags by laws that hold at every point of every cascade; the cascade ends, tells
   each observer once and after all that its object owns, and, if the worker grants
   the requests, closes exactly what ownership and links lead to.

`Lifecycle` holds the state as a value and says what each elementary change does
to the laws; `Cascade.Session` holds the same state in mutable fields and has one
method for each call or callback of the library, with the nesting the library has.
`busy` stands for the objects whose closing is still under way further up the call
stack, and `failed` for those whose close request the worker did not confirm.
`Sealed` sets are those that no ownership or link leads out of: a closing call
takes any such set and closes nothing outside it.

What the worker replies is an input of a session: `grants` says for every object
whether its close, create and connect requests are granted. No object is asked about
twice, so this covers every sequence of replies. The hypotheses about the worker are
that it refuses requests on objects it has closed, and producer ids already in use in
a router.

## Where the code departs from what it is for

- `isLessLevel` is not an order when only the second level is 1b, so an answer can
  be above the remote's level: `MinLevelIsLower`, `AnswerLevel`, `AnswerAboveRemote`.
- Capabilities made from one row of the supported table share its parameters, and
  each merge writes to all of them: two H264 media codecs with different profiles
  give two capabilities with the second profile: `ParametersKeptIff`,
  `TwoProfilesCollapse`.
- The error for an unsupported codec is overwritten by the next iteration, so a
  producer with unsupported codecs is accepted, unless one of them is the last codec
  or the one an RTX names: `AcceptedIff`, `AcceptedMeansMatchedIff`,
  `UnsupportedAccepted`. Such a producer cannot be piped: `PipeAcceptedIff`.
- `CanConsume` looks at the remote's spelling of the RTX mime type and
  `GetConsumerRtpParameters` at the router's: `CanConsumeAgreesIff`, `CapitalsDisagree`.
- RTX codecs are matched by format alone, so the RTX of an unsupported first codec
  makes consuming fail: `RtxShadowsLaterCodecs`, `ConsumeSucceedsIff`.
- PCMU, whose payload type is 0 in RFC 3551, gets a dynamic one, because 0 in the table
  reads as none: `PcmuIsDynamic`.
- Two media codecs with the same static payload type give capabilities with a
  payload type twice: `DistinctIffNoStaticTwice`, `StaticTypeTwice`.
- `parseEnd` examines the byte after a payload without consuming it. The length
  wraps at 64 bits, and a header read as negative panics once a byte follows it:
  `PanicsIff`, `SmallestPanic`, `WrappedHeader`.
- A payload over 65536 bytes is lost exactly when a read ends with more than 65536 of
  its bytes to come, or inside its header after digits that spell that much:
  `ReceivedIff`, `OversizeIsLost`.
- Removing a `Once` listener shifts the array that `Emit` is reading, and the next
  listener misses its call: `CalledOnceInOrderIff`, `EarlyOnceSkips`, `SingleOnce`.
- A `Close` whose request fails leaves the object closed but registered, and its
  linked end open: `FailedStaysListed`, `ListedByTransportIff`, `ListedByRouterIff`.
- `PipeTransport.Consume` goes on with a nil producer when the router does not know
  the id, and panics; `PipeToRouter` never asks that: `Cascade.Session.PipeConsume`.
- A failed `PipeToRouter` closes the transports of an existing pair, and with them
  every earlier pipe through it, for instance when the same producer is piped twice:
  `Cascade.Session.PipeToRouter`.
- A pipe consumer created paused for a running producer is not mirrored until its
  first event: `MirrorIff`, `StartsUnmirrored`.

## Model

| member | source | states |
|---|---|---|
| H264Profile.ByteMaskString | mediasoup/h264profile/h264profile.go:321-331 | for every string, the or-ing loop computes the byte whose set bits are the positions of the character among the last eight |
| H264Profile.BitPatternMeaning | mediasoup/h264profile/h264profile.go:120-129 | for every eight-character pattern, isMatch holds exactly when every position matches: x anything, 1 a set bit, else a clear bit |
| H264Profile.PatternsAreDisjoint | mediasoup/h264profile/h264profile.go:151-160 | at most one row of the profile table matches any profile_idc and profile_iop |
| H264Profile.ProfileTable | mediasoup/h264profile/h264profile.go:151-160 | for every profile_idc and profile_iop the table gives the profile that the constraint flags stand for, or none |
| H264Profile.AcceptedLevels | mediasoup/h264profile/h264profile.go:183-205 | the accepted level_idc values, and 1b by the flag |
| H264Profile.ParseProfileLevelId | mediasoup/h264profile/h264profile.go:169-213 | the search loop returns the profile of the only matching row with the level, 1b being told from 1.1 by the constraint set 3 flag; otherwise nothing |
| H264Profile.ParseAccepts | mediasoup/h264profile/h264profile.go:169-180 | only six hexadecimal digits are accepted, although a signed number is read |
| H264Profile.ParsedIsPrintable | mediasoup/h264profile/h264profile.go:54-92 | whatever is accepted has a canonical text: level 1b never comes with a high profile |
| H264Profile.ParsePrint | mediasoup/h264profile/h264profile.go:54-92 | for every profile and level, printing then parsing returns them if and only if they have a text |
| H264Profile.PrintParse | mediasoup/h264profile/h264profile.go:54-213 | every accepted string and its canonical text parse to the same profile and level |
| H264Profile.CanonicalTexts | mediasoup/h264profile/h264profile.go:54-92 | the canonical text of each profile at any level, and the three texts of level 1b |
| H264Profile.DefaultId | mediasoup/h264profile/h264profile.go:220-225 | an absent id means what 42e01f means |
| H264Profile.AnswerDefined | mediasoup/h264profile/h264profile.go:232-316 | negotiation succeeds if and only if the two sides have the same profile; two absent ids give an absent answer |
| H264Profile.AnswerParses | mediasoup/h264profile/h264profile.go:268-316 | a successful answer to a named profile-level-id is non-empty and parses to the shared profile, at the local level if both sides allow asymmetry and else at minLevel of the two |
| H264Profile.AnswerIsFixpoint | mediasoup/h264profile/h264profile.go:268-316 | negotiating the answer again with the same remote returns the same string |
| H264Profile.AnswerKeepsProfile | mediasoup/h264profile/h264profile.go:232-316 | no third party can tell the answer's profile from the local one |
| H264Profile.MinLevelIsLower | mediasoup/h264profile/h264profile.go:334-351 | minLevel returns one of the two levels, the lower in the standard's order if and only if not just the second is 1b |
| H264Profile.AnswerLevel | mediasoup/h264profile/h264profile.go:294-316 | if either side does not allow asymmetry, the answer's level is below both sides' if and only if not just the remote's is 1b |
| H264Profile.AnswerAboveRemote | mediasoup/h264profile/h264profile.go:334-351 | 42e01f against 42f00b is answered with 42e01f, above the remote's level |
| RtpTypes.RtxSuffix | mediasoup/ortc.go:144 | a codec is taken for an RTX if and only if its mime type ends in /rtx, up to case |
| Matching.FirstMatch | mediasoup/ortc.go:551-561 | selectMatchedCodecs returns the first match, and nothing only when none matches |
| Matching.SelectMatchedCodecs | mediasoup/ortc.go:551-561 | the loop finds the first matching codec |
| Matching.FirstExtension | mediasoup/ortc.go:616-624 | the first extension with the same uri and no conflicting kind |
| Matching.MatchesIff | mediasoup/ortc.go:563-614 | two codecs match if and only if mime type, clock rate, audio channels and, for H264, packetization mode and in strict mode the profile agree |
| Matching.RematchIsFixpoint | mediasoup/ortc.go:563-614 | a codec that took the format and the rewritten parameters of a match matches it again, unchanged |
| Matching.RematchIsNoWeaker | mediasoup/ortc.go:563-614 | such a codec matches nothing that the original did not match |
| Matching.RematchSelectsSame | mediasoup/ortc.go:551-614 | hence the first match stays the first match, and nothing is rewritten a second time |
| SupportedCapabilities.TableRows | mediasoup/rtp_capabilities.go:98-288 | every row of the supported table is a valid audio or video media codec, with no or a static payload type |
| SupportedCapabilities.StaticTypesOfTable | mediasoup/rtp_capabilities.go:98-288 | the table's static payload types are 8 for PCMA, 9 for G722 and 13 for CN, and no others |
| SupportedCapabilities.ExtensionIds | mediasoup/rtp_capabilities.go:289-345 | the table gives one header extension id to each uri |
| RouterCapabilities.SlotOfDynamic | mediasoup/ortc.go:13-19 | the 88 dynamic payload types are distinct, and none is a static one |
| RouterCapabilities.ExtendNeeds | mediasoup/ortc.go:47-122 | one supported codec fails only by exhaustion, and takes two dynamic payload types for video, one for audio without a static one, else none |
| RouterCapabilities.ExtendHolds | mediasoup/ortc.go:47-122 | one codec adds at the end the format it asks for, its payload types, and its own parameters or a share in its row's; what was there stays |
| RouterCapabilities.AllocateDemand | mediasoup/ortc.go:47-122 | for supported codecs only exhaustion can fail, and success uses exactly the demanded number of dynamic payload types |
| RouterCapabilities.AllocateErrorIs | mediasoup/ortc.go:47-122 | the error is that of the first codec that is invalid, unsupported or one too many |
| RouterCapabilities.AllocateIsGood | mediasoup/ortc.go:47-122 | every codec is a media codec directly followed by its RTX when it carries video, or such an RTX; dynamic payload types strictly increase in allocation order |
| RouterCapabilities.AllocatedAt | mediasoup/ortc.go:47-122 | the place, format and payload types of the i-th media codec and its RTX, from the demands of those before it, and whose parameters it holds |
| RouterCapabilities.RtxIsUnique | mediasoup/ortc.go:98-121 | the RTX after a video codec is the only one whose apt is that codec's payload type |
| RouterCapabilities.CollisionsAreStatic | mediasoup/ortc.go:84-96 | two codecs share a payload type only if it is static |
| RouterGeneration.AlikeSelects | mediasoup/ortc.go:551-614 | writing through shared parameters never changes which row a later media codec selects, given what MergeKeepsAlike keeps |
| RouterGeneration.MergeKeepsAlike | mediasoup/ortc.go:70-76 | merging a codec into the row it matches keeps all that matching looks at, the packetization mode of H264 included |
| RouterGeneration.AllocateAll | mediasoup/ortc.go:47-122 | the loop, matching against the table it is writing to, allocates as from the original table and leaves every merge in its row, stopping at the first error |
| RouterGeneration.GenerateRouterRtpCapabilities | mediasoup/ortc.go:35-125 | an empty list is an error; otherwise the allocated codecs, each with the parameters its pointer leads to in the end, and all header extensions |
| RouterGeneration.GenerateSucceedsIff | mediasoup/ortc.go:35-125 | generation succeeds if and only if the list is non-empty, all codecs are supported, and dynamic audio plus twice video is at most 88 |
| RouterGeneration.GenerateErrorIs | mediasoup/ortc.go:35-125 | which of the three errors generation ends with |
| RouterGeneration.GeneratedCodecs | mediasoup/ortc.go:35-125 | generated capabilities have the structure of AllocateIsGood, all supported header extensions and no FEC mechanisms |
| RouterGeneration.GeneratedAt | mediasoup/ortc.go:35-125 | the place, format, channels, feedback, payload types and final parameters of the i-th media codec's capability |
| RouterGeneration.DistinctIffNoStaticTwice | mediasoup/ortc.go:84-121 | generated payload types are pairwise distinct if and only if no static one is asked for twice |
| RouterGeneration.StaticTypeTwice | mediasoup/rtp_capabilities.go:98-288 | audio/CN at 32000 and at 16000 generate payload type 13 twice |
| RouterGeneration.PcmuIsDynamic | mediasoup/rtp_capabilities.go:106-111 | PCMU generates payload type 100 |
| RouterGeneration.RowField | mediasoup/ortc.go:70-76 | a field of a shared row ends with the value of the last media codec that selects the row and gives it, or with the table's |
| RouterGeneration.ParametersKeptIff | mediasoup/ortc.go:47-76 | a capability ends with the parameters its media codec asks for if and only if its row shares none or the last giver of every field says what this codec would have |
| RouterGeneration.TwoProfilesCollapse | mediasoup/ortc.go:47-76 | two H264 media codecs with any two profile-level-ids generate two capabilities with the second one |
| ProducerMapping.MatchMedia | mediasoup/ortc.go:139-159 | the first loop rewrites the codecs up to the first invalid one and leaves the unsupported error only for the last codec |
| ProducerMapping.MatchRtx | mediasoup/ortc.go:161-209 | the second loop fills the RTX entries or fails with the first error |
| ProducerMapping.GetProducerRtpParametersMapping | mediasoup/ortc.go:132-260 | which error, if any; otherwise one entry per codec in some order, the extension ids and the ssrcs; and in every case how the codecs are rewritten |
| ProducerMapping.RtxForRouterCodec | mediasoup/ortc.go:185-205 | in a router an RTX capability exists exactly for the video codecs, and is the one that follows |
| ProducerMapping.RtxAssociationSurvives | mediasoup/ortc.go:161-209 | the table the mapping is read from sends each RTX to the RTX of the capability its associated codec was sent to, and that codec is a supported media codec |
| ProducerMapping.RtxIsMapped | mediasoup/ortc.go:161-218 | in the returned mapping, in whatever order, an RTX is sent to the RTX capability whose apt is the payload type that the codec its own apt names is sent to |
| ProducerMapping.MediaIsMapped | mediasoup/ortc.go:139-218 | a supported media codec is sent to the payload type of the first capability it matches |
| ProducerMapping.MappingMeaning | mediasoup/ortc.go:212-257 | one entry per codec; every extension is sent to the preferred id of the first capability with its uri and an agreeing kind; every encoding gets its drawn ssrc |
| ProducerMapping.RewritingMeaning | mediasoup/ortc.go:586-611 | a matched H264 codec with parameters ends with the negotiated profile-level-id and is otherwise unchanged; other codecs are unchanged |
| ProducerMapping.AptNamingRtxFails | mediasoup/ortc.go:161-209 | an RTX whose apt names an RTX always makes the mapping fail |
| ProducerMapping.RtxPassIff | mediasoup/ortc.go:161-209 | the second loop succeeds if and only if the apt of every RTX first names a media codec that the router carries as video |
| ProducerMapping.AcceptedIff | mediasoup/ortc.go:132-260 | a router accepts a producer if and only if its codecs are valid, every RTX names such a codec, its extensions are supported, and its last codec is not unsupported |
| ProducerMapping.RtxErrorIs | mediasoup/ortc.go:166-206 | the error of valid codecs with a bad RTX is that of the first one: a type error if it names nothing, else unsupported |
| ProducerMapping.OtherErrorIs | mediasoup/ortc.go:139-260 | invalid codecs are a type error, everything else is unsupported |
| ProducerMapping.AcceptedMeansMatchedIff | mediasoup/ortc.go:139-159 | an accepted producer has only supported codecs if and only if those before the last are supported |
| ProducerMapping.UnsupportedAccepted | mediasoup/ortc.go:139-159 | an unsupported codec followed by a supported one is accepted |
| Consumable.GetConsumableRtpParameters | mediasoup/ortc.go:267-368 | the loops compute the consumable codecs, extensions and encodings, or a type error |
| Consumable.ConsumableMeaning | mediasoup/ortc.go:273-367 | only an invalid codec fails; the extensions are, in order, exactly the router's of that kind but for the three sdes ones, with the preferred id; the fields of every encoding and of rtcp |
| Consumable.OfferedByKind | mediasoup/ortc.go:335-350 | generated capabilities offer ids 1 and 3 for audio, and 2, 3 and 4 for video |
| Consumable.EncodingsInRange | mediasoup/ortc.go:248-257 | a mapping has an entry for every encoding, so the unchecked index is in range |
| Consumable.ConsumableIsBlocks | mediasoup/ortc.go:273-328 | looking capabilities up through mapped payload types finds the capabilities that were matched |
| Consumable.ConsumableCodecsAreBlocks | mediasoup/ortc.go:267-328 | for every reading order of the mapping, the consumable codecs are the blocks of the matched capabilities, in the producer's order |
| Consumable.BlockMeaning | mediasoup/ortc.go:281-326 | a block is the producer's format and parameters with the router's channels, feedback and payload type, followed by its own RTX if and only if it is video |
| ConsumerParameters.CanConsume | mediasoup/ortc.go:374-403 | the loop tests that the remote is valid and the first matching capability is not an RTX |
| ConsumerParameters.GetConsumerRtpParameters | mediasoup/ortc.go:413-475 | the loops keep the matched codecs and extensions and make one encoding, or fail |
| ConsumerParameters.ConsumerMeaning | mediasoup/ortc.go:413-475 | the returned codecs and extensions are, in order, exactly the kept ones, with the remote's feedback; one encoding with the drawn ssrcs; the producer's rtcp |
| ConsumerParameters.CanConsumeAgreesIff | mediasoup/ortc.go:374-475 | success implies CanConsume, and the two agree if and only if the first kept codec is not an RTX the remote writes with capitals |
| ConsumerParameters.CapitalsDisagree | mediasoup/ortc.go:374-475 | VP8 with its RTX against a remote with video/RTX only: CanConsume says yes and consuming fails |
| ConsumerParameters.CanConsumePredicts | mediasoup/ortc.go:374-475 | with lower-case remote RTX the two agree |
| ConsumerParameters.KeptIsSubsequence | mediasoup/ortc.go:425-450 | the kept codecs are exactly the matched ones, in order, and differ only in feedback |
| ConsumerParameters.KeptExtensionsExact | mediasoup/ortc.go:451-459 | the kept extensions are, in order, exactly those whose id the remote prefers |
| ConsumerParameters.EncodingRtxIff | mediasoup/ortc.go:462-474 | the encoding has an Rtx if and only if an RTX codec was kept |
| ConsumerParameters.RtxShadowsLaterCodecs | mediasoup/ortc.go:425-450 | knowing the RTX of the unsupported first codec makes consuming fail |
| ConsumerParameters.ConsumeSucceedsIff | mediasoup/ortc.go:413-475 | consuming succeeds if and only if the remote is valid and the first codec it matches is a media codec; which error otherwise |
| ConsumerParameters.OfferedIsLowerCase | mediasoup/ortc.go:267-368 | what a router offers, for any producer and any mapping, meets the hypothesis of these theorems |
| PipeConsumer.GetPipeConsumerRtpParameters | mediasoup/ortc.go:488-529 | the loops drop RTX, abs-send-time and all feedback but nack pli and ccm fir |
| PipeConsumer.PipeMeaning | mediasoup/ortc.go:488-529 | a pipe consumer gets, in order, exactly the media codecs, exactly the extensions but abs-send-time, every encoding without rtx, and the rtcp |
| PipeConsumer.PipeCodecMeaning | mediasoup/ortc.go:499-511 | of a codec only the feedback changes, to exactly its nack pli and ccm fir, in order |
| PipeConsumer.PipeOfBlocks | mediasoup/ortc.go:488-512 | piping drops every RTX of the consumable codecs and keeps every media codec |
| PipeConsumer.PipedMediaIsFixpoint | mediasoup/ortc.go:132-159 | every piped codec matches the capability the original matched, and is not rewritten again |
| PipeConsumer.PipedExtensionsMapToSelf | mediasoup/ortc.go:225-246 | every extension of a pipe consumer is supported and mapped to its own id |
| PipeConsumer.PipeTransparency | mediasoup/ortc.go:132-529 | with all codecs matched, the second router maps every payload type and extension id to itself and offers the same codecs, extensions, rtcp and encodings but for the ssrcs |
| PipeConsumer.PipeAcceptedIff | mediasoup/ortc.go:132-529 | the second router accepts the piped parameters if and only if the first supported every codec |
| PipeConsumer.GeneratedRouterCaps | mediasoup/ortc.go:35-125 | generated capabilities meet the hypotheses of these theorems if and only if no static payload type is asked for twice |
| Netstring.ValueOfItoa | mediasoup/netstring/netstring.go:22-33 | the written length is digits that spell it |
| Netstring.Decoder.constructor | mediasoup/netstring/netstring.go:42-47 | a new decoder is in its initial state |
| Netstring.Decoder.Reset | mediasoup/netstring/netstring.go:49-53 | the fields go back to initial values, the output stays |
| Netstring.Decoder.ParseLengthAt | mediasoup/netstring/netstring.go:85-95 | a digit is consumed into the wrapping counter; anything else changes the state only |
| Netstring.Decoder.ParseSeparatorAt | mediasoup/netstring/netstring.go:97-107 | one byte is consumed: a colon starts the data, anything else resets |
| Netstring.Decoder.ParseDataAt | mediasoup/netstring/netstring.go:109-119 | the bulk copy does what the byte automaton does on all bytes it takes; a negative length panics |
| Netstring.Decoder.ParseEndAt | mediasoup/netstring/netstring.go:121-131 | a comma emits the payload; the byte is not consumed and the decoder resets |
| Netstring.Decoder.Parse | mediasoup/netstring/netstring.go:71-83 | each call consumes bytes as the automaton does, or lowers the rank of the state without changing what the next byte does |
| Netstring.Decoder.Feed | mediasoup/netstring/netstring.go:65-69 | from every state Feed refines the byte automaton, terminates, and calls parse at most four times per byte |
| Netstring.RunConcat | mediasoup/netstring/netstring.go:65-119 | feeding a then b is feeding a followed by b |
| Netstring.ChunkIndependence | mediasoup/netstring/netstring.go:65-131 | two ways of cutting the same bytes give the same state and output, from every state |
| Netstring.NeverEndsInSeparator | mediasoup/netstring/netstring.go:65-107 | no non-empty chunk ends in the separator state |
| Netstring.DecoderIsSound | mediasoup/netstring/netstring.go:65-131 | on arbitrary bytes the outputs are, in order, disjoint substrings digits, colon, payload, comma, the digits spelling the length the counter reads |
| Netstring.FrameLengthIsExact | mediasoup/netstring/netstring.go:85-95 | for headers below 2^63 that length is the number spelled |
| Netstring.ReadLoopIsSound | mediasoup/channel.go:153-169 | the same of the read loop on arbitrary chunks, whatever it discards between them |
| Netstring.PanicsIff | mediasoup/netstring/netstring.go:65-131 | on arbitrary bytes the decoder panics if and only if some header starts where one is due, reads as negative to the 64-bit counter, and is followed by a byte |
| Netstring.PanicNeedsHugeHeader | mediasoup/netstring/netstring.go:85-119 | in particular a header in the input spells at least 2^63 |
| Netstring.SmallestPanic | mediasoup/netstring/netstring.go:85-119 | 9223372036854775808, a colon and any byte panic |
| Netstring.WrappedHeader | mediasoup/netstring/netstring.go:85-119 | 2^64 + n does not panic, for every n below 2^63 |
| Netstring.RunEncode | mediasoup/netstring/netstring.go:22-131 | decoding one encoding emits the payload and returns to the initial state |
| Netstring.RunEncodeAll | mediasoup/netstring/netstring.go:22-131 | decoding a list of encodings emits the list |
| Netstring.RunReadLoop | mediasoup/channel.go:153-169 | the read loop feeds each chunk and then applies the discard rule; a panic happens in the chunk at which the automaton panics |
| Netstring.StreamRoundTrip | mediasoup/channel.go:153-169 | payloads of at most 65536 bytes, cut anywhere, come out in order, the decoder ends in its initial state, and nothing is ever discarded |
| Netstring.ReceivedIff | mediasoup/channel.go:153-169 | for every payload below 2^63 bytes and every cut of its encoding: received if and only if no chunk ends where the counter is above 65536, and then received alone |
| Netstring.OversizeIsLost | mediasoup/channel.go:151-168 | every longer payload is lost by reads that fit the 65536-byte buffer |
| Netstring.SurvivesEveryCutIff | mediasoup/channel.go:151-169 | a payload is received under every sequence of reads that fit the buffer if and only if it has at most 65536 bytes |
| Channel.Connection.constructor | mediasoup/channel.go:36-54 | a new channel has no requests |
| Channel.Connection.StartRequest | mediasoup/channel.go:68-120 | the id advances and wraps; closed, oversized and unwritable requests end at once, others are pending |
| Channel.Connection.Return | mediasoup/channel.go:95 | the deferred delete clears the entry under the id, whoever holds it |
| Channel.Connection.ProcessResponse | mediasoup/channel.go:190-221 | an accepted or failed response ends the request registered under its id; anything else changes nothing |
| Channel.Connection.GiveUp | mediasoup/channel.go:127-134 | a waiting request ends by timeout or by the close signal |
| Channel.Connection.CloseSocket | mediasoup/channel.go:56-66 | closing sets the flag; only a failed read also signals the waiting requests |
| Channel.EveryRun | mediasoup/channel.go:68-221 | in every run the k-th id is ((k-1) mod 4294967295)+1, and each request is waiting or has exactly one outcome, with its own id |
| Channel.ClosedIff | mediasoup/channel.go:56-173 | over every run the closed flag is set exactly by Close or a failed read, and waiting requests are signalled exactly by a failed read |
| Channel.ImmediateOutcome | mediasoup/channel.go:81-118 | a request after closing ends at once as closed, and one that is too big or cannot be written with that reason |
| Channel.SentWaits | mediasoup/channel.go:86-134 | any other request waits under its id |
| Channel.GivingUpEnds | mediasoup/channel.go:124-136 | a timeout ends a waiting request as timed out, the signal of a failed read as closed |
| Channel.MatchedKeptIff | mediasoup/channel.go:73-95 | a step keeps every waiting request reachable through its id if and only if it does not reuse the id of a waiting one |
| Channel.CollisionFreeIsMatched | mediasoup/channel.go:68-221 | after every run without such reuse, every waiting request is registered under its own id |
| Channel.RecentNeverCollides | mediasoup/channel.go:73-79 | no reuse when fewer than 4294967295 requests were issued since each waiting one |
| Channel.CollidesAtWrap | mediasoup/channel.go:73-79 | reuse at exactly 4294967295 |
| Channel.ResponseReachesItsRequest | mediasoup/channel.go:190-221 | in a run without reuse a response ends its own request and no other |
| Channel.StrayResponseIsIgnored | mediasoup/channel.go:198-202 | in every run a response no waiting request has the id of changes nothing |
| EventEmitter.ListenerList.Add | mediasoup/event_emitter.go:44-97 | AddListener and Once append the listener, in place while the array has room and in a new array otherwise, and change no other slot |
| EventEmitter.ListenerList.ShiftLeft | mediasoup/event_emitter.go:194 | the compaction moves the later slots left in place and leaves the last one stale |
| EventEmitter.ListenerList.RemoveListener | mediasoup/event_emitter.go:163-200 | the first listener with the identity is removed in place; reports whether there was one |
| EventEmitter.ListenerList.Emit | mediasoup/event_emitter.go:100-146 | the calls made and the list left while the array under the iteration is being compacted |
| EventEmitter.SingleOnce | mediasoup/event_emitter.go:108-118 | with one Once at slot p, not the last, the calls are slots 0..p, p+2..n-1 and n-1 again, and the Once listener is removed |
| EventEmitter.EarlyOnceSkips | mediasoup/event_emitter.go:108-118 | the listener after the first Once, if that is before the last two slots, is not called at all |
| EventEmitter.LateOnce | mediasoup/event_emitter.go:108-118 | with Once listeners in the last two slots only, all are called once in order and exactly the Once ones are removed |
| EventEmitter.CalledOnceInOrderIff | mediasoup/event_emitter.go:100-146 | everybody is called exactly once in order if and only if no Once precedes the last two slots |
| PauseMirror.Producer.constructor | mediasoup/producer.go:32-60 | a producer starts with the paused flag given |
| PauseMirror.Producer.SetPaused | mediasoup/producer.go:178-222 | Pause and Resume set the flag if the request succeeds, and emit only on a change |
| PauseMirror.PipeConsumer.constructor | mediasoup/router.go:434-448 | the pipe producer starts with the consumer's producerPaused |
| PauseMirror.PipeConsumer.Emit | mediasoup/router.go:462-463 | an observer event pauses or resumes the pipe producer |
| PauseMirror.PipeConsumer.Perform | mediasoup/consumer.go:203-319 | each call and notification does what the flag machine says, and the pipe producer follows its events |
| PauseMirror.EventsReplay | mediasoup/consumer.go:203-319 | over every run the observer events strictly alternate and replay to paused or producerPaused |
| PauseMirror.FlagsFollow | mediasoup/consumer.go:203-319 | over every run paused is what the last confirmed Pause or Resume made it, and producerPaused what the last notification did |
| PauseMirror.MirroredIff | mediasoup/router.go:450-464 | whichever link requests fail, the pipe producer agrees with the consumer if and only if an even number failed since the last success; before any success, if and only if that parity agrees with whether the two started alike |
| PauseMirror.MirrorIff | mediasoup/router.go:434-464 | with successful ones it agrees after every run if and only if some event was emitted or the consumer did not start paused with a running producer |
| PauseMirror.StartsUnmirrored | mediasoup/router.go:434-448 | a consumer created paused for a running producer is paused while its pipe producer is not |
| Lifecycle.CloseFailedLaws | mediasoup/transport.go:109-117 | a failed close request keeps every law: only the flag is set |
| Lifecycle.ProducerGoneLaws | mediasoup/producer.go:139-144 | taking a producer off both maps and telling its observer keeps the laws while its link is being closed |
| Lifecycle.ConsumerGoneLaws | mediasoup/consumer.go:162-169 | the same for a consumer |
| Lifecycle.OrphanedLaws | mediasoup/producer.go:148-161 | TransportClosed keeps the laws while the transport is closing |
| Lifecycle.MarkedLaws | mediasoup/transport.go:102-109 | setting the flag of a transport or router keeps the laws while it is closing |
| Lifecycle.RouterForgetsLaws | mediasoup/transport.go:119-123 | the router dropping a closing transport's producer keeps the laws |
| Lifecycle.ReleaseTransport | mediasoup/transport.go:119-137 | a transport that has been swept, announced and unpaired obeys the laws of settled objects |
| Lifecycle.PairDeletedLaws | mediasoup/router.go:417-425 | deleting the entry of a pair one of whose ends is closing keeps the laws |
| Lifecycle.RouterGoneLaws | mediasoup/router.go:76-97 | resetting a router's maps once its transports are closed keeps the laws |
| Lifecycle.WithProducerLaws | mediasoup/transport.go:297-303 | registering a producer in both maps under a free id keeps the laws |
| Lifecycle.WithPairingLaws | mediasoup/router.go:417-428 | pairing two new pipe transports under a free entry keeps the laws |
| Cascade.Session.CloseProducer | mediasoup/producer.go:122-145 | Close, from any depth of a cascade: it fails exactly when the worker refuses, and then sets the flag only; otherwise the producer is done; the laws, nothing reopened, nothing outside any sealed set closed |
| Cascade.Session.CloseConsumer | mediasoup/consumer.go:147-170 | the same for a consumer |
| Cascade.Session.ProducerCloseNotified | mediasoup/consumer.go:274-287 | the worker's notification closes the consumer and its link without a request |
| Cascade.Session.TransportClosed | mediasoup/producer.go:148-161 | closes a producer or consumer of a closing transport, and its link |
| Cascade.Session.TellLinked | mediasoup/router.go:461-467 | the link's listener closes the other end, after which the object is settled |
| Cascade.Session.CloseProducers | mediasoup/transport.go:119-124 | for every iteration order, all producers of the transport end closed and off both maps |
| Cascade.Session.CloseConsumers | mediasoup/transport.go:126-129 | the same for consumers |
| Cascade.Session.CloseTransport | mediasoup/transport.go:102-137 | the same for a transport with all it owns and its pair |
| Cascade.Session.RouterClosed | mediasoup/transport.go:144-172 | the same without a request, on behalf of a closing router |
| Cascade.Session.TellPairedTransport | mediasoup/router.go:417-425 | the pair's listener closes the other transport and removes the entry |
| Cascade.Session.CloseRouter | mediasoup/router.go:61-136 | Close, which fails exactly when the worker refuses, and workerClosed, which cannot: every transport closed, the maps reset, the laws kept |
| Cascade.Session.CreateRouter | mediasoup/router.go:22-40 | a new router obeys the laws |
| Cascade.Session.CreateTransport | mediasoup/router.go:286-330 | created, and in the router's map, exactly when the router is there and the worker grants it; otherwise nothing changes |
| Cascade.Session.Produce | mediasoup/transport.go:266-310 | created, and in both maps, exactly when the transport is there, the id is free and the request is granted; otherwise nothing changes |
| Cascade.Session.Consume | mediasoup/transport.go:334-398 | created, and in the transport's map, exactly when the router knows the producer, the transport is there and the request is granted; otherwise nothing changes |
| Cascade.Session.PipeConsume | mediasoup/pipe_transport.go:73-143 | the same on a pipe transport, where an unknown producer panics |
| Cascade.Session.CreatePair | mediasoup/router.go:392-428 | two connected pipe transports are paired exactly when both routers are there and the four requests are granted; otherwise whatever was created is closed again and nothing else |
| Cascade.Session.PipeThrough | mediasoup/router.go:431-467 | exactly when a linked pipe consumer and pipe producer result; otherwise both transports and the consumer are closed |
| Cascade.Session.PipeToRouter | mediasoup/router.go:343-470 | exactly when it succeeds; then the exact new state, with the ends linked and registered; each early error; the clean-up on failure |
| Registries.EmittedOnce | mediasoup/producer.go:139-144 | the observer close events are exactly the closed objects whose request did not fail, once each |
| Registries.ToldBottomUp | mediasoup/transport.go:119-137 | in every state an object's observer has been told after those of all that it owns |
| Registries.ListedByTransportIff | mediasoup/transport.go:297-303 | a transport's map is right about a producer if and only if its close did not fail or the transport is done |
| Registries.ListedByRouterIff | mediasoup/router.go:194-203 | exactly when a router's map is right about a producer |
| Registries.ConsumerListedIff | mediasoup/transport.go:387-393 | exactly when the consumers map is right about a consumer |
| Registries.TransportListedIff | mediasoup/router.go:194-197 | exactly when a router's transports map is right about a transport |
| Registries.FailedStaysListed | mediasoup/producer.go:127-137 | a failed close leaves the producer closed, listed by its transport and by its router, and its link as it was |
| Registries.RegistriesExact | mediasoup/transport.go:102-172 | with no failed request every registry holds exactly the open objects |
| Registries.RouterMapIsDisjointUnion | mediasoup/router.go:194-203 | then a router's producers map is the disjoint union of its transports' |
| Registries.LinkedTogether | mediasoup/router.go:461-467 | then both ends of a link are open or both closed |
| Registries.PairListedIff | mediasoup/router.go:417-428 | then a pair has its entry if and only if it is open |
| Registries.ClosedIsSealed | mediasoup/transport.go:102-172 | then the closed objects are closed under ownership and links |
| Registries.CascadeIsExact | mediasoup/router.go:61-97 | if no request for an object reachable from the closed one has failed, exactly those objects were closed |
| Registries.PipeClosesTogether | mediasoup/router.go:417-467 | from either transport, the consumer or the producer of a pipe both its consumer and producer are reached, and from a transport both transports |
| Registries.CloseObject | mediasoup/router.go:61-97 | Close on any object fails exactly when the worker refuses; if it grants the requests of all that is reachable, exactly those objects close and, with no earlier failure, the registries are exact |

## Left out

- Socket reads and writes, process spawning, signals, timers and logging: the read loop takes its chunks, and requests their outcomes, as inputs.
- JSON: messages are datatypes; `processNSPayload` on an empty payload, which panics, and log lines of the worker are not modelled.
- Data races between goroutines: calls, notifications and responses are atomic steps, and the handoff of a response to its waiting request is one of them.
- Listeners registered by users of the library, and panics recovered in `SafeEmit`: only the library's own listeners run.
- One object state per session: routers, transports, producers and consumers are identities with their fields in `Cascade.Session`, not separate heap objects.
- Rtp observers, WebRTC and plain transports' own fields, stats, dump, scores, layers and key frame requests: thin request wrappers that would only add easy members.
- `copier.Copy` and `mergo.Merge` are value copy and override by non-zero fields. Two writes through shared parameters are modelled: the merge into a row of the supported table, and the rewritten profile-level-id of a producer's codec. Each call starts from the table as written in the source; the theorems about allocation and merging hold of any table, so also of one that earlier calls have written to.
- Random ssrcs, uuids and fresh objects are inputs; CNAME handling and the `runtime.Caller` test in `Produce` are not modelled.
- Text is ASCII, as far as letter case and positions in bit patterns go, and header extensions carry no parameters.
- The decoder's output channel is an unbounded sequence; `int` has 64 bits.
- Listener identity is a number; the spare room of a grown array is an input; argument reflection and `RemoveAllListeners` are not modelled.
- ProducerMapping.GetProducerRtpParametersMapping: requires RTX capabilities to have parameters, which the code dereferences unchecked and generated capabilities have.
- Consumable.GetConsumableRtpParameters: requires an entry for every encoding, which the code indexes unchecked and `EncodingsInRange` supplies.
- Cascade.Session.Produce: the negotiation errors before the request count as a request that is not granted; `GetProducerRtpParametersMapping` and `GetConsumableRtpParameters` give them in full. The same goes for `Consume`.
- Cascade.Session.CloseTransport: does not say that its producers' observers are told before its consumers', nor in which order links interleave; only that what it owns comes before it.
