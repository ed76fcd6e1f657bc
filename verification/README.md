# A model of libgb28181

libgb28181 is a GB/T 28181 signalling stack: SIP sessions between a platform, its subordinate devices and its
superior platforms. This project models the parts of it whose behaviour spans several calls, threads or messages,
and proves what they keep over every input and every run.

| module | what it models |
|---|---|
| `Text` | the string operations the rest relies on: getline, split, decimal printing and scanning |
| `Sdp`, `SdpDescription` | the session description (RFC 4566, RFC 8839, GB/T 28181-2022 Annex G): data, printer and parser, as functions and as the object whose methods loop over lines |
| `SdpLocality` | what each part of a parsed description depends on |
| `SdpRoundTrip` | what comes back when a printed description is parsed |
| `SdpLines` | what each line does when it is added to a text, and what is printed but not read |
| `Drain` | sending the many answers to a query through several chains sharing a queue and a stop flag |
| `Answer` | the race between the application and the timeout to give a query its one answer |
| `Request` | the life of a request: reply, responses, timers and failures, and the map of pending requests |
| `RequestStatus` | which final status the result callback sees, by the events of a run |
| `ListRequest` | list queries answered in batches: counting and quiet-period timing |
| `ConfigFlags` | configuration types as flags, as a printed list, and the download of a set of them |
| `Invite` | the INVITE session and the registry of live sessions (sections 9.1, 13 and 15 of RFC 3261) |
| `InviteRace` | the same session with its handlers on several threads, step by step |
| `Digest` | digest challenge, answer and verification (section 3.2.2 of RFC 2617, section 22.4 of RFC 3261) |
| `Counters` | the lock-free sequence numbers and SSRC serials |
| `SipTimer` | the fire and stop race of a SIP timer |
| `Keepalive` | supervision of a subordinate platform |
| `Ptz` | the eight-byte PTZ frame (GB/T 28181-2022 Annex A) |

Concurrent code is a state machine: a datatype for the state, an event for each step, `Next` for one step and
`Execute` for a run; an event that is not possible does nothing, so a statement about every list of events is a
statement about every interleaving of those steps. In `Invite` and `Keepalive` a step is a whole handler; `InviteRace`
splits the INVITE handlers, and shows that handlers running one at a time are the steps of `Invite`. Beside it stands a class with the source's fields whose methods are proved to
make exactly those steps. Pure code is functions; loops that update variables are methods proved against them.

Clocks, random strings, hashes and the network are parameters: times and reply codes arrive with events, nonces are
arguments, and a hash is any function. Timers fire when they are due.

## Where the code differs from what one might expect

Each of these is a lemma, with the exact condition where the property holds after all.

- Free SDP attributes are printed with `=` and cannot be read back (`SdpRoundTrip.AttributesLost`); `RoundTrip` says
  exactly which descriptions survive.
- With two or more chains and three or more responses, responses can overtake each other (`Drain.Overtaking`);
  `Drain.SendOrder` is the exact condition.
- A request built with the explicit number of one still pending removes that one from the map (`Request.SharedNumber`);
  `Request.MapExactly` says when a request is in the map.
- A success reply that falls between the end a response, or anything else, has written and the result callback puts the
  status back to Replied (`Request.OverwrittenStatus`); `Request.FinalStatus` covers all runs without one.
- Starting or answering an INVITE session that has ended brings it back (`Invite.StartAfterEndRevives`); so does a
  handler that looks it up before it is removed from the registry, however long before its write
  (`InviteRace.AbsorbedExactly`). Two calls of `to_bye` past the guard send two requests
  (`InviteRace.OverlapRepeats`); `InviteRace.SecondRequest` says when a second one can still go out.
- An empty batch can report the end of a list a second time (`ListRequest.SecondReport`).
- One configuration type that was not requested keeps a download from completing (`ConfigFlags.StrayNeverEnds`).
- An account created with status online is never supervised (`Keepalive.OnlineStartUnsupervised`).
- A query without listeners can get 404 and a timeout answer (`Answer.RefusedAnswer`).
- Verification cannot tell users apart when user, realm and password join to the same text
  (`Digest.UserAndPasswordShareSeparators`); `Digest.UsersConfused` says which users, and those without a colon are safe.

## Model

| member | source | states |
|---|---|---|
| `Sdp.PriorityFormula` | src/request/sdp.cpp:15-18 | the candidate priority, computed by shifts and ors, is 2^24 * preference + 2^8 * 65535 + (256 - component) of RFC 8445, with preferences 126, 100, 110 and 0 for host, srflx, prflx and relay |
| `SdpRoundTrip.GeneratedThenParsed` | src/request/sdp.cpp:317-448 | exactly what `parse(generate(d))` yields for every description whose fields cannot be confused with separators, with any number of media, payloads, candidates, options and attributes: parsing succeeds and each lossy construct comes back in its stated form |
| `SdpRoundTrip.RoundTrip` | src/request/sdp.cpp:317-448 | such a description comes back unchanged if and only if it holds none of what the printer drops or the parser reads differently (free attributes, more than one ice-options, nameless payloads, a media-level `c=`, a related port without address, half an ICE credential, a connection whose ttl and count are not printed) |
| `SdpRoundTrip.AttributesLost` | src/request/sdp.cpp:389-392 | free attributes are printed with `=` and never come back as they were, however many there are |
| `SdpRoundTrip.CandidateBack` | src/request/sdp.cpp:39-156 | a printed ICE candidate is parsed back, up to the related port that needs its address |
| `SdpRoundTrip.ConnectionBack` | src/request/sdp.cpp:90-124 | a printed `c=` value is parsed back; ttl and address count survive exactly in the forms the printer writes |
| `SdpRoundTrip.RtpmapBack` | src/request/sdp.cpp:216-233 | a printed rtpmap value gives back payload number, name and clock rate |
| `SdpRoundTrip.HeadBack` | src/request/sdp.cpp:205-214 | a printed `m=` value gives back media type, port and transport, whatever payload numbers follow |
| `SdpRoundTrip.SessionBack` | src/request/sdp.cpp:370-392 | the printed session lines, read from scratch, give the surviving session |
| `SdpRoundTrip.BodyBack` | src/request/sdp.cpp:395-445 | the printed lines of a media section, read onto its fresh head, give the surviving media description |
| `SdpRoundTrip.OriginBack` | src/request/sdp.cpp:69-88 | a printed `o=` value is parsed back |
| `SdpRoundTrip.UriBack` | src/request/sdp.cpp:158-203 | a printed `u=` value is parsed back, with an HTTP one losing its file type |
| `SdpLocality.Locality` | src/request/sdp.cpp:317-368 | a text is accepted exactly when its session part and each of its sections are readable on their own; then the session depends only on the session part and each media description only on the lines from its `m=` to the next |
| `SdpLocality.OwnLinesKeepSession` | src/request/sdp.cpp:327-356 | inserting an `a=`, `c=`, `y=` or `f=` line after the first `m=` never changes the session |
| `SdpLocality.UnknownLine` | src/request/sdp.cpp:327-360 | a line with an unknown letter, or without `=` in second place, changes nothing wherever it stands |
| `SdpLocality.LineEnds` | src/request/sdp.cpp:322-327 | the CR LF and the LF form of the same lines are read alike when no line itself ends in a CR |
| `SdpLines.SectionConnection` | src/request/sdp.cpp:336-339 | a `c=` line after the printed lines of any section of any description: parsing gives that section the address and leaves the session and every other section as they were |
| `SdpLines.ConnectionLine` | src/request/sdp.cpp:90-124 | a printed `c=` line added to any accepted text with an open section changes exactly that section's connection |
| `SdpLines.AddressLine` | src/request/sdp.cpp:336-339 | `c=IN IP4 ` and `c=IN IP6 ` with an address: it is the open section's, or the session's when no section is open, and nothing else changes |
| `SdpLines.ShortConnection` | src/request/sdp.cpp:90-124 | a `c=` of fewer than three words stores the connection of a new description |
| `SdpLines.UncountedLine` | src/request/sdp.cpp:100-124 | a ttl and an address count that are no numbers are read as 0 and 1 |
| `SdpLines.BadAddressType` | src/request/sdp.cpp:54-60 | another address type makes parsing fail, in a section and outside, with everything before it kept |
| `SdpLines.TailLine` | src/request/sdp.cpp:352-359 | `y=` sets the number, or nothing when there is none, `f=` the text; before the first section neither has an effect |
| `SdpLines.TcpLine` | src/request/sdp.cpp:270-275 | `setup` active, passive or anything else, `connection` new or anything else |
| `SdpLines.DirectionLine` | src/request/sdp.cpp:262-269 | the four direction attributes, by their names |
| `SdpLines.NumberLine` | src/request/sdp.cpp:278-298 | streamnumber, streamprofile, stream, filesize and downloadspeed set their field, the stream number cut to sixteen bits; without a number the first three change nothing and the others are kept as free attributes |
| `SdpLines.StreamModeLine` | src/request/sdp.cpp:282-298 | `sub` and `Sub` are stream 1, `main` and `Main` stream 0, and any other mode is kept as a free attribute |
| `SdpLines.IceLine` | src/request/sdp.cpp:256-261 | credentials and candidates in a section; a candidate of one word is an empty one |
| `SdpLines.WordsLine` | src/request/sdp.cpp:126-156 | any candidate of eight words or more: component, transport, type and ports by their words; a port that is none, or too large, ends the reading after the address |
| `SdpLines.RtpmapLine` | src/request/sdp.cpp:216-233 | a payload is added for number, name and rate, none without a space or a slash |
| `SdpLines.UnnumberedRtpmap` | src/request/sdp.cpp:216-233 | a payload number or clock rate that is no number is 0 |
| `SdpLines.FreeLine` | src/request/sdp.cpp:293-298 | an attribute of another key is kept under what stands before the first colon; a repeated key keeps its first value |
| `SdpLines.MediaLine` | src/request/sdp.cpp:205-214 | `m=` opens a section: the type video or audio, the transport TCP only for its full name, everything else as in a new media description |
| `SdpLines.OddPortLine` | src/request/sdp.cpp:205-214 | a port that is no number is 0, one that is too large 65535, and the transport is then UDP |
| `SdpLines.SessionField` | src/request/sdp.cpp:332-346 | `v=`, `s=` and `t=` change the session wherever they stand, sections included; unreadable numbers and times change nothing |
| `SdpLines.OriginLine` | src/request/sdp.cpp:69-88 | `o=` with six words, or the origin of a new description with fewer |
| `SdpLines.UriLine` | src/request/sdp.cpp:158-203 | `u=`: HTTP whole; otherwise the digit after the first colon is the file type |
| `SdpLines.SessionAttributeLine` | src/request/sdp.cpp:243-252 | the four session attributes and the free ones, before the first section |
| `SdpLines.PayloadList` | src/request/sdp.cpp:395-399 | the `m=` line lists type, port, transport and then all payload numbers in order |
| `SdpLines.DigitsPrinted` | src/request/sdp.cpp:426-443 | the SSRC is printed in exactly ten digits of its value, and the stream number in all four of its lines |
| `SdpLines.NamesPrinted` | src/request/sdp.cpp:370-412 | the names printed for the session type, the actpass role, an existing connection and the file type 0 |
| `SdpLines.CandidateWords` | src/request/sdp.cpp:39-52 | the printed candidate, word by word, with its priority and the labels of the related address and port |
| `Text.LinesOfCrLf` | src/request/sdp.cpp:322-327 | lines ended by CR LF are read back exactly by the getline loop that drops one trailing CR |
| `Text.DecimalNotation` | src/request/sdp.cpp:396-443 | numbers are printed in decimal digits, most significant first, with a minus sign when negative |
| `SdpDescription.Description.Generate` | src/request/sdp.cpp:370-448 | the stream-appending loops produce the text the theorems are about |
| `SdpDescription.Description.ParseAttribute` | src/request/sdp.cpp:235-300 | splits key from value at the first colon and dispatches to session or open media section, leaving the other as it was |
| `SdpDescription.Description.ParseSessionAttribute` | src/request/sdp.cpp:243-252 | the cascade over the session's keys changes the field of the key, or keeps the attribute |
| `SdpDescription.Description.ParseMediaAttribute` | src/request/sdp.cpp:254-277 | the cascade over the media keys computes the effect of the attribute, kept as it is when a value is not understood |
| `SdpDescription.Description.ParseNumber` | src/request/sdp.cpp:278-298 | the keys with a number or mode: the field is set, or the attribute reported as not handled |
| `SdpDescription.Description.Parse` | src/request/sdp.cpp:317-368 | the getline loop over the fields computes `ParsedOnto` of the text and the old contents, failure included |
| `SdpDescription.Description.ParseLine` | src/request/sdp.cpp:327-361 | one round of the field switch, with the media section it may open |
| `SdpDescription.Description.ParseSessionField` | src/request/sdp.cpp:332-346 | the fields that belong to the session only |
| `SdpDescription.WriteMedia` | src/request/sdp.cpp:395-445 | a media section is appended line by line, in the order of the specification |
| `SdpDescription.WriteCandidates` | src/request/sdp.cpp:424-425 | one line per candidate is appended |
| `SdpDescription.WriteRtpmaps` | src/request/sdp.cpp:415-418 | one line per named payload is appended |
| `Drain.DrainSafety` | src/super_platform_impl.cpp:596-640 | in every interleaving of the chains: popped then remaining is the original list in order; every popped response is in exactly one of sent, lost with the platform, or held; nothing is sent twice; for concurrency n there are n chains, one for 0 and none below, and at most as many sends are outstanding |
| `Drain.SendOrder` | src/super_platform_impl.cpp:596-640 | the responses leave in list order in every run if and only if there is at most one chain or the list has at most two entries |
| `Drain.Overtaking` | src/super_platform_impl.cpp:599-630 | with two chains and three responses there is a run that sends response 2 before response 1 |
| `Drain.FirstSentFirst` | src/super_platform_impl.cpp:635-640 | in every run, whatever the concurrency, the first response sent is the first of the list |
| `Drain.OneChainInOrder` | src/super_platform_impl.cpp:635-637 | with one chain the responses sent are a prefix of the list, in order |
| `Drain.DrainTerminates` | src/super_platform_impl.cpp:596-640 | no run has more than 4 steps per response and 3 per chain |
| `Drain.DrainCompletes` | src/super_platform_impl.cpp:610-640 | if the platform stays and every send succeeds, or fails with ignore_4xx set and a code from 400 to 499 other than 408, a run is either able to go on or has sent the whole list, each response once |
| `Drain.CallbackDecides` | src/super_platform_impl.cpp:617-630 | after every run, for the callback of any send: a success, or a 4xx other than 408 with ignore_4xx set, sends its chain to the flag check again; any other outcome sets the stop flag and ends the chain, and from then on only chains already past the flag check pop, once each |
| `Drain.StopReasons` | src/super_platform_impl.cpp:596-634 | the flag is set by an empty queue, by a platform that is gone and by such a callback, by nothing else, and nothing clears it |
| `Drain.NegativeConcurrency` | src/super_platform_impl.cpp:638-640 | a negative concurrency sends nothing and leaves the list untouched |
| `Drain.StoppedPops` | src/super_platform_impl.cpp:597-633 | once the stop flag is set, only chains already past the flag check still pop, once each |
| `Drain.Context.PopFront` | src/super_platform_impl.cpp:600-607 | the locked pop takes the first entry, or sets the stop flag when there is none |
| `Drain.Context.SendItem` | src/super_platform_impl.cpp:608-617 | a popped response is sent, or lost with the stop flag set when the platform is gone |
| `Drain.Context.OnSent` | src/super_platform_impl.cpp:617-630 | the send's callback stops the drain or continues the chain, once per send |
| `Drain.Context.constructor` | src/super_platform_impl.cpp:585-596 | the queue, the cleared flag and one unstarted chain per unit of concurrency |
| `Drain.Context.StartNext` | src/super_platform_impl.cpp:635-640 | the loop starts one more chain |
| `Drain.Context.CheckFlag` | src/super_platform_impl.cpp:597-598 | a chain ends when the stop flag is set |
| `Answer.FirstAnswerOnly` | src/super_platform_impl.cpp:495-518 | in every interleaving of application answers, timeout and return, at most one answer is sent, that of the first to reach the flag |
| `Answer.AcceptedIsAnswered` | src/super_platform_impl.cpp:495-528 | a query answered with 200 has been answered exactly once when nothing is left to run and the platform is alive |
| `Answer.RefusedAnswer` | src/super_platform_impl.cpp:512-526 | a query without a listener gets 404, and the timeout's answer besides exactly when the timer fired before the handler returned |
| `Answer.ReturnDecides` | src/super_platform_impl.cpp:520-528 | 200 exactly when the dispatch found a listener, otherwise 404 with the timer cancelled |
| `Answer.FirstAnswers` | src/super_platform_impl.cpp:495-518 | the first answer, of the application or of the timer, is the one that goes out, after the timer has been cancelled |
| `Answer.SecondIsIgnored` | src/super_platform_impl.cpp:496-497 | whoever comes to the flag after that changes neither the winner nor what is sent |
| `Answer.GoneIsSilent` | src/super_platform_impl.cpp:501-509 | once the platform is gone nothing is sent |
| `Answer.Context.TestAndSet` | src/super_platform_impl.cpp:496-497 | the test-and-set lets exactly the first caller through |
| `Answer.Context.ReturnCode` | src/super_platform_impl.cpp:520-528 | the end of the handler: timer cancelled and 404 without a listener, 200 with one |
| `Answer.Context.OnTimeout` | src/super_platform_impl.cpp:512-518 | the fired timer answers like the application does |
| `Answer.Context.CancelTimeout` | src/super_platform_impl.cpp:498-499 | the winner cancels a timer that has not fired |
| `Answer.Context.Send` | src/super_platform_impl.cpp:501-509 | the winner's answer goes out while the platform is alive |
| `Request.CallbackOnce` | src/request/RequestProxyImpl.cpp:171-187 | in every run of creations, sends, failures, replies, responses, timers and posted completions of any number of requests, shared numbers included, no result callback fires twice |
| `Request.MapExactly` | src/platform_helper.cpp:226-233 | in every run, whatever numbers the requests share: a request is in the map if and only if it is sent and not completed, and no other request of its number has been sent or removed since it was sent |
| `Request.AgreesRun` | src/platform_helper.cpp:226-233 | in every run a request that is alone with its number is in the map exactly while it is sent and not completed |
| `Request.LateResponses` | src/platform_helper.cpp:360-374 | every response that comes after such a request has completed finds nobody, and gets 404 |
| `Request.FreshAlone` | src/platform_helper.cpp:132-146 | requests with numbers from `get_new_sn` are alone with them, for the first 2^31 - 1 requests |
| `Request.SharedNumber` | src/super_platform_impl.cpp:616-617 | after every run, for every number and any two kinds: sending and failing a second request of a number takes the pending first one out of the map |
| `Request.FinalStatus` | src/request/RequestProxyImpl.cpp:140-187 | in every run, with replies and responses in any order and number, in which no success reply is stored between a written end of the request (by a response, a timer, a failure or an earlier reply) and its callback, every callback sees Succeeded, Timeout or Failed |
| `Request.OverwrittenStatus` | src/request/RequestProxyImpl.cpp:140-183 | that condition is exact for every kind of request: after any run, such a reply followed by the rest of the completion shows the callback Replied |
| `RequestStatus.ResponseReports` | src/request/RequestProxyImpl.cpp:231-308 | in every run, for a request that waits and is listed: Succeeded after the one response, the ending batch or the ending config response, Failed after a response that does not load or refuses, whatever others do until the callback and whatever comes after |
| `RequestStatus.ResponseWaits` | src/request/RequestProxyImpl.cpp:231-246 | any other response leaves the request waiting, with its first timer cancelled and nothing else changed |
| `RequestStatus.ResponseCancels` | src/request/RequestProxyImpl.cpp:293-296 | after a response the first timer has no effect any more, after an ending one neither has the timer of a list request or a download; any other response leaves that one as it was |
| `RequestStatus.ReplyReports` | src/request/RequestProxyImpl.cpp:140-157 | a success ends a request without response as Succeeded; any other code ends every request, as Timeout for 408 or without a message, otherwise as Failed |
| `RequestStatus.RepliedThenTimer` | src/request/RequestProxyImpl.cpp:153-169 | a success reply leaves a request that waits for a response waiting, and either of its timers then reports Timeout |
| `RequestStatus.TimerReports` | src/request/RequestProxyImpl.cpp:158-169 | a timer that finds Replied reports Timeout; otherwise the timer of a list request does so too, that of a download reports the status it finds, and the first timer does nothing |
| `RequestStatus.SendFailureReports` | src/request/RequestProxyImpl.cpp:221-225 | a failed transport reports Failed |
| `RequestStatus.BadPayloadReports` | src/request/RequestProxyImpl.cpp:211-215 | a payload that cannot be made reports Failed |
| `RequestStatus.NoMessageIsMute` | src/request/RequestProxyImpl.cpp:189-195 | without a message no callback is ever called |
| `RequestStatus.SentWaits` | src/request/RequestProxyImpl.cpp:216-229 | an accepted request is listed under its number and waits |
| `RequestStatus.ReplyArms` | src/request/RequestListImpl.cpp:42-46 | a success reply arms the timer of a list request, any reply that of a download, and no other is armed |
| `RequestStatus.RemovalQuiets` | src/request/RequestProxyImpl.cpp:171-187 | the end of a completion drops the callback and the timer, and nothing else changes |
| `RequestStatus.SeenStays` | src/request/RequestProxyImpl.cpp:171-187 | the status reported is the only one ever reported |
| `Request.RequestProxy.OnCompleted` | src/request/RequestProxyImpl.cpp:171-187 | the three steps of completion run at once: the flag, the callback, and the removal of exactly the map entry of its number; nothing when the flag was set |
| `Request.RequestProxy.SendRequest` | src/request/RequestProxyImpl.cpp:189-229 | sending registers the request, or completes it at once as failed |
| `Request.RequestProxy.OnReply` | src/request/RequestProxyImpl.cpp:140-170 | the reply's status, both timers, and completion unless the status is Replied |
| `Request.RequestProxy.OnResponse` | src/request/RequestProxyImpl.cpp:247-308 | cancels the timer, and by the kind of request ends it, posts its completion or goes on; what the sender is told: 400 when the response does not load, 200 for a refused download, otherwise the answer of the response callback, never 0 for a single response |
| `Request.RequestProxy.OnPosted` | src/request/RequestProxyImpl.cpp:241-244 | the posted completion of a response completes the request unless something else has |
| `Request.RequestProxy.OnBaseTimer` | src/request/RequestProxyImpl.cpp:158-169 | the 5 s timer times out a request that is still Replied, and does nothing otherwise |
| `Request.PlatformHelper.OnResponse` | src/platform_helper.cpp:360-374 | a response is handed to the request listed under its number and to no other, 404 when there is none |
| `Request.RequestProxy.StoreReplyStatus` | src/request/RequestProxyImpl.cpp:140-149 | status by code and kind of request, and the timer of its kind |
| `Request.RequestProxy.DecideOnReply` | src/request/RequestProxyImpl.cpp:154-169 | complete, or arm the 5 s timer when Replied |
| `Request.RequestProxy.OnListResponse` | src/request/RequestListImpl.cpp:22-35 | the response that reaches the total stops the timers and writes success, and then the completion it leads to |
| `Request.RequestProxy.OnConfigResponse` | src/request/RequestConfigDownloadImpl.cpp:19-39 | an ending response writes success and a refusal failure, and then the completion it leads to |
| `ListRequest.EndReportedOnce` | src/request/RequestListImpl.cpp:13-36 | any split of the total into batches, in any interleaving of atomic add and judgement: a batch reports the end exactly when its running sum is the total; then only empty batches are outstanding, a second report needs an empty batch, and among positive batches all others have smaller running sums |
| `ListRequest.EndReported` | src/request/RequestListImpl.cpp:18-27 | once all batches have been handled one of them has reported the end |
| `ListRequest.SecondReport` | src/request/RequestListImpl.cpp:18-27 | for every split of the total: some interleaving lets two batches report the end if and only if there are at least two batches and one is empty |
| `ListRequest.ListTiming` | src/request/RequestProxyImpl.cpp:140-169 | in every run after the reply, batches during the reply callback included, with the last message taken from the events: a timeout comes at least 5000 ms after it; a request is never pending more than 15000 ms after it, nor, when nothing came, more than 10000 ms after its reply or 5000 ms after the reply callback returned |
| `ListRequest.MessageDecides` | src/request/RequestListImpl.cpp:13-36 | a batch ends the request, at once, exactly when its total does not exceed the items of all handled messages; any batch stops the first timer |
| `ListRequest.TimersDecide` | src/request/RequestListImpl.cpp:42-61 | the list's timer first fires 10000 ms after the reply, and times out exactly when the last message is more than 5000 ms old, otherwise it fires again 10000 ms later; the first timer fires 5000 ms after the reply callback and times out |
| `ListRequest.SilenceEnds` | src/request/RequestListImpl.cpp:46-61 | once the reply has been handled and without further messages the request times out exactly at its deadline: the earlier of its two timers, between 5 s and 15 s after the last message, and 5 s after arming when nothing came |
| `ListRequest.SilenceStops` | src/request/RequestListImpl.cpp:46-61 | the timers alone bring it there in at most two firings |
| `ListRequest.RequestList.OnResponse` | src/request/RequestListImpl.cpp:13-36 | a batch resets the clock, cancels the first timer, adds up, and completes the request when the total is reached |
| `ListRequest.RequestList.OnTimer` | src/request/RequestListImpl.cpp:48-60 | a tick times out after more than 5 s of silence and otherwise stays armed |
| `ListRequest.RequestList.constructor` | src/request/RequestListImpl.cpp:42-46 | the reply stored: clock reset, the list's timer armed |
| `ListRequest.RequestList.ArmFirstTimer` | src/request/RequestProxyImpl.cpp:154-169 | after the reply callback the 5 s timer is armed if the request is still Replied |
| `ListRequest.RequestList.OnFirstResponseTimer` | src/request/RequestProxyImpl.cpp:158-169 | no response within 5 s of the reply times the request out |
| `ConfigFlags.FlagsRoundTrip` | src/type_define_ext.cpp:273-291 | for any table of distinct single flags with usable, case-insensitively distinct names, printed in one order of the table and read in any other: exactly the known flags come back, and nothing is printed exactly when there are none |
| `ConfigFlags.ParsedExactly` | src/type_define_ext.cpp:671-687 | reading any text: a flag is in the result if and only if it was before, or some piece between slashes is its name in any case |
| `ConfigFlags.TypesTable` | include/gb28181/type_define.h:251-263 | the twelve configuration types form such a table |
| `ConfigFlags.Print` | src/type_define_ext.cpp:273-291 | the loop that appends a slash to each name and drops the last one prints the joined names |
| `ConfigFlags.Parse` | src/type_define_ext.cpp:671-687 | the split and search loops compute the set of named flags |
| `ConfigFlags.LowerLetters` | src/type_define_ext.cpp:671-687 | names are compared with exactly the letters A to Z taken as their small ones |
| `ConfigFlags.Complete` | src/request/RequestConfigDownloadImpl.cpp:17-19 | what has been received equals what was requested if and only if no response brought a type not requested and every requested flag was in some response |
| `ConfigFlags.DownloadEnds` | src/request/RequestConfigDownloadImpl.cpp:14-45 | with responses of requested types only, in any order and grouping, the download has ended, successfully, exactly when every requested flag has arrived |
| `ConfigFlags.StrayNeverEnds` | src/request/RequestConfigDownloadImpl.cpp:18-24 | once a type that was not requested has come, while the download is running, no further responses complete it (short of a refusal) |
| `ConfigFlags.DownloadStatus` | src/request/RequestConfigDownloadImpl.cpp:14-45 | for every sequence of responses: failed exactly when an empty response without OK came before all that was requested, and nothing else, had come; succeeded exactly when that had come first; otherwise still running |
| `ConfigFlags.RequestConfigDownload.Receive` | src/request/RequestConfigDownloadImpl.cpp:14-45 | accumulates the types, ends on equality, fails on an empty response whose result is not OK |
| `Invite.InviteAbsorption` | src/request/invite_request_impl.cpp:266-276 | handlers one at a time, over every run in which the application starts or answers a session only while it is live: a session in the registry is live, and one that has ended (bye, cancel, failed) never becomes live again |
| `Invite.StartAfterEndRevives` | src/request/invite_request_impl.cpp:402-460 | that condition is needed at every ended session: starting or answering it re-registers it, and the next provisional reply or ACK revives it |
| `Invite.InviteEnding` | src/request/invite_request_impl.cpp:278-386 | handlers one at a time, over every run with one start or answer: at most one of CANCEL and BYE, CANCEL only before a final reply, BYE only with a dialog, neither after the peer ended the session; the result callback at most once; an answered incoming session acknowledged or ended once its 5 s step has run |
| `Invite.EndSends` | src/request/invite_request_impl.cpp:358-386 | ending a session by the application, its release or the ACK timer: CANCEL and Cancelled while the transaction stands, else BYE and ByeSeen in a dialog, else Cancelled without a request, and ByeSeen without one when the platform is gone; an ended session is left alone |
| `Invite.FlagsAreEvents` | src/request/invite_request_impl.cpp:278-355 | in every run what that choice rests on is what has happened: the transaction stands from a start to the next handled final reply, a dialog comes with an incoming session or a final reply, the platform lives until it is gone |
| `Invite.RegisteredExactly` | src/request/invite_request_impl.cpp:266-276 | when started only while live, a session is in the registry exactly when it has begun and is live |
| `Invite.FinalDecides` | src/request/invite_request_impl.cpp:297-355 | a final reply to a registered session: Acked when it succeeds with a readable description and the ACK goes out, otherwise Failed, a success after a BYE where there is a dialog; the application is told if it has not been |
| `Invite.PeerDecides` | src/request/invite_request_impl.cpp:278-296 | the peer's BYE, CANCEL and ACK and a provisional reply give ByeSeen, Cancelled, Acked and Trying to a registered session, and do nothing to one that is not |
| `Invite.StartDecides` | src/request/invite_request_impl.cpp:402-460 | a new session is live, unregistered and unstarted; starting it registers it with transaction and callback |
| `Invite.AnswerDecides` | src/request/invite_request_impl.cpp:528-573 | an accepted answer with a description registers the session and arms its timer, any other fails it |
| `Invite.SendDecides` | src/request/invite_request_impl.cpp:450-459 | a send failure fails the session and tells the application unless it has been told; the ACK timer leaves an acknowledged session alone |
| `Invite.InviteRequest.SetStatusTo` | src/request/invite_request_impl.cpp:266-276 | a status past ack removes the session, and only it, from the registry |
| `Invite.InviteRequest.ToByeRequest` | src/request/invite_request_impl.cpp:358-386 | the choice between CANCEL, BYE and nothing |
| `Invite.InviteRequest.ToInviteRequest` | src/request/invite_request_impl.cpp:402-460 | a start registers the session with transaction and callback |
| `Invite.InviteRequest.SettleReply` | src/request/invite_request_impl.cpp:313-350 | a usable final answer is acknowledged; any other success is ended before it fails |
| `Invite.InviteRequest.OnFinalReply` | src/request/invite_request_impl.cpp:297-355 | a final reply ends the transaction, keeps the dialog, settles the status and reports once |
| `Invite.InviteRequest.OnAnswer` | src/request/invite_request_impl.cpp:528-573 | an accepted incoming session is registered and its timer armed; a rejected one fails |
| `Invite.InviteRequest.OnAckTimer` | src/request/invite_request_impl.cpp:558-567 | without an ACK within 5 s the session is ended |
| `Invite.InviteRequest.constructor` | src/request/invite_request_impl.cpp:512-518 | a new session is live, not registered, and in a dialog exactly when incoming |
| `Invite.InviteRequest.Callback` | src/request/invite_request_impl.cpp:350-353 | the result callback is dropped once it has been called |
| `Invite.InviteRequest.OnSendResult` | src/request/invite_request_impl.cpp:450-459 | a send failure fails the session while its callback is outstanding |
| `InviteRace.SerialIsAtomic` | src/request/invite_request_impl.cpp:266-386 | a handler whose steps (lookup, guard, request, status, removal, callback) run without another in between makes exactly the one step `Invite` has for it, for every handler and state |
| `InviteRace.AbsorbedExactly` | src/request/invite_request_impl.cpp:266-295 | at every ended session, with starts and answers only while live: some interleaving of the handlers' steps makes it live again if and only if it is still in the registry, or a handler that found it is about to write a live status or holds a usable answer |
| `InviteRace.RegisteredIsLive` | src/request/invite_request_impl.cpp:266-276 | in such interleavings, with starts and answers only while live: a session in the registry is live, or some thread is about to remove it |
| `InviteRace.RequestsInTurn` | src/request/invite_request_impl.cpp:358-386 | in every interleaving with one start or answer: CANCEL goes out only while no final reply has been seen, BYE only with a dialog |
| `InviteRace.FurtherRequest` | src/request/invite_request_impl.cpp:278-386 | at every state, whatever has been sent or ended: some interleaving sends a further CANCEL or BYE if and only if the platform is alive and a call of `to_bye` can still pass its guard with a transaction or a dialog, spelt out by status, registry and what each thread holds |
| `InviteRace.SecondRequest` | src/request/invite_request_impl.cpp:278-386 | so after every run that has sent a request, a second can go out exactly then |
| `InviteRace.RaceEnding` | src/request/invite_request_impl.cpp:278-386 | in every interleaving with one start or answer, no live write after the end and no `to_bye` call that overlaps the end or another call: at most one request, justified, and an answered session acknowledged or ended after its timer step; one result, with check, call and drop of the callback taken as one step |
| `InviteRace.OverlapRepeats` | src/request/invite_request_impl.cpp:359-381 | at every state with something to send, two calls of `to_bye` past the guard send twice |
| `InviteRace.StaleRepeats` | src/request/invite_request_impl.cpp:586-597 | at every state of a session ended by a request, a live status written after the end and then `to_bye` send again |
| `InviteRace.ExclusiveIsClean` | src/request/invite_request_impl.cpp:266-386 | when handlers only begin after the others have finished, no live status is written after the end and no call of `to_bye` overlaps |
| `Digest.ParseAuthorizationHeader` | src/inner/sip_common.cpp:288-316 | the piece loop computes the map of fields, or throws where the source does |
| `Digest.ChallengeParsed` | src/inner/sip_common.cpp:375-383 | the challenge the server prints parses to its realm and nonce |
| `Digest.AnswerParsed` | src/inner/sip_common.cpp:452-466 | the header the client prints parses to exactly the values it printed, with and without qop |
| `Digest.ServerAccepts` | src/inner/sip_common.cpp:347-467 | for any hash with comma-free digests and any user, password, realm, nonce and URI without commas: the answer to the server's own challenge is accepted for a REGISTER with the same user and password |
| `Digest.MatchingAccepted` | src/inner/sip_common.cpp:347-467 | likewise for any parsed challenge, whatever its qop and algorithm, with auth-int for equal bodies |
| `Digest.AcceptedExactly` | src/inner/sip_common.cpp:347-374 | for a hash without collisions on the strings at hand and any qop, user and password on the server's side: accepted if and only if the method is REGISTER, with auth-int the bodies agree, and the first hash inputs agree; between users without a colon, or for the answering user, if and only if users and passwords are equal |
| `Digest.NoCredentials` | src/inner/sip_common.cpp:347-354 | a header that is missing, without the word `Digest`, or without `=` after it is refused for every method, body, user and password; one that ends with the word makes parsing throw |
| `Digest.VerifiedExactly` | src/inner/sip_common.cpp:347-374 | for hashes without empty digests: accepted if and only if the parsed header has a `response` field equal to the request digest of RFC 2617, written out from the hash for the server's user and password and the request's method, body and fields, by MD5 unless another algorithm is named |
| `Digest.AnswerSays` | src/inner/sip_common.cpp:396-467 | the client's answer to any parsed challenge, field by field, its response the same request digest for a REGISTER |
| `Digest.NoAnswer` | src/inner/sip_common.cpp:385-405 | without a challenge, or with one that lacks realm or nonce, no answer is made and nothing is counted |
| `Digest.OwnChallenge` | src/inner/sip_common.cpp:375-383 | the text of the server's challenge, and that its answer is the MD5 digest of the form without qop |
| `Digest.FieldAdded` | src/inner/sip_common.cpp:288-316 | a field added to any header: blanks around its key and quotes around its value go, the last value of a key counts, a piece without `=` adds nothing |
| `Digest.VerifyAuthorization` | src/inner/sip_common.cpp:347-374 | the verification computes `Verify`, or throws where parsing does |
| `Digest.HexNotation` | src/inner/sip_common.cpp:424-426 | counts are printed in lower-case hexadecimal digits |
| `Digest.SameA1` | src/inner/sip_common.cpp:357-357 | the first hash inputs of users without a colon agree exactly for equal users and passwords |
| `Digest.UsersConfused` | src/inner/sip_common.cpp:357-357 | two users have passwords with the same first hash input if and only if one of them, joined with the realm, begins the other |
| `Digest.SameA2` | src/inner/sip_common.cpp:358-366 | the second hash inputs agree exactly for a REGISTER, with auth-int of the same body |
| `Digest.UserAndPasswordShareSeparators` | src/inner/sip_common.cpp:357-357 | for every user, realm and password there is another user with a password that gives the same first hash input |
| `Digest.CountsDiffer` | src/inner/sip_common.cpp:415-426 | consecutive answers to one nonce carry different eight-digit counts |
| `Digest.Authorizer.GenerateAuthorization` | src/inner/sip_common.cpp:396-467 | produces the specified header and updates the nonce count |
| `Counters.RefinesAtomic` | src/platform_helper.cpp:132-146 | with any number of threads interleaving loads and weak compare-and-swaps, spurious failures included, the k-th success hands out 1 + (k mod limit), never 0 |
| `Counters.AttemptDecides` | src/platform_helper.cpp:136-144 | an attempt succeeds when the value is as expected and it does not fail spuriously, and otherwise only reloads |
| `Counters.Limits` | src/inner/sip_server.cpp:174-187 | request numbers run from 1 to 2^31 - 1; an SSRC is 1000000000 for playback plus 10000 times the domain plus a serial from 1 to 9999 that counts the calls of its domain |
| `Counters.EarlierCounts` | src/inner/sip_server.cpp:174-187 | the serial counts the earlier calls of the same domain and no others |
| `Counters.AtDistinct` | src/platform_helper.cpp:135-135 | no repeat among any `limit` consecutive numbers |
| `Counters.SnDistinct` | src/platform_helper.cpp:132-146 | no sequence number repeats among 2^31 - 1 consecutive ones |
| `Counters.SsrcDecodes` | src/inner/sip_server.cpp:184-186 | for domains up to 99999 the SSRC fits in 31 bits and decodes to playback flag, domain and serial |
| `Counters.SsrcInjective` | src/inner/sip_server.cpp:184-186 | equal SSRCs come from equal flag, domain and serial, so servers of different domains never collide |
| `Counters.SsrcRepeats` | src/inner/sip_server.cpp:24-24 | two calls get one SSRC if and only if they are of one domain and kind and a multiple of 9999 calls of that domain apart |
| `Counters.SsrcUnique` | src/inner/sip_server.cpp:174-187 | no repeat within 9999 consecutive calls of a domain, live and playback mixed |
| `Counters.Counter.Take` | src/platform_helper.cpp:132-146 | with other threads taking any numbers between the attempts, and spurious failures: the loop hands out the number whose turn it was when its attempt succeeded, and moves the counter on by one |
| `Counters.Counter.MakeSsrc` | src/inner/sip_server.cpp:174-187 | builds the SSRC from the number taken |
| `Counters.Counter.CompareExchangeWeak` | src/platform_helper.cpp:137-144 | the counter changes exactly on success, which needs the expected value; otherwise the current value is observed |
| `SipTimer.TimerSafety` | src/inner/timer_impl.cpp:21-58 | in every interleaving of fire, stop and cleanup, stop called from inside the handler or from the poller's thread included: the handler runs at most once, the context is freed at most once and never touched afterwards |
| `SipTimer.StopResult` | src/inner/timer_impl.cpp:48-57 | stop returns 0 exactly when it won; then the handler has not run and never will, in any continuation |
| `SipTimer.UsesBeforeRelease` | src/inner/timer_impl.cpp:21-58 | in every interleaving each step that uses the context comes before its release, and a side wins the flag exactly when the other has not tried |
| `SipTimer.CleanupHappens` | src/inner/timer_impl.cpp:50-55 | after a stop some step is always possible until the context has been freed |
| `SipTimer.TimerContext.OnTimer` | src/inner/timer_impl.cpp:26-33 | the firing task runs the handler only if it wins the flag |
| `SipTimer.TimerContext.StopTimer` | src/inner/timer_impl.cpp:38-58 | stop's result and the posted cleanup |
| `SipTimer.TimerContext.CompareExchangeStrong` | src/inner/timer_impl.cpp:29-29 | exactly the first of the two sides wins the flag |
| `SipTimer.TimerContext.OnCleanup` | src/inner/timer_impl.cpp:50-55 | cancels the delayed task if it is still there and frees the context |
| `Keepalive.ArmedWhenOnline` | src/subordinate_platform_impl.cpp:157-187 | from a start that is not online, in every run the supervision timer exists exactly while the status is online |
| `Keepalive.OnlineStartUnsupervised` | src/subordinate_platform_impl.cpp:491-493 | the start matters: an account made online is not supervised, and stays online without registration or logout |
| `Keepalive.SilentBeforeTimeout` | src/subordinate_platform_impl.cpp:169-182 | in every run a platform is only taken offline for silence by a tick at least 90000000 us after its last sign of life, taken from the events: the last accepted registration, keepalive while online, or the times given to a disguise |
| `Keepalive.EventsDecide` | src/subordinate_platform_impl.cpp:157-223 | what registration, logout, keepalive and disguise do to status, times and timer: a registration counts from now and sets the timer 5000000 us ahead, a keepalive counts only while online, a disguise only while not |
| `Keepalive.TickDecides` | src/subordinate_platform_impl.cpp:169-180 | in every run, each tick takes the platform offline if and only if the last sign of life is 90000000 us old or older, and otherwise sets the next tick 5000000 us later |
| `Keepalive.GapsNeverTimeOut` | src/subordinate_platform_impl.cpp:169-180 | signs of life less than 90000000 us old at every tick keep a platform from ever being timed out |
| `Keepalive.TakenOffline` | src/subordinate_platform_impl.cpp:167-182 | in every run, a platform that is not disguised and silent from then on is online less than 95 s after its last sign of life, or was taken offline between 90 s and 95 s after it |
| `Keepalive.SilenceEnds` | src/subordinate_platform_impl.cpp:167-182 | a platform silent since L is taken offline exactly at its deadline, in [L + 90 s, L + 95 s); a disguised one with older times at the first tick |
| `Keepalive.SilenceStops` | src/subordinate_platform_impl.cpp:167-182 | the ticks alone bring it there |
| `Keepalive.SubordinatePlatform.SetPlatformStatus` | src/subordinate_platform_impl.cpp:157-186 | online arms the timer and stores the time, anything else drops it |
| `Keepalive.SubordinatePlatform.OnKeepAliveMessage` | src/subordinate_platform_impl.cpp:204-223 | a keepalive counts only while online; otherwise 0 and no change |
| `Keepalive.SubordinatePlatform.Disguise` | src/subordinate_platform_impl.cpp:491-513 | no effect while online, otherwise online with the given times and a new timer |
| `Keepalive.SubordinatePlatform.OnTimer` | src/subordinate_platform_impl.cpp:169-180 | a tick compares the later of the two times, in 64 bits, with the clock |
| `Keepalive.SubordinatePlatform.OnRegister` | src/subordinate_platform_impl.cpp:76-90 | an accepted registration goes online and arms a new timer, one that expires at once goes offline |
| `Ptz.AddressUnchanged` | include/gb28181/type_define.h:432-564 | whatever builders are called, in whatever order, the device address read back is the low 12 bits of the one given at creation |
| `Ptz.MoveAccepted` | include/gb28181/type_define.h:444-466 | a move takes effect exactly when the frame is a movement frame and the directions then set hold no opposing pair; a rejected one changes nothing |
| `Ptz.FiAccepted` | include/gb28181/type_define.h:473-489 | likewise for lens operations on any frame, by the range of its command byte; on frames made by builders exactly when a lens command results |
| `Ptz.NewFrame` | include/gb28181/type_define.h:432-435 | a new frame holds the start byte, the 12 bits of the address in their two places, and zeros |
| `Ptz.MoveBytes` | include/gb28181/type_define.h:444-466 | a move on any frame, byte by byte: the bit of its direction, and its speed in the byte of its axis, or nothing on contradicting directions or another family |
| `Ptz.LensBytes` | include/gb28181/type_define.h:473-489 | a lens operation on any frame, byte by byte: its command, the focus speed in one byte, the iris speed in the other |
| `Ptz.NamedBytes` | include/gb28181/type_define.h:496-541 | preset, scan, scan speed and auxiliary commands on any frame: their codes and the bytes they write |
| `Ptz.CruiseBytes` | include/gb28181/type_define.h:514-522 | the five cruise commands on any frame: their codes and the bytes they write |
| `Ptz.CommandDefined` | include/gb28181/type_define.h:444-541 | after any builders the command byte is a movement or lens combination without opposing pair, or one named command |
| `Ptz.CruiseValue` | include/gb28181/type_define.h:514-535 | speeds and stay times are read back modulo 2^12, other cruise values modulo 2^8 |
| `Ptz.Accepted` | include/gb28181/type_define.h:544-557 | a text is accepted as a frame exactly when its digit pairs, in either case, spell the frame, it starts with A5 and its last byte is the sum of the others |
| `Ptz.HexRoundTrip` | include/gb28181/type_define.h:544-562 | after any builders, `FromHex(ToHex())` is the frame `ToHex` left |
| `Ptz.FinishedBytes` | include/gb28181/type_define.h:748-755 | whatever was built on a new frame, `ToHex` writes 0F as the second byte and the sum of the others modulo 256 as the last, and leaves the rest |
| `Ptz.SecondByteWritten` | include/gb28181/type_define.h:751-755 | on any frame `ToHex` keeps the version half of the second byte and writes the sum of the other halves of the first two bytes modulo 16 beside it |
| `Ptz.DigitTable` | include/gb28181/type_define.h:737-745 | digits are written in upper case and read in either |
| `Ptz.OneByteChanged` | include/gb28181/type_define.h:756-762 | with any two characters written over one byte's digits, the text is accepted if and only if they spell the same byte |
| `Ptz.ExchangeUnseen` | include/gb28181/type_define.h:748-750 | two different bytes exchanged between the first and the last are not noticed |
| `Ptz.PtzCommand.MoveTo` | include/gb28181/type_define.h:444-466 | command byte and the speed of the axis moved, the address half of byte 6 kept; no byte changes when rejected |
| `Ptz.PtzCommand.CruiseTrack` | include/gb28181/type_define.h:514-522 | command, track and value; its high bits go beside the address for speeds and stay times only |
| `Ptz.PtzCommand.ToHex` | include/gb28181/type_define.h:558-562 | writes both check bytes, leaves the rest, and prints the frame |
| `Ptz.PtzCommand.ReadHex` | include/gb28181/type_define.h:544-557 | a new object with the frame of the text, or none |
| `Ptz.PtzCommand.constructor` | include/gb28181/type_define.h:432-435 | start byte, the 12 bits of the address in their two places, zeros elsewhere |
| `Ptz.PtzCommand.LensTo` | include/gb28181/type_define.h:473-489 | command and the speed byte of the operation, or no change |
| `Ptz.PtzCommand.PresetPosition` | include/gb28181/type_define.h:496-500 | command and number, all other bytes kept |
| `Ptz.PtzCommand.ScanGroup` | include/gb28181/type_define.h:523-528 | command, group and direction, all other bytes kept |
| `Ptz.PtzCommand.ScanGroupSpeed` | include/gb28181/type_define.h:529-535 | command, group and twelve bits of speed, the low half of byte 6 kept |
| `Ptz.PtzCommand.Auxiliary` | include/gb28181/type_define.h:537-541 | command and switch number, all other bytes kept |
| `Ptz.BuiltKeepsHead` | include/gb28181/type_define.h:444-562 | from any frame, one read from text included, builders keep the start byte and both places of the address |

## Left out

Contracts of code outside the repository, taken as given:

- `toolkit::split` on one character drops empty pieces; of an empty text it gives no piece.
- tinyxml2's number scanning: decimal with leading spaces and a sign; its hexadecimal prefix is not modelled, and a
  number beyond its target is reduced modulo the width.
- the stream extraction of the port of an `m=` line: signs are not modelled.
- libsip delivers one final reply, or 408, per transaction; pollers run their tasks one at a time; a hash is a
  function with comma-free digests.
- memory orders of the atomics: every atomic step is taken as sequentially consistent.

Simplifications inside the modelled parts:

- unordered maps of SDP attributes are sequences in iteration order; `SdpRoundTrip.RoundTrip` compares them as maps.
- SdpRoundTrip.GeneratedThenParsed: for fields that can be mistaken for separators (spaces, line feeds, colons in
  attribute keys) and for candidates of unknown type nothing is said; a candidate of unknown type, or a TCP medium
  without a setup role, makes the printer read past a table. UDP media have no setup role in the model.
- a connection address made only of slashes is read as an empty one.
- Request.CallbackOnce: a completion is three steps, a reply two, and a response, a timer or a failure one before its
  completion; exceptions thrown by user callbacks, and what user callbacks do besides, are not part of the model.
- Request.LateResponses: a response that was looked up before the removal and handled after it is a `Respond` step
  before the `Remove` step.
- Counters.Counter.Take: what other threads do is a list, so finitely many attempts fail, as weak compare-and-swap may
  fail for ever.
- Digest.ServerAccepts: the counter stays below the largest signed number, whose overflow is undefined in the source;
  the comparison with 0xFFFFFFFF never takes effect before it.
- Digest.AcceptedExactly: no hash of fixed length is injective on all strings, so the absence of collisions is asked for
  on exactly the pairs of strings that verification compares; with auth-int the method is a token without a colon.
- Invite.InviteAbsorption: a handler is one step; `InviteRace.AbsorbedExactly` and `RegisteredIsLive` have the interleavings.
- Invite.InviteEnding: a handler is one step; `InviteRace.SecondRequest` and `RaceEnding` have the interleavings. In both
  modules starting and answering a session are one step, and so is checking, calling and dropping the result callback;
  sending the ACK and the requests is a flag of the event or an entry of a log; a session's entry
  in the registry is keyed by its address, whose reuse after destruction is not modelled.
- Keepalive.SilenceEnds: times within 90 s of the 64-bit limit, which only a disguise can bring in, are excluded,
  because the sum wraps there.
- InviteRace.FurtherRequest: several final replies may come in the model, though a transaction has one.
- ListRequest.ListTiming: responses that come before the reply are not part of the timing; the running sum is not cut
  to 32 bits.
- Ptz.CommandDefined: command codes are the named ones of the enumerations; values cast into them are not modelled.
- ConfigFlags.FlagsRoundTrip: the XML element around the text is not modelled.
- the step classes `Drain.Context`, `Answer.Context`, `SipTimer.TimerContext` and `Counters.Counter` make one atomic
  step per method; the interleaving of threads is the state machine's.

Parts of the repository that are not modelled:

- sockets, DNS, SIP framing and session handling.
- the XML message classes, and the merging of downloaded configurations, which copies each response onto itself.
- `PresetResponseMessage`, which hides the announced total: the counting theorems are for the other list messages.
- `get_command_type` of a PTZ frame and the accessors that depend on it; it does not tell presets from other commands.
- upstream registration with its redirects, and subscriptions.
- playback control inside a session (PAUSE, PLAY, TEARDOWN messages), broadcasting, logging and encoding conversion.
