# SOFA: secure access for CANopen FD, verified model

This project models the two ends of the SOFA secure access protocol and proves what it promises over whole
runs. It has four connected parts, and two layers that join them.

* **Secure tunnel.** The server's secure object dictionary (`SecureOd`, `SecureOdServer`) with one read slot and
  one write slot per entry, the client (`SecureProto`, `SecureClient`), and the AEAD layer below both (`Aead`).
  `SodRuns` holds safety over every sequence of requests and of changes elsewhere in the device; `Tunnel` and
  `PollRuns` say exactly when an access or a poll succeeds and what it then does, up to a million polls; `Lockstep` covers sessions over a channel (`Channel`)
  that loses requests and replies, with replays and foreign traffic; `PassTwoReplay` and `PollReplay` say exactly when
  the frame of a write commits a second time.
* **USDO carrier.** Frames and PDUs (`CanFdFrame`, `Usdo`, `UsdoEncoder`), the server's two segmented-transfer
  automata (`ServerCarrier`, `UsdoServer`, `CarrierRuns`), the client's response matching and segment loops
  (`ClientCarrier`, `UsdoClient`), and the refinement: over a noisy bus the carrier is a direct call of the
  dispatcher (`CarrierRefinement`).
* **Signed access and commissioning.** The one-challenge automaton and its client (`Asym`, `Rpk`, `RpkRuns`,
  `RpkClient`, `RpkRequester`), the key ladder, vouchers, provisioning and reset (`Commissioning`,
  `CommissioningRuns`), and commissioning by claim token (`TokenCommissioning`, `CommissionTool`).
* **HKDF-SHA-256** (`Hkdf`): the loop refines sections 2.2 and 2.3 of RFC 5869 over HMAC as in section 2 of RFC 2104.
* **The whole device** (`DeviceModel`, `DispatchChain`, `DeviceRuns`, `StaleKeyPoll`): all handlers on one state, its
  runs, and two runs of it in which a poll on the key set installs in the name of another key than its own.
* **All layers** (`Stack`, `BusSessions`, `BusCommissioning`, `BusSigned`): the client's accesses, poll sessions, both
  commissioning paths and signed access, carried over the bus to the whole device.

Code that updates state in place is a class; each method's postcondition ties the new state to a transition
function of the old one, and the lemmas speak about those functions and their runs.

**Cryptography.** GCM is a pair of arbitrary functions, a keystream and a tag over key, nonce, AAD and text; the hash
is an arbitrary function with 32-byte digests; a signature scheme is an arbitrary triple, and a lemma that needs
verification to accept honest signatures asks for exactly that (`Asym.Correct`). Nothing is assumed to be unforgeable.
A security statement instead ends in "or here is the forgery": one tag for two explicit, different queries
(`Aead.Collide`), or one signature for two explicit, different messages (`Asym.Clash`, `RpkClient.Confused`). Only
`Lockstep` puts it the other way round: there a run is one in which no poll meets such a collision and no replayed
frame carries a tag for a query that the client never sealed (`Lockstep.CleanReads`, `Lockstep.Honest`). The
keystream and tag functions are the same on both sides, so all statements are about the real bytes of both modes,
encrypting and authenticating only.

**Configuration.** AES-128-GCM, 16-byte keys and tags, 12-byte randoms, one-byte device ids in the AAD, reading,
writing, cyclic sessions, the asymmetric layer and authorized handover all built in.

**Where code and comments disagree, the model follows the code.**

* The banner at `shared/fbsec_secure_od.c:47-79` describes `session_id` bytes and 8-byte tags; the code sends no
  session id and 16-byte tags.
* `shared/fbsec_aead.h` calls the AAD's length field the plaintext length; in encrypt mode the code writes 0, because
  it passes no data to the AAD builder.
* `shared/fbsec_asym.h` gives the signed transcript two bytes of overhead; the code writes fifteen.
* `server_common/server_common_dispatch.c:33-36` counts a 52-byte worst-case reply; with 16-byte tags it is 60, which
  still fits its 64-byte buffer but not one USDO data block, so such a reply travels as a segmented upload.

**Five properties hold only under a condition, and the exact condition is proved.**

* The key ladder and the commissioned byte are kept by every request except a *stale poll*: a write poll on C01Fh,
  next in its session and with an acceptable rung, while the slot of the key of the last single-shot write is empty, in
  whose name it installs. `DeviceRuns.DeviceLadderStandsIff`: from a keyless boot, the ladder stands all along a run of
  the device if and only if no stale poll commits in it. `DeviceRuns.FirstStaleCommit`: the first one that commits
  breaks the ladder, and the commissioned byte too, unless it brings the Operator key or the device is owned.
  `CommissioningRuns.RungNeedsItsKey` is the step behind both, `DeviceModel.KeyPollDecides` says that committing is
  decided by the state before the request, and `StaleKeyPoll.StaleKeyPollIsReachable` is such a run of seven requests.
* The comment at `server_common/server_common_keys.c:113-114` has a rung authorized by the key that the verified tag
  just proved. `DeviceRuns.DeviceRungsAreProved`: so it is for every rung of a run if and only if no key-set poll
  commits in a session of another key than that of the last single-shot write. `StaleKeyPoll.MisnamedPollIsReachable`
  is a run of five requests with such a poll.
* A freshly minted voucher is accepted by an unclaimed device if and only if its epoch is below 2^32 - 1 (below 2 when
  the epoch could not be read): the client's increment wraps. See `CommissioningRuns.MintedVoucherAccepted`.
* At-most-once commit of a Pass-2 frame. `PassTwoReplay.RepeatedFrameCommits`: on any slot with the random and the
  client of the first time, and under the same key, the frame commits again if and only if the slot is in use and fresh
  by its own timestamp, which polls move on, and role policy and host agree. `PassTwoReplay.FrameCommitsTwice`: over
  every run with server randoms that do not repeat, the frame of a committed Pass 2, sent again, commits again if and
  only if moreover no Pass 1 was answered in between, or its tag serves two queries. It then has bit 6 set and restarts
  the session at counter 0.
* At-most-once commit of a poll frame. `PollReplay.RepeatedPollCommits`: in a session with the same key id and nonce
  base, the frame commits again if and only if the slot is live, back at the counter of the first time, and role policy
  and host agree, or by a tag collision. `PollReplay.PollFrameCommitsTwice`: over every run, that takes a Pass-2 commit
  in between, or a Pass 1 after which the poll used a nonce base of zeros; `PollReplay.PollWithoutPassTwo` shows that
  the latter exists, because a one-byte Pass 1 already opens the session.

## Model

| member | source | states |
|---|---|---|
| `Aead.AadInjective` | shared/fbsec_aead.c:69-131 | Two AADs are equal exactly when direction, full key id, low bytes of both device ids, data id, random tail and data are |
| `Aead.AadBuild` | shared/fbsec_aead.c:69-131 | The moving write pointer produces exactly the AAD and never leaves the 68-byte buffer |
| `Aead.XorNonce` | shared/fbsec_aead.c:255-263 | The loop gives the bytewise xor of both randoms, also when the output is one of the inputs |
| `Aead.SealInto` | shared/fbsec_aead.c:319-358 | Fails exactly above 32 bytes; otherwise fills text and tag of the sealed frame in both modes |
| `Aead.OpenInto` | shared/fbsec_aead.c:360-399 | Delivers the plaintext exactly when length and tag are right; on a wrong tag the output is zeroed in encrypt mode and untouched in authenticate-only mode; above 32 bytes nothing is touched |
| `Aead.QueryBinds` | shared/fbsec_aead.c:319-399 | Two frames are checked by the same tag query exactly when key, nonce, all AAD fields and text agree |
| `Aead.OpenInvertsSeal` | shared/fbsec_aead.c:319-399 | In both modes, opening under the sealing parameters returns the plaintext |
| `Aead.OpenBindsEveryField` | shared/fbsec_aead.c:319-399 | A sealed frame opens only under the sealing key, nonce, fields, randoms and text, or by an explicit tag collision |
| `Aead.SessionNonceInjective` | shared/fbsec_secure_od.c:357-367 | Different 32-bit counters give different nonces under one base |
| `SecureOd.AgeIsElapsedTime` | shared/fbsec_secure_od.c:286-296 | The wrapping 16-bit age equals the true elapsed time whenever that is below 65536 ms |
| `SecureOd.DispatchKeepsValid` | shared/fbsec_secure_od.c:985-1131 | Every dispatch keeps entries, slots and prepared responses well formed |
| `SecureOdServer.Server.RegisterEntry` | shared/fbsec_secure_od.c:201-222 | Replaces the entry with that data id or appends one with empty slots; refuses long entries and a full registry |
| `SecureOdServer.Server.SetKeyEx` | shared/fbsec_secure_od.c:247-256 | Write-once install into slots 1..4; anything else changes nothing |
| `SecureOdServer.Server.ClearKeys` | shared/fbsec_secure_od.c:263-267 | Empties every key slot and touches nothing else: entries, slots and the last key id stay |
| `SecureOdServer.Server.ArmReadResponse` | shared/fbsec_secure_od.c:373-525 | Pass 1 of a read: every check in order, then the response sealed under the xored randoms is parked in the slot |
| `SecureOdServer.Server.DeliverPrepared` | shared/fbsec_secure_od.c:1054-1078 | Pass 2 of a read hands over the parked response; a cyclic slot becomes a session, any other is freed |
| `SecureOdServer.Server.HandleReadPoll` | shared/fbsec_secure_od.c:805-898 | A read poll: checks in order, then counter plus one and a response sealed under its nonce |
| `SecureOdServer.Server.ArmWriteChallenge` | shared/fbsec_secure_od.c:543-646 | Pass 1 of a write: empty or one-byte arm, the server random goes out and into the slot |
| `SecureOdServer.Server.VerifyAndApplyWrite` | shared/fbsec_secure_od.c:648-767 | Pass 2 of a write: frees the slot unless the write succeeds with bit 6, which starts a session at counter 0 |
| `SecureOdServer.Server.HandleWritePoll` | shared/fbsec_secure_od.c:902-979 | A write poll: opens under the next counter's nonce, commits, and only then moves the counter |
| `SecureOdServer.Server.HandleRequest` | shared/fbsec_secure_od.c:985-1131 | The routing by length and slot state to exactly one handler, for every request |
| `SodRuns.HeldSlotKeepsOwner` | shared/fbsec_secure_od.c:335-349 | No request turns a slot held by one client inside its window into a slot in use by another, single-shot or cyclic |
| `SodRuns.OwnerChangesOnlyWhenStale` | shared/fbsec_secure_od.c:335-349 | A slot in use changes hands only after its window, and only to the client whose request did it |
| `SodRuns.ReadNoncesNeverRepeat` | shared/fbsec_secure_od.c:491-524 | Over every run, all nonces sealed under since an arming (its own response included) are distinct, the counter stays within the key-use limit, and the parked response is delivered at most once |
| `SodRuns.PollsCommitInOrder` | shared/fbsec_secure_od.c:902-979 | Over every run, the polls committed in a write session carry full counters 1, 2, 3, ... without a gap, each with a tag that verified for it |
| `SodRuns.NoPollCommitsTwice` | shared/fbsec_secure_od.c:902-979 | No frame commits twice in a session, even when its low byte comes round again, except by a tag collision |
| `SodRuns.BadPollChangesNothing` | shared/fbsec_secure_od.c:785-802 | A poll with the wrong low byte or a bad tag is refused, with codes C6h and C0h, and leaves the whole dictionary unchanged |
| `SodRuns.SinglesNeverOutnumberArms` | shared/fbsec_secure_od.c:543-767 | Over every run, single-shot writes accepted on an entry never outnumber its successful arms |
| `SodRuns.PassTwoConsumesChallenge` | shared/fbsec_secure_od.c:648-767 | A Pass-2 attempt leaves the slot in use exactly when it succeeds with bit 6 set |
| `PassTwoReplay.RepeatedFrameCommits` | shared/fbsec_secure_od.c:648-767 | A Pass-2 frame that committed, sent again by anybody and on any host state to any slot with the first time's server random and client: with the same key in place it commits the same value if and only if the slot is in use, its own timestamp is prompt, and role policy and host agree; bit 6 then sets the counter to 0 again |
| `PassTwoReplay.ReplayAfterArmedWrite` | shared/fbsec_secure_proto.c:386-465 | The same for the frame of a successful armed write of the client, replayed to the server under any node id |
| `PassTwoReplay.RepeatUnderOtherKeyCollides` | shared/fbsec_secure_od.c:648-767 | After the key has changed, and on any slot, the repeated frame commits only if its tag serves two explicit, different queries |
| `PassTwoReplay.FrameCommitsTwice` | shared/fbsec_secure_od.c:543-767 | Over every run with server randoms that do not repeat, the frame of a committed Pass 2 sent to the entry again commits, without a tag collision, if and only if no Pass 1 was answered in between, the slot is in use and fresh by its own timestamp, the key is in place, and role policy and host agree; then bit 6 is set, the commit is the same and the counter is 0 |
| `PollReplay.RepeatedPollCommits` | shared/fbsec_secure_od.c:902-979 | A poll frame that committed, sent again by its client in a session with the same key id, nonce base and key: commits the same value if the slot is live, back at the first time's counter, and role policy and host agree; otherwise only if its tag serves two explicit, different queries |
| `PollReplay.PollFrameCommitsTwice` | shared/fbsec_secure_od.c:543-979 | Over every run, two committed polls of one entry with equal frames collide, or were checked against one and the same query: then a Pass 2 committed in between, or a Pass 1 was answered and the later poll used its base of zeros; their counters are equal exactly if their bases are |
| `PollReplay.PollWithoutPassTwo` | shared/fbsec_secure_od.c:558-642 | A one-byte Pass 1 that is answered opens a session with nonce base zeros by itself: a poll sealed under it commits without any Pass 2 |
| `SecureClient.Client.SecureRead` | shared/fbsec_secure_proto.c:91-184 | The read flow on a live server: challenge, fetch, open, with its error codes in order |
| `SecureClient.Client.SecureWrite` | shared/fbsec_secure_proto.c:190-270 | The write flow on a live server: fetch a random, seal, send |
| `SecureClient.Client.ReadArmed` | shared/fbsec_secure_proto.c:294-382 | The same read with bit 6 on; only success leaves a session, with counter 0 and the xored randoms as base |
| `SecureClient.Client.WriteArmed` | shared/fbsec_secure_proto.c:386-465 | The same write with bit 6 on; only success leaves a session |
| `SecureClient.Client.PollReadOnce` | shared/fbsec_secure_proto.c:471-529 | One read poll; the client's counter moves only when the reply opens |
| `SecureClient.Client.PollWriteOnce` | shared/fbsec_secure_proto.c:533-587 | One write poll; the client's counter moves only when the write is acknowledged |
| `SecureClient.Client.RunReadPoll` | client_common/client_common_verbs.c:164-238 | The poll-read verb is the armed read followed by the polls up to the first failure; exit code and values are theirs, and the session is wiped |
| `SecureClient.Client.RunWritePoll` | client_common/client_common_verbs.c:242-312 | The poll-write verb likewise, with the same value each time |
| `SecureProto.ReadPollsStop` | client_common/client_common_verbs.c:204-235 | A run of read polls is over once one has failed: later ones change nothing |
| `SecureProto.WritePollsStop` | client_common/client_common_verbs.c:281-309 | A run of write polls is over once one has failed |
| `Tunnel.ReadCorrect` | shared/fbsec_secure_proto.c:91-184 | A single-shot or armed read succeeds when a condition known beforehand holds, then returns the hook's bytes and leaves exactly the stated server state; otherwise only by a tag collision |
| `Tunnel.WriteCorrect` | shared/fbsec_secure_proto.c:190-270 | A single-shot or armed write succeeds when a condition known beforehand holds, then commits exactly the caller's bytes once; otherwise only by a tag collision |
| `PollRuns.PollReadCorrect` | shared/fbsec_secure_proto.c:471-529 | A read poll in a linked session succeeds when both counters agree and all is ready, returns the hook's value of that moment and moves both counters; otherwise only by a tag collision |
| `PollRuns.PollWriteCorrect` | shared/fbsec_secure_proto.c:533-587 | A write poll likewise, committing the caller's bytes under the common counter |
| `PollRuns.AllReadPollsSucceed` | shared/fbsec_secure_od.c:805-898 | For every n within the key-use limit, n timely polls return the n host values in order, and server and client are exactly as before with both counters moved by n |
| `PollRuns.AllWritePollsSucceed` | shared/fbsec_secure_od.c:902-979 | For every n within the key-use limit, n timely polls commit the value n times and both counters have moved by n |
| `PollRuns.ReadSessionCorrect` | shared/fbsec_secure_proto.c:294-529 | Arm, then poll any number of times: min(n, 1,000,000) values are delivered with both counters at that number, and poll 1,000,001 is refused |
| `PollRuns.WriteSessionCorrect` | shared/fbsec_secure_proto.c:386-587 | The same for an armed write followed by any number of write polls; the host took the value that often and once more |
| `PollRuns.ReadLimitStops` | shared/fbsec_secure_proto.c:487-489 | At the limit the client refuses to poll and nothing reaches the server |
| `PollRuns.WriteLimitStops` | shared/fbsec_secure_proto.c:551-553 | The same for writing |
| `Lockstep.LossyReadLockstep` | shared/fbsec_secure_od.c:785-898 | With any losses, any requests of other clients, and the client's own to other entries: while the session lives both bases and key ids agree and client counter <= server counter <= client counter + 1; what the client accepted is a prefix of what the server sealed |
| `Lockstep.LostReplyEndsSession` | shared/fbsec_secure_proto.c:471-529 | Once the server is one ahead, no later poll of the run is served or accepted |
| `Lockstep.SpoofedPollEndsSession` | shared/fbsec_secure_od.c:805-898 | A read poll that anybody sends under the client's node id is, to the server, one of the client's whose reply is lost: if served, no later poll of the client is served or accepted |
| `Lockstep.ArmingStartsReadSession` | shared/fbsec_secure_proto.c:294-382 | A successful armed read starts such a session |
| `Lockstep.LossyWriteLockstep` | shared/fbsec_secure_od.c:902-979 | With losses, replays, and requests of other clients or to other entries that are no second Pass 2 verifying for the live slot: the server is at most one ahead, acknowledged values are a prefix of committed ones, and the k-th committed value is one the client sealed for counter k |
| `Lockstep.LostAckEndsSession` | shared/fbsec_secure_proto.c:533-587 | Once an acknowledgement is lost, nothing more is acknowledged or committed in the session, under the same events |
| `Lockstep.ArmingStartsWriteSession` | shared/fbsec_secure_proto.c:386-465 | A successful armed write starts such a session |
| `Hkdf.HmacInto` | shared/fbsec_hkdf.c:66-125 | The pads loop computes HMAC of RFC 2104, also when the first message part is the output buffer |
| `Hkdf.HkdfInto` | shared/fbsec_hkdf.c:127-186 | For every input and output length 1..8160 the output is HKDF of RFC 5869; the block counter does not wrap; the loop ends |
| `Hkdf.ExpandIsPrefix` | shared/fbsec_hkdf.c:127-186 | A shorter output is a prefix of a longer one |
| `CanFdFrame.Validate` | variants/canopen_fd/common/fbsec_co_fd_frame.c:52-72 | Valid exactly for an identifier word of 0..7FFh or 80000000h..9FFFFFFFh, flags 0..3 and length 0..64; otherwise the verdict names the first of the three that is out of range |
| `CanFdFrame.SerializeInto` | variants/canopen_fd/common/fbsec_co_fd_frame.c:76-92 | Writes header and counted payload when they fit, and nothing otherwise |
| `CanFdFrame.ParseAcceptsWhatIsValid` | variants/canopen_fd/common/fbsec_co_fd_frame.c:96-131 | Parsing undoes serializing, and accepts a header exactly when identifier word, flags and length are in range, with the first that is not as the reason otherwise, as the validator does |
| `CanFdFrame.ParseJudgesEveryHeader` | variants/canopen_fd/common/fbsec_co_fd_frame.c:96-131 | The same for arbitrary six bytes |
| `CanFdFrame.PaddingIsTight` | variants/canopen_fd/bus/fbsec_co_fd_pcan.c:275-294 | The padded length is the smallest CAN FD length that holds the data; 0..8, 12 and 64 are not padded |
| `Usdo.SplitInvertsCanId` | variants/canopen_fd/common/fbsec_co_fd_usdo.c:25-49 | Splitting a built CAN id gives back sender and direction |
| `Usdo.DecodeInvertsEncode` | variants/canopen_fd/common/fbsec_co_fd_usdo.c:110-628 | For every encoder and all arguments it accepts, decoding returns exactly those arguments, also after padding and whatever lies behind the frame |
| `Usdo.DecodeAfterTheWire` | variants/canopen_fd/common/fbsec_co_fd_usdo.c:467-628 | The same through serialize, header parse and payload copy |
| `Usdo.EncodedFramesAreValid` | variants/canopen_fd/common/fbsec_co_fd_frame.c:52-131 | Every encoded frame passes the validator and the header parser |
| `Usdo.PduDeterminesMessage` | variants/canopen_fd/common/fbsec_co_fd_usdo.c:467-628 | The decoded fields determine the message |
| `Usdo.DecodeReadsPrefix` | variants/canopen_fd/common/fbsec_co_fd_usdo.c:467-628 | The decoder depends only on identifier, length and counted bytes |
| `Usdo.DataLiesInside` | variants/canopen_fd/common/fbsec_co_fd_usdo.c:467-628 | For every frame, a decoded data slice lies inside the counted bytes and is at most 60 long |
| `UsdoEncoder.FrameStruct.EncodeInto` | variants/canopen_fd/common/fbsec_co_fd_usdo.c:110-463 | Each encoder accepts exactly the valid arguments, fills the frame in place with that message and zeros, and leaves it alone on refusal |
| `ServerCarrier.FrameKeepsCarrierOk` | variants/canopen_fd/server/fbsec_co_fd_server.c:539-712 | Any frame keeps: an active download has 60 * counter <= total <= 256 bytes, an active upload has sent 60 * counter < total; counters never wrap |
| `ServerCarrier.UploadServesInOrder` | variants/canopen_fd/server/fbsec_co_fd_server.c:674-712 | An upload segment goes out only to the right client and session, in order, and is exactly the next bytes; every other request for one aborts both transfers |
| `CarrierRuns.OneAnswerPerRequest` | variants/canopen_fd/server/fbsec_co_fd_server.c:568-920 | In every state each client command with a nonzero session gets exactly one message back, to the requester under its session; none exactly when a successful result exceeds 256 bytes |
| `CarrierRuns.OneAnswerPerFrame` | variants/canopen_fd/server/fbsec_co_fd_server.c:724-825 | The same for received frames |
| `CarrierRuns.RunReassembles` | variants/canopen_fd/server/fbsec_co_fd_server.c:587-666 | Over every run of frames, an active download holds exactly the segments accepted since its initiate |
| `CarrierRuns.DispatcherSeesWholeBodies` | variants/canopen_fd/server/fbsec_co_fd_server.c:770-801 | A segmented download reaches the dispatcher only as all its segments in order, of the declared length |
| `UsdoServer.Server.FeedDownload` | variants/canopen_fd/server/fbsec_co_fd_server.c:626-666 | One segment into the reassembly buffer, or the abort that fits, in place |
| `UsdoServer.Server.ServeUpload` | variants/canopen_fd/server/fbsec_co_fd_server.c:674-712 | One upload segment or the end out of the parked buffer, in place |
| `UsdoServer.Server.Reply` | variants/canopen_fd/server/fbsec_co_fd_server.c:831-920 | Parks a result above 56 bytes and announces it; otherwise the response that belongs to the request |
| `UsdoServer.Server.HandleReceived` | variants/canopen_fd/server/fbsec_co_fd_server.c:724-825 | The receive loop's body: filter, reassemble, dispatch, answer |
| `ClientCarrier.SessionsAreDistinct` | variants/canopen_fd/client/fbsec_co_fd_client.c:106-110 | Sessions are never 0 and any 255 consecutive ones are distinct |
| `ClientCarrier.PaddingBusIsFair` | variants/canopen_fd/bus/fbsec_co_fd_pcan.c:275-322 | A bus that pads every frame to its DLC length meets the refinement's assumption about buses |
| `ClientCarrier.RoundTripIsDirect` | variants/canopen_fd/client/fbsec_co_fd_client.c:892-973 | Through any frames between other nodes and any padding, a round trip does at the server what the request's PDU does and gets exactly its answer |
| `CarrierRefinement.ReadRefinesDispatch` | variants/canopen_fd/client/fbsec_co_fd_client.c:1057-1126 | A read (request up to 56 bytes, result up to 256, segmented where needed) returns exactly the bytes, buffer error or abort code of one direct dispatch |
| `CarrierRefinement.WriteRefinesDispatch` | variants/canopen_fd/client/fbsec_co_fd_client.c:1134-1234 | A write of up to 256 bytes makes one dispatch with exactly these bytes and reports its success or abort code |
| `CarrierRefinement.PullGetsParked` | variants/canopen_fd/client/fbsec_co_fd_client.c:997-1044 | Pulling a parked result segment by segment yields exactly that result |
| `UsdoClient.Transport.Bump` | variants/canopen_fd/client/fbsec_co_fd_client.c:106-110 | The session counter goes 1..255 round and round |
| `UsdoClient.Transport.Receive` | variants/canopen_fd/client/fbsec_co_fd_client.c:917-972 | The receive loop judges the first frame of the inbox that passes all filters |
| `UsdoClient.Transport.PullSegments` | variants/canopen_fd/client/fbsec_co_fd_client.c:997-1044 | The pull loop into the caller's buffer, with every protocol error |
| `UsdoClient.Transport.Read` | variants/canopen_fd/client/fbsec_co_fd_client.c:1057-1126 | The read transport into the caller's buffer |
| `UsdoClient.Transport.Write` | variants/canopen_fd/client/fbsec_co_fd_client.c:1134-1234 | The write transport, in one frame or through the segment loop |
| `Asym.TranscriptInto` | shared/fbsec_asym.c:73-103 | Writes domain, 00h, algorithm, role and body when they fit, and reports 0 otherwise |
| `Asym.BuildSignedBody` | server_common/server_common_rpk.c:75-92 | The moving offset produces the canonical signed body within its 64-byte buffer |
| `Asym.AccessTranscriptInjective` | server_common/server_common_rpk.c:75-92 | Two signed messages are equal exactly when role, both ids, object, both nonces and value are |
| `Rpk.SignedAccess.ArmChallenge` | server_common/server_common_rpk.c:245-258 | Replaces the one challenge and replies its nonce; a failed draw leaves everything as it was |
| `Rpk.SignedAccess.CheckSignature` | server_common/server_common_rpk.c:266-297 | The challenge is spent before the signature is looked at, whatever the outcome |
| `Rpk.SignedAccess.GenericRead` | server_common/server_common_rpk.c:174-242 | The signed read object |
| `Rpk.SignedAccess.GenericWrite` | server_common/server_common_rpk.c:301-349 | The signed write object |
| `Rpk.SignedAccess.Command` | server_common/server_common_rpk.c:353-401 | The signed command object, with the reset behind code 10h |
| `RpkRuns.AnswersLatestChallenge` | server_common/server_common_rpk.c:44-49 | Over every run, a signature is made or checked only over the nonce of the latest challenge, armed by the same client for the same object |
| `RpkRuns.KeyUsesNeverOutnumberArms` | server_common/server_common_rpk.c:37-49 | Over every run, Ed25519 operations never outnumber challenges handed out |
| `RpkRuns.UsesHaveDistinctNonces` | server_common/server_common_rpk.c:192-297 | With a random source that does not repeat, two key uses of a run are over different server nonces |
| `RpkRuns.NothingIsAcceptedTwice` | server_common/server_common_rpk.c:266-401 | No signature is accepted twice in a run unless it verifies for two different transcripts |
| `RpkRuns.SameBytesSameSignature` | server_common/server_common_rpk.c:301-401 | Accepted requests with equal bytes for one object carry the same signature, so no request is accepted twice either |
| `RpkClient.SignedWriteCorrect` | client_common/client_common_rpk.c:149-207 | A signed write succeeds when a condition known beforehand holds, and the host then got exactly value and target; otherwise only if a signature passes for what was not signed |
| `RpkClient.SignedCommandCorrect` | client_common/client_common_rpk.c:209-259 | The same for a command; code 10h and no other restores the device |
| `RpkClient.SignedReadCorrect` | client_common/client_common_rpk.c:70-127 | A signed read that succeeds returns the host's value; it succeeds when ready, and otherwise only by a confused signature |
| `RpkRequester.WriteSigned` | client_common/client_common_rpk.c:149-207 | The client routine on a live device, buffers filled behind an offset |
| `RpkRequester.CommandSigned` | client_common/client_common_rpk.c:209-259 | The client routine on a live device |
| `RpkRequester.ReadSigned` | client_common/client_common_rpk.c:70-127 | The client routine on a live device, value copied to the caller's buffer |
| `Commissioning.Commissioner.constructor` | server_common/server_common_od.c:33-148 | Boot: claim token seated, stage Operational exactly when one of slots 1..3 was loaded, no owner, epoch 1 |
| `Commissioning.Commissioner.InstallRung` | server_common/server_common_keys.c:98-140 | One rung: the error codes in order, else key and id into the slot and the stage moved |
| `Commissioning.Commissioner.TakeOwnership` | server_common/server_common_asym.c:132-177 | A voucher is taken exactly when genuine, for this serial, on an unclaimed device, with a higher epoch |
| `Commissioning.Commissioner.AcceptProvisioning` | server_common/server_common_asym.c:180-214 | A provisioning key is taken exactly when signed by the owner in place |
| `Commissioning.Commissioner.ServeVoucher` | server_common/server_common_handover.c:140-149 | The voucher handler: ownership and stage, or code C2h |
| `Commissioning.Commissioner.ServeProvision` | server_common/server_common_handover.c:120-134 | The provisioning handler: store, slot 1 if empty, stage, or code C1h |
| `Commissioning.Commissioner.ResetDevice` | server_common/server_common_handover.c:165-174 | Reset: only the claim token remains, no owner, the epoch is kept |
| `CommissioningRuns.RunConsistent` | server_common/server_common_lifecycle.c:34-51 | Over every run from boot with authorized rungs, C001h:01h reads commissioned exactly when an owner is set or one of slots 1..3 is filled; slot 4 is filled; an owner is set exactly when not unclaimed |
| `CommissioningRuns.KeylessLadder` | server_common/server_common_keys.c:98-140 | From a keyless boot, Operator implies Integrator implies Provisioning, and stage Operational implies all three |
| `CommissioningRuns.KeysChangeOnlyByReset` | shared/fbsec_secure_od.c:247-267 | Without a reset, no run changes key or id of a filled slot |
| `CommissioningRuns.TokenStaysSeated` | server_common/server_common_handover.c:165-174 | Slot 4 is filled and the ownership flags agree after any run, whatever authorized its rungs |
| `CommissioningRuns.RungNeedsItsKey` | server_common/server_common_keys.c:117-121 | An installed rung leaves the ladder standing if and only if the device held the authorizing key, and the commissioned byte right if and only if it did, or the rung is the Operator's, or an owner is set |
| `CommissioningRuns.LadderStandsIffAuthorized` | server_common/server_common_keys.c:98-140 | Over every run of installed rungs, claims and resets from a keyless boot, the ladder stands after every step if and only if each rung was authorized by a key then in place |
| `CommissioningRuns.EpochsRise` | server_common/server_common_asym.c:164-176 | Over every run, resets included, accepted voucher epochs strictly rise |
| `CommissioningRuns.NoVoucherTwice` | server_common/server_common_asym.c:132-177 | No voucher is accepted twice in a run |
| `CommissioningRuns.ClaimsAreSeparated` | server_common/server_common_asym.c:132-234 | A claimed device accepts no voucher until it is reset |
| `CommissioningRuns.MintedVoucherAccepted` | client_common/client_common_commission.c:187-208 | The client's minted voucher is accepted exactly on an unclaimed device with epoch below 2^32 - 1 (below 2 when the epoch was not read) |
| `CommissioningRuns.OwnershipPath` | client_common/client_common_commission.c:187-302 | Mint, claim, install: the integrator owns the device and slot 1 holds the client's key unless it was filled |
| `TokenCommissioning.RungInstalls` | client_common/client_common_commission.c:308-330 | One rung through the tunnel puts the client's key under id 1000h + slot and moves the stage |
| `TokenCommissioning.CommissioningSucceeds` | client_common/client_common_commission.c:332-364 | With the right token and empty slots, token install plus ladder leave slots 1..3 equal to the client's keys, ids 1001h..1003h, stage Operational |
| `TokenCommissioning.SelectionIsRestored` | client_common/client_common_commission.c:332-364 | On every exit the user's key selection is back |
| `CommissionTool.Tool.InstallKeyRung` | client_common/client_common_commission.c:308-330 | The rung routine on a live server, switching the global selection |
| `CommissionTool.Tool.InstallProvisioningByToken` | client_common/client_common_commission.c:332-349 | The token routine on a live server |
| `CommissionTool.Tool.InstallUpperRungs` | client_common/client_common_commission.c:351-364 | The ladder routine on a live server |
| `DispatchChain.Chain.HandleRequest` | server_common/server_common_dispatch.c:216-310 | On every path through the handlers exactly one reply goes out, that of the handler that owns the object |
| `DeviceModel.ServeIsOneMove` | server_common/server_common_hooks.c:212-243 | Whatever a request is and whichever handler takes it, it is one move of the commissioning state, a rung that is then installed, and authorized by a held key if and only if the request is no stale poll with all it needs to commit |
| `DeviceModel.KeyPollDecides` | shared/fbsec_secure_od.c:902-979 | A poll on C01Fh commits if and only if it comes from the session's client, in time, with the next counter's low byte, under a key in place and allowed, opens, and brings a rung that the ladder accepts in the name of the last single-shot write's key: all known before it is served |
| `DeviceModel.RungIsProved` | server_common/server_common_keys.c:113-131 | An installed rung was opened under a key in place, which is that of the tier it needs if and only if the request is no poll in a session of another key than the last single-shot write's |
| `DeviceRuns.DeviceRunIsMoveRun` | server_common/server_common_dispatch.c:216-310 | A run of the whole device is a run of those moves |
| `DeviceRuns.DeviceMovesAreAuthorized` | server_common/server_common_hooks.c:212-243 | Every rung of a device run was installed, and all were authorized by a key in place if and only if no stale poll commits in the run |
| `DeviceRuns.DeviceStaysConsistent` | server_common/server_common_od.c:133-147 | From boot, after any requests among which no stale poll commits: stage byte, owner and keys agree, and after a keyless boot the ladder stands |
| `DeviceRuns.DeviceLadderStandsIff` | shared/fbsec_secure_od.c:902-979 | From a keyless boot the ladder stands after every prefix of a device run if and only if no stale poll commits in it |
| `DeviceRuns.FirstStaleCommit` | shared/fbsec_secure_od.c:972-977 | The first stale poll that commits breaks the ladder; the commissioned byte survives it if and only if the rung is the Operator's or an owner is set |
| `DeviceRuns.DeviceRungsAreProved` | server_common/server_common_keys.c:113-131 | Over every device run, each rung was opened under the key of the tier below it if and only if no key-set poll commits in a session of another key than that of the last single-shot write |
| `StaleKeyPoll.StaleKeyPollIsReachable` | shared/fbsec_secure_od.c:902-979 | For every configuration with a signer, all keys, values and randoms, a run from keyless boot: armed token write on C01Fh, single write on 2016h under the new key, signed reset, one poll of the live session with the Integrator rung; up to the poll all is consistent, then ladder and commissioned byte are broken |
| `StaleKeyPoll.MisnamedPollIsReachable` | shared/fbsec_secure_od.c:972-977 | The same run without the reset: one poll of the token's session installs the Integrator rung, which needs the Provisioning key |
| `StaleKeyPoll.BootIsReady` | server_common/server_common_od.c:66-117 | The entries as registered at boot make a valid dictionary that holds 2016h and C01Fh, on a device booted without keys |
| `DeviceRuns.DeviceKeepsToken` | server_common/server_common_keys.c:88-94 | The claim token is seated after any requests whatsoever |
| `DeviceRuns.DeviceKeysAreWriteOnce` | shared/fbsec_secure_od.c:247-267 | No request but a signed reset changes a filled key slot |
| `DeviceRuns.DeviceEpochsRise` | server_common/server_common_asym.c:132-177 | The vouchers a device run accepts have strictly rising epochs |
| `DeviceRuns.DeviceRunIsSodRun` | server_common/server_common_dispatch.c:264-267 | The slots of a device run are those of a run of its secure dictionary, so the results of `SodRuns` hold of the device |
| `DeviceRuns.DeviceNoncesAndPolls` | shared/fbsec_secure_od.c:785-979 | For the whole device: no nonce twice since an arming, and committed polls carry counters 1, 2, 3, ... |
| `DeviceRuns.DeviceRunIsSignedRun` | server_common/server_common_dispatch.c:256-261 | The challenge of a device run is that of a run of its signed-access automaton, so the results of `RpkRuns` hold of the device |
| `DeviceRuns.DeviceKeyUses` | server_common/server_common_rpk.c:37-49 | For the whole device: Ed25519 operations on the signed objects never outnumber challenges |
| `Stack.ReadOverCarrier` | variants/canopen_fd/client/fbsec_co_fd_client.c:1057-1126 | A transport read over the noisy bus to the whole device is the tunnel's direct exchange, answer and state |
| `Stack.WriteOverCarrier` | variants/canopen_fd/client/fbsec_co_fd_client.c:1134-1234 | A transport write likewise |
| `Stack.SecureReadOverBus` | shared/fbsec_secure_proto.c:91-184 | A whole secure read over the bus, armed or not and whatever its outcome, ends as the tunnel's read flow does: status, plaintext, nonce base and device state |
| `Stack.SecureWriteOverBus` | shared/fbsec_secure_proto.c:190-270 | A whole secure write likewise, its Pass-2 frame in segments where needed |
| `Stack.DeviceAlwaysAnswers` | variants/canopen_fd/server/fbsec_co_fd_server.c:831-920 | With constant objects of at most 256 bytes, and after any frames whatsoever, every request addressed to the whole device gets exactly one message back, to its sender and under its session |
| `BusSessions.ReadPollsOverBus` | client_common/client_common_verbs.c:204-235 | Any number of read polls over the bus, up to the first failure, is that run of the tunnel: status, session, values and device state |
| `BusSessions.WritePollsOverBus` | client_common/client_common_verbs.c:281-309 | The same for write polls |
| `BusSessions.ReadSessionOverBus` | client_common/client_common_verbs.c:164-238 | Arm and poll over the bus: the client reads the host's next min(n, 1,000,000) values in order, and poll 1,000,001 is refused |
| `BusSessions.WriteSessionOverBus` | client_common/client_common_verbs.c:242-312 | Arm and write over the bus: the host took the value min(n, 1,000,000) times and once more, and both counters say so |
| `BusCommissioning.CommissioningOverBus` | client_common/client_common_commission.c:308-364 | Commissioning by claim token over the bus: six transfers leave the client's three keys on the device, stage Operational |
| `BusCommissioning.PresentOverBus` | client_common/client_common_commission.c:187-208 | Presenting over the bus reads the epoch, mints the next voucher and claims with it: code 0 exactly if the device's voucher handler takes it, and the device is as that handler leaves it |
| `BusCommissioning.OwnershipOverBus` | client_common/client_common_commission.c:187-302 | The ownership path over the bus: on an unclaimed device with epoch below 2^32 - 1, three transfers leave the integrator as owner and the client's key in slot 1 unless it was filled |
| `BusSigned.SignedWriteOverBus` | client_common/client_common_rpk.c:149-207 | A signed write over the bus ends as by direct exchanges, device state and exit code, whatever its outcome |
| `BusSigned.SignedWriteArrives` | client_common/client_common_rpk.c:149-207 | It succeeds when device, signer, randoms and host are ready, the host then got exactly the value for the target, and the challenge is gone |
| `BusSigned.SignedReadOverBus` | client_common/client_common_rpk.c:70-127 | A signed read likewise, value included |
| `BusSigned.SignedReadArrives` | client_common/client_common_rpk.c:70-127 | It returns the host's value when the device is the one meant and supplies a value that fits |
| `BusSigned.CommandOverBus` | client_common/client_common_rpk.c:209-259 | A signed command likewise |
| `BusSigned.CommandArrives` | client_common/client_common_rpk.c:209-259 | From the right signer to the right device, code 10h resets the device over the bus and any other code changes nothing |

## Left out

- Internals of AES-GCM, SHA-256 and Ed25519, and failures of their backends: the vendored cryptography is a set of function parameters that always deliver.
- Constant-time comparison and wiping of buffers: not functional properties.
- What a failing random source leaves in the challenge buffer: modelled as leaving it unchanged.
- Sockets, the bus process, PCAN loading and the TCP carrier: the bus is a sequence of frames.
- Voucher files: the voucher that the client presents is the one it mints.
- Descriptors, constant entries, key-id and public-key objects, identity read and LDevID export: one oracle that replies once and changes nothing.
- Key-file, voucher-file and command-line loading, menus, traces and banners: user interface and I/O.
- Timing beyond the 16-bit millisecond clock: `now` is an input of each request and constant within it.
- Builds with features stripped, AES-256, other random lengths and the two-byte device-id AAD.
- `PduOf` and `Decode` are on values: the decoder's writes into the caller's PDU structure are not modelled as updates in place.
- Lockstep.LossyWriteLockstep: does not cover a second Pass 2 that verifies for the live slot, because such a write restarts the counter under the code's own rules (`PassTwoReplay.RepeatedFrameCommits`); what it covers is the stretch up to it.
- Lockstep.LossyReadLockstep: does not cover served read polls sent by somebody else under the client's node id, because such a poll ends the session: `Lockstep.SpoofedPollEndsSession`.
- CommissioningRuns.RunConsistent: does not cover rungs without their key in place, for which the claim is false: `CommissioningRuns.LadderStandsIffAuthorized`.
- DeviceRuns.DeviceStaysConsistent: does not cover stale polls that commit, for which the claim is false: `DeviceRuns.DeviceLadderStandsIff`.
- Carrier loss and reordering: the refinement is for a bus that delivers every frame; losses are treated at the level of exchanges in `Lockstep`.
- Requests of other clients to the same server in the middle of a segmented transfer: the server has one reassembly slot, so they abort it; the refinement takes foreign frames to be between other nodes.
