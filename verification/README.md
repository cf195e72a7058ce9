# PonsWarp Grid: a verified model of the transfer core

PonsWarp Grid moves files between peers in hashed pieces. This project models the parts that decide
whether the right bytes arrive, and proves what they promise:

- the **piece-transfer engine** (`Engine*.dfy`): per-piece states, direct request windows with timers,
  retries and generations, grid requests under leases and caps, chunk assembly, hash-checked receipt.
  `Engine.dfy` is the state and one function per handler; `EngineClass.dfy` is the object with its fields
  updated in place, proved to do exactly that. `EngineOutcomes.dfy`, `EngineFill.dfy`, `EngineHandlers.dfy` and
  `EngineSweeps.dfy` say field by field what each handler leaves behind; the others prove properties of every run;
- the **two-party protocol** (`Transfer*.dfy`): a receiving engine and an honest peer that serves it over a
  FIFO channel, where any send may fail and anything may happen to the receiver in between; and that a run without
  a failure fetches the whole file (`TransferDelivery.dfy`);
- **availability** (`Availability*.dfy`), **grid choice** (`GridChoice.dfy`, `EngineGrid.dfy`, `GridOrder.dfy`), **chunks**
  (`ChunkAssembly.dfy`), **piece states** (`Pieces*.dfy`), **resume** (`Resume*.dfy`) and, over whole sessions with
  restarts and resumes, **delivery** of the owner's file (`Delivery.dfy`);
- the **WebSocket byte stream** (`FrameCodec.dfy`, `FrameBits.dfy`, `FrameStream.dfy`, `FrameDispatch.dfy`, `SignalingFrames.dfy`),
  sections 5.2 to 5.4 of RFC 6455;
- the **offset store** of the CLI (`Offset*.dfy`), the **send queue** and **congestion window** of the WebRTC
  transport (`Send*.dfy`, `Congestion*.dfy`), and the **run artifact** of the demo with its validator (`RunArtifact.dfy`, `ArtifactMeaning.dfy`).

Each operation is stated twice: once as a function close to the code, on which the runs are built, and once by a lemma
that says what it does to states, requests, bytes or records without naming that function's own helpers.

A handler runs to completion as one step. Whether a send, a save or a storage operation succeeds, what time it
is, and how healthy a peer is are inputs of the step, chosen freely. Request ids are positions in the list of
requests issued, so they never repeat. The hash is any function; where a result needs it to tell the owner's pieces
from other bytes of their size, it says so. Nothing was executed: `dafny verify dfyconfig.toml` checks everything.

Source paths are relative to the repository's root.

## Model
| member | source | states |
|---|---|---|
| Pieces.ProgressBounded | packages/core/src/index.ts:691-702 | progress never exceeds the file's size and reaches it exactly when every piece is verified or fully received |
| PiecesMeaning.TransitionsMeaning | packages/core/src/index.ts:618-653 | each transition of a piece sets exactly the status, bytes, retries and peer asked that it names |
| PiecesMeaning.ReportsMeaning | packages/core/src/index.ts:607-663 | a new file misses every piece; the reports list, in ascending order, exactly the verified, and exactly the missing or failed pieces |
| PiecesMeaning.ProgressMeaning | packages/core/src/index.ts:691-702 | changing one piece changes the sums by just what that piece counts: all of it when verified, else what was received of it |
| Pieces.PieceManager.ImportPieceMap | packages/core/src/index.ts:675-689 | on the array of piece states, the import is the function `ImportAll`, whose meaning entry by entry is `ResumeMeaning.ImportLast`; an unknown index ends it with an error |
| ChunkAssembly.AppendKeepsSound | packages/core/src/index.ts:1707-1750 | the chunk counters always describe the slots, so a completed piece is as long as the bytes counted and the missing-chunk branch is never taken; a chunk is refused exactly for what its header says or for a slot already filled |
| ChunkAssembly.ReassembleAnyOrder | packages/core/src/index.ts:1707-1750 | any bytes, cut with any positive chunk size as the send loop cuts them and arriving in any order without repetition, give nothing before the last chunk and then exactly those bytes |
| ChunkAssembly.ChunksMeaning | packages/core/src/index.ts:1813-1836 | a piece no larger than the chunk size goes in one chunk; of a larger one all chunks but the last have that size |
| TransferProtocol.ChunkFrames | packages/core/src/index.ts:1821-1836 | the send loop emits, chunk by chunk, the header and then the bytes of each slice |
| Availability.DeliveryConverges | packages/core/src/index.ts:810-835 | after any PIECE_MAP broadcasts, valid or not, repeated, reordered or lost, the provider table is the inverted index of each peer's highest-generation map among the valid ones whose piece count is that of the first valid map of the file |
| Availability.OrderIrrelevantExactly | packages/core/src/index.ts:810-835 | all ways to deliver the same broadcasts leave the same providers if and only if the valid maps of a file agree on its piece count and each peer's highest generation names one map |
| Availability.TwoOrdersDiffer | packages/core/src/index.ts:887-902 | two valid maps of one file with different piece counts, delivered in either order, leave different tables |
| Availability.ExportAccepted | packages/core/src/index.ts:1234-1247 | every exported map passes the remote validator, lists exactly the verified pieces, has a higher generation than the one before, and replaces it in any table that knows the file |
| AvailabilityMeaning.UpdateMeaning | packages/core/src/index.ts:810-835 | a map is invalid, of another piece count, out of date or applied exactly as its indices, count and generation say; applied, it replaces all entries of its peer by entries at the listed pieces that last thirty seconds, and leaves the others |
| AvailabilityMeaning.ExportMeaning | packages/core/src/index.ts:1234-1247 | what a peer announces are exactly its verified pieces out of all, under the generation after the last |
| GridChoice.BestProvider | packages/core/src/index.ts:1876-1909 | the provider asked has capacity and no eligible one scores higher, the owner with five points less; there is none exactly when nobody is eligible, the owner included |
| EngineGrid.GridRequestMeaning | packages/core/src/index.ts:1277-1343 | nobody is available exactly when every missing, unleased piece is passed over; otherwise the first of the others by receiver provider, rarity, retry count and index decides: retry limit, refused lease, or a recorded request under a lease to a best provider |
| GridOrder.GridDecision | packages/core/src/index.ts:1301-1343 | the piece that decides comes first under four keys written out over the known providers and states (offered by somebody apart from the owner, fewest live copies, fewest retries, lowest index) among all open pieces that can be served or have spent their retries; if it can be asked for, the request goes under a lease to a provider that offers it, or the owner standing in, with the most points, the owner's five less, and among those with the fewest requests under way |
| GridOrder.NobodyExactly | packages/core/src/index.ts:1277-1343 | nobody is available exactly when no open piece can be served and none has spent its retries; nothing is missing exactly when every piece is neither missing nor failed |
| EngineGrid.SchedulesExactly | packages/core/src/index.ts:1277-1343 | a piece is scheduled exactly when the file is known, one piece decides, it has retries left and the availability table lists it |
| EngineRuns.RetryBudget | packages/core/src/index.ts:1161-1197 | over any run of direct, grid and plain requests together no piece is asked for more than `maxRetries + 1` times |
| EngineRuns.RequestBudget | packages/core/src/index.ts:1161-1343 | any run sends at most `pieceCount * (maxRetries + 1)` requests for a file |
| EngineRuns.VerifiedIsBacked | packages/core/src/index.ts:1483-1559 | in every reachable state a verified piece is stored with bytes that match its descriptor |
| EngineOutcomes.RightPieceIsVerified | packages/core/src/index.ts:1483-1559 | right bytes for a request under way, stored and saved: the piece has status verified with all its bytes received, its bytes are stored, no request for it remains, its lease is released, and a direct request is reported verified |
| EngineOutcomes.LastChunkVerifies | packages/core/src/index.ts:1673-1705 | the same from the last chunk on, when the announcement succeeds too; nothing else of the engine changes |
| EngineSweeps.VerifiedExactly | packages/core/src/index.ts:1530-1555 | when the last chunk of a right piece is stored and saved, the piece is verified if and only if its announcement reaches all known peers; otherwise it has failed once more although it is stored |
| EngineOutcomes.WrongPieceFails | packages/core/src/index.ts:1497-1513 | bytes that do not match: the piece has failed once more, nothing is stored for it, its request is over or dropped and its lease released |
| EngineOutcomes.WriteFails | packages/core/src/index.ts:1519-1528 | right bytes that cannot be written: the piece has failed once more, a direct request is over as cancelled and its window disabled, and nothing is stored |
| EngineOutcomes.SaveFails | packages/core/src/index.ts:1545-1552 | right bytes that are stored but whose session cannot be saved: the same, with the bytes stored and the lease released |
| EngineOutcomes.RequestEnds | packages/core/src/index.ts:1940-1978 | the end of a direct request: one terminal event with its retry count and whether it is retried, nothing kept for it, and its window left with a queued retry, or reported exhausted once, exactly as the reason, the retries used and the window decide |
| EngineDirect.ExactlyOnce | packages/core/src/index.ts:1921-1978 | over any run of direct requests every issued id is outstanding or has ended but not both, none ended twice, a timer runs for exactly the outstanding ones, headers and chunks are kept only for them, and no piece has two |
| EngineDirect.CancelEndsSelected | packages/core/src/index.ts:1074-1099 | cancelling with a selector ends exactly the requests it admits |
| EngineDirect.CancelEverything | packages/core/src/index.ts:1074-1099 | cancelling everything at any moment of such a run leaves nothing outstanding, no timer, and one terminal event for each request ever issued |
| EngineWindows.WindowsNeverOverflow | packages/core/src/index.ts:1199-1224 | over any run of direct requests no window holds more requests than its cap |
| EngineFill.FillMeaning | packages/core/src/index.ts:1199-1224 | a fill whose sends and saves succeed asks for the first pieces that may be asked for, in ascending order and leaving none out, until the window is full or there is no such piece; exactly those pieces are marked as asked for |
| EngineFill.NextIsMade | packages/core/src/index.ts:1161-1197 | the next request is for the first piece that is missing or failed and has retries left, is recorded with its window, generation, deadline and retry count, and its piece alone is marked; without such a piece nothing happens |
| EngineFill.OpenMeaning | packages/core/src/index.ts:1199-1216 | opening a window tracks a new one under a generation of its own with its fill queued, queues another fill on a known one of the same cap and identity that is not disabled, and does nothing otherwise |
| EngineFill.RetryRuns | packages/core/src/index.ts:1958-1969 | a queued retry makes the next request, with one retry more on its count, for the first piece that may be asked for, no later in the file than the failed one |
| EngineHandlers.RetryDropped | packages/core/src/index.ts:1958-1969 | it is dropped if its request was cancelled by the peer or its window is gone, disabled, replaced or full |
| EngineHandlers.ExpireAllMeaning | packages/core/src/index.ts:1068-1073 | exactly the direct requests whose time ran out are over, each reported once as timed out in the order they were made, and each of their pieces failed once more for each |
| EngineHandlers.RejectEnds | packages/core/src/index.ts:1649-1671 | a rejection by the peer asked ends a direct request, and makes any other again, with the piece failed once more and the lease released; from anybody else it changes nothing |
| EngineHandlers.ChunkRefused | packages/core/src/index.ts:1752-1779 | a refused chunk ends or drops its request, with the piece failed once more and what arrived of it gone; if it was not direct and the peer could be told, the piece is asked for again |
| EngineSweeps.CancelMeaning | packages/core/src/index.ts:1074-1099 | every tracked window that the selector admits is disabled under a generation not used before, every request it admits is over as cancelled, in the order of the ids, and its later answers are refused; pieces, store and leases stay |
| EngineSweeps.LeaseExpiryMeaning | packages/core/src/index.ts:1454-1467 | exactly the leases that ran out are gone, with the requests still under way for them, and the pieces of those are missing again with one more retry on record |
| EngineWindows.WindowsAreFixed | packages/core/src/index.ts:1199-1224 | from any point of a run to any later one without disposal, a window keeps its cap, file and peer |
| EngineWindows.ChainsEnd | packages/core/src/index.ts:1940-1978 | retries form chains of at most `maxRetries + 1` requests for one window, peer and file, none is retried twice, and a retryable end goes without a retry exactly when its chain has used up its budget |
| EngineWindows.ExhaustionReportedOnce | packages/core/src/index.ts:1980-2009 | a tracked window reports exhaustion at most once |
| EngineLease.PairedStep | packages/core/src/index.ts:1277-1779 | a grid handler keeps leases and outstanding requests in bijection by piece, peer and request id if and only if it does not meet the circumstances of `Parts`: a refused chunk of a request already gone, or a receipt whose save or deletion fails |
| EngineLease.LeasesExactly | packages/core/src/index.ts:857-885 | over any grid-only run the bijection holds at every point if and only if no handler meets those circumstances |
| EngineCaps.PeersStayWithin | packages/core/src/index.ts:1277-1371 | over any such run no peer ever holds more than `maxRequestsPerPeer` requests |
| EngineCaps.FilesStep | packages/core/src/index.ts:1350-1371 | one step keeps every file within `maxInFlightTotal` if and only if it does not meet the circumstances of `Overshoots` |
| EngineCaps.FilesExactly | packages/core/src/index.ts:1350-1371 | over any such run every file stays within its limit at every point if and only if no handler meets those circumstances |
| EngineExceptions.StaleHeaderRun | packages/core/src/index.ts:1752-1779 | from any fresh engine with a file to fetch and two retries, four events end the bijection: a request, its header, the end of its lease, a frame of the wrong size |
| EngineExceptions.CancelledRequestRun | packages/core/src/index.ts:1483-1487 | from any fresh engine with a file of two pieces, a run takes a file past a limit of one: a request, its header, its cancellation, its only chunk |
| EngineExceptions.EmptyMapStarves | packages/core/src/index.ts:887-902 | a fresh engine told that a file has no pieces never asks for any of them in a grid round again, with whatever options and however often, although all are missing |
| EngineClass.PonsWarpEngine.Handle | packages/core/src/index.ts:983-2030 | on the object, one event has exactly the effect of the handler function, and a valid engine, whose fields satisfy what is proved of runs, stays valid |
| EngineClass.PonsWarpEngine.Promises | packages/core/src/index.ts:1483-1559 | a valid engine asked for no piece more than `maxRetries + 1` times, and what it calls verified is in its store and checks out |
| EngineClass.PonsWarpEngine.CancelAll | packages/core/src/index.ts:1074-1099 | on a valid engine that made direct requests only, cancelling leaves no request and no timer, and exactly one terminal event for each request it ever made |
| TransferPairing.PairingExactly | packages/core/src/index.ts:1608-1750 | in every state two parties can reach, with any send failing at any time, the next frame is handled as it should be (a chunk is dropped or joins the request whose header came immediately before it, fits, and completes only the peer's bytes; the header of a request under way leaves it under way) if and only if it does not meet a header that was sent without its chunk and still waits |
| TransferPairing.RunPairsExactly | packages/core/src/index.ts:1608-1837 | over a whole run every frame ever taken was handled so if and only if no such meeting took place |
| TransferPairing.InvalidExactly | packages/core/src/index.ts:1752-1779 | over a whole run some request to the honest peer ends as `invalid_chunk` if and only if a direct request is broken by such a meeting: its header came too early, or its header waited and the chunk is not of the announced size |
| TransferPairing.NoHonestRequestFails | packages/core/src/index.ts:1673-1750 | on a run without such a meeting no request to the honest peer ends as `invalid_chunk` and, if it holds what the manifests describe, none as `hash_mismatch` |
| TransferExceptions.TornAnswerRun | packages/core/src/index.ts:1781-1837 | from any quiet world with two pieces to ask for, a run leads to the meeting: the chunk of the first answer is never sent, the second request ends as `invalid_chunk`, and its chunk comes next under the header of the first |
| TransferDelivery.EveryPieceArrives | packages/core/src/index.ts:1199-1837 | from any quiet world, for any file, chunk size and cap of the window, there is a run without a failure and without such a meeting after which every piece of the file is verified and stored with the peer's bytes, each asked for once and reported verified, and nothing is under way |
| TransferDelivery.WholeFileArrives | packages/core/src/index.ts:1199-2232 | if the peer holds the owner's file, the file assembled after that run is the owner's, byte for byte, whatever the hash |
| TransferDelivery.UnannouncedRun | packages/core/src/index.ts:1530-1555 | from any quiet world with a piece to fetch, a run ends with its right bytes stored, its request reported verified and the piece failed |
| Resume.RestoreResumeState | packages/core/src/index.ts:716-745 | a piece map that does not fit the manifest is refused before anything is touched; otherwise manager, store and report end up as `Restore` says |
| Resume.RestoreSplits | packages/core/src/index.ts:716-745 | the pieces imported as verified split exactly into those whose stored bytes match, left as they are, and the others, removed from the store and failed once more; nothing else changes |
| ResumeMeaning.RestoreMeaning | packages/core/src/index.ts:675-745 | over the saved entries: with `x` the last one for a piece, the piece is verified exactly if `x` is and the stored bytes match; one verified without a match is removed and missing with one more retry, one requested or receiving is missing, any other keeps its status, and retries are kept |
| ResumeMeaning.ResumeKeepsVerified | packages/core/src/index.ts:1561-1571 | resuming any file of any reachable engine: exactly the pieces that were verified are, no retry is added, and nothing leaves the store |
| ResumeMeaning.RejoinKeepsVerified | packages/core/src/index.ts:1138-1159 | a new process that joins from the maps the last one saved has, of every saved file, exactly the pieces verified that were, over the same store, with their retries |
| ResumeMeaning.JoinMeaning | packages/core/src/index.ts:1147-1155 | joining restores the saved maps one by one, passes over those of unknown files, and ends with an error at one that does not fit |
| Resume.ResumeHeals | packages/core/src/index.ts:716-745 | after any resume, whatever store and map held before, verified pieces are stored with matching bytes |
| Resume.ResumeIsIdempotent | packages/core/src/index.ts:1561-1571 | a second resume from the exported map discards nothing and changes nothing |
| Delivery.ResumePartitionsFile | packages/core/src/index.ts:1561-1571 | resuming any file of any reachable engine from its own piece map leaves each piece either verified or missing, and not both |
| Delivery.PiecesMakeFile | packages/core/src/index.ts:515-528 | the pieces of a manifest are the file, without gap or overlap |
| Delivery.SessionIntegrity | packages/core/src/index.ts:1483-1571 | over any session of runs, resumes from any saved maps and restarts, a verified piece is stored with bytes of its size and hash |
| Delivery.AssembledIsOwners | packages/core/src/index.ts:2223-2232 | whoever sent the pieces and whatever happened over a session: once all pieces of a file whose manifest the owner made are verified, the assembled file is the owner's byte for byte, if no other bytes of a piece's size share its hash |
| FrameCodec.EncodeFrame | packages/cli/src/node-websocket-transport.ts:496-513 | the encoder produces the frame of RFC 6455 section 5.2, final and unmasked, in all three length forms |
| FrameCodec.ParseFrames | packages/cli/src/node-websocket-transport.ts:459-494 | the loop over the buffer, unmasking in place, yields exactly the frames and the rest that the recursive reading yields, or the error for a frame that is too large |
| FrameCodec.CodecRoundTrip | packages/cli/src/node-websocket-transport.ts:459-513 | any list of frames within the limit, masked with any keys or not, decodes from its encoding to itself with nothing left over |
| FrameCodec.OversizedRefused | packages/cli/src/node-websocket-transport.ts:459-494 | a frame over 16 MiB is refused from its length field alone |
| FrameBits.FrameLayout | packages/cli/src/node-websocket-transport.ts:459-494 | the first frame of any buffer: fin bit, opcode, mask bit, three forms of the length with the most significant byte first, key and payload; refused over 16 MiB, awaited if not there in full |
| FrameBits.MaskedBits | packages/cli/src/node-websocket-transport.ts:485-489 | a bit of a masked byte is set exactly if that bit differs between the payload's byte and the key's byte at its position modulo four |
| FrameStream.SocketReceiver.Data | packages/cli/src/node-websocket-transport.ts:252-301 | the data handler with its pending buffer and fragment fields dispatches what the specification of one chunk says |
| FrameStream.NothingInvented | packages/cli/src/node-websocket-transport.ts:252-301 | for any bytes in any chunks nothing is dispatched that the stream does not say, an open connection has dispatched all of it, and neither the pending buffer nor the fragment buffer outgrows its bound |
| FrameDispatch.OpenExactly | packages/cli/src/node-websocket-transport.ts:381-398 | at the end of any error-free stream, in any chunks within the limit, the connection is open if and only if no message has opcode 8 and every text is JSON; then everything was dispatched, and otherwise everything up to the first such message |
| FrameDispatch.HarmlessArrive | packages/cli/src/node-websocket-transport.ts:252-301 | binary messages, JSON texts and control frames other than close, in any number, fragments, masks and chunks, all arrive, and the connection stays open |
| FrameDispatch.SingleFrame | packages/cli/src/node-websocket-transport.ts:381-398 | a single final frame is dispatched, and closes the connection exactly if it is a close frame or a text that is not JSON |
| FrameDispatch.ErrorsExactly | packages/cli/src/node-websocket-transport.ts:252-301 | frames are free of errors exactly when each continuation comes in a message begun and not finished that has no more than 16 MiB with it, and each text or binary frame outside of one |
| FrameDispatch.FailsExactly | packages/cli/src/node-websocket-transport.ts:255-301 | an open connection fails over a chunk within the limit exactly when a frame in it is too large or some frame of the stream is out of place |
| FrameStream.SplitsAgree | packages/cli/src/node-websocket-transport.ts:252-301 | an error-free stream in which nothing follows a closing message dispatches the same messages and leaves the same rest however it is cut into chunks within the limit |
| FrameStream.AllSplitsAgree | packages/cli/src/node-websocket-transport.ts:252-301 | for any error-free stream of any length, all ways to cut it dispatch the same messages if and only if no message follows one that closes the connection |
| FrameStream.PingAfterClose | packages/cli/src/node-websocket-transport.ts:255-301 | the four bytes of a close frame and a ping are free of errors; in one chunk both are dispatched, in two only the first |
| FrameStream.MessagesArrive | packages/cli/src/node-websocket-transport.ts:252-301 | messages, each in any fragments with control frames between them, masked or not, cut into any chunks within the limit, arrive as exactly those messages as long as nothing follows one that closes |
| SignalingFrames.ReadersAgree | packages/signaling/src/server.ts:735-762 | on every byte string the transport's parser refuses exactly when a declared length exceeds 16 MiB, and otherwise both readers find the same opcodes and payloads and leave the same rest |
| SignalingFrames.CreateFrameHeader | packages/signaling/src/server.ts:719-733 | the server's header followed by a payload of that length is the frame the transport's encoder makes |
| SignalingFrames.MinimalWebSocketConnection.HandleData | packages/signaling/src/server.ts:678-692 | until a close frame every complete frame of the buffered bytes is reacted to and the rest kept; an oversized length ends the connection after the frames before it |
| SignalingFrames.ReactionsInOrder | packages/signaling/src/server.ts:678-692 | frames are reacted to in their order up to the first close frame |
| SignalingFrames.SingleReaction | packages/signaling/src/server.ts:678-692 | text is handed on, a ping answered with its payload, a close frame closes, anything else is ignored |
| OffsetStore.StoreIsPlainMap | packages/cli/src/node-file-storage.ts:64-178 | from an empty store or any other valid one, any order of writes, reads, queries, deletions, preparations and restarts over any number of files is answered as by two plain maps, one for files prepared since the last restart and one for the others |
| OffsetStore.CrashInWrite | packages/cli/src/node-file-storage.ts:64-78 | a crash after some first bytes of a piece are in the output file: a piece that was absent is still absent, one that was present has just those bytes replaced, and nothing else changes |
| OffsetStore.CrashKeepsOneOrOther | packages/cli/src/node-file-storage.ts:64-78 | such a crash leaves the old or the new contents if and only if the piece was absent or the bytes written, or those not written, are the same in both |
| OffsetStore.OutputIsAssembled | packages/cli/src/node-file-storage.ts:195-204 | once all pieces of a manifest that tiles the file are present, the assembled file is the output file as it lies on the disk |
| OffsetMeaning.PrepareMeaning | packages/cli/src/node-file-storage.ts:162-178 | preparing gives the file its final size, cut off or filled with zeros, and trusts the record of pieces exactly if it was saved for the same path, size, piece size and places |
| OffsetMeaning.WriteMeaning | packages/cli/src/node-file-storage.ts:64-85 | a piece is written exactly if it is in the layout, of the right size, and the output file is there; it is noted, and nothing else changes; a refused write changes nothing |
| OffsetMeaning.ReadMeaning | packages/cli/src/node-file-storage.ts:87-114 | a piece is read exactly if it is noted and the file is there, byte by byte from its place |
| OffsetStore.NodeFileStorageAdapter.WritePiece | packages/cli/src/node-file-storage.ts:64-86 | the adapter's write has exactly the effect and the answer of the write on which the refinement is proved |
| SendQueue.QueueIsFaithful | packages/webrtc/src/index.ts:275-358 | in every run the bytes accounted for are those queued and in the pump and within capacity, sends reach the channel in the order of the calls, and each accepted send is settled at most once, resolved exactly if it reached the channel |
| SendProgress.EverythingSent | packages/webrtc/src/index.ts:275-358 | from any point of a run with the channel open and no send about to be refused: if the channel keeps emptying and takes what it is handed, everything accepted and unsettled reaches it in order and is settled as done exactly once |
| SendProgress.SendMeaning | packages/webrtc/src/index.ts:275-286 | a send is accepted exactly if it and all that is unsettled fit into the larger of the high watermark and 256 KiB, and then goes behind the others |
| SendProgress.StepMeaning | packages/webrtc/src/index.ts:294-331 | one step of the pump: a ready send goes to the open channel and is settled as done, or is settled as failed; the next is refused, ready or waiting as the channel is closed, below, or at the high watermark |
| SendProgress.DrainMeaning | packages/webrtc/src/index.ts:345-352 | room down to the low watermark is reported once after it was high and ends the wait; a wait on a closed channel ends in refusal |
| SendProgress.RejectionMeaning | packages/webrtc/src/index.ts:333-358 | on close or error every queued send is settled as failed in order, and a waiting one is about to be |
| SendQueue.CloseSettlesAll | packages/webrtc/src/index.ts:333-358 | after the channel closed, at most two further steps of the pump settle every accepted send exactly once |
| SendQueue.SendsOnlyWithRoom | packages/webrtc/src/index.ts:294-330 | with low below high watermark and no other writer, data is handed over only while the channel is open and below the high watermark |
| SendQueue.WatermarksAlternate | packages/webrtc/src/index.ts:314-352 | high and low watermark events alternate in every run without close or error |
| SendQueue.AlternationExactly | packages/webrtc/src/index.ts:314-352 | over any run they alternate if and only if the pump never takes its next send while open, at or above the high watermark, and still marked as blocked |
| SendQueue.ErrorBreaksAlternation | packages/webrtc/src/index.ts:339-352 | for every profile six events make the queue report high twice in a row |
| SendQueue.DataChannelWrapper.DrainSendQueue | packages/webrtc/src/index.ts:294-330 | one step of the pump, on the object, is the step on which the runs are built |
| Congestion.WindowStaysInBounds | packages/webrtc/src/index.ts:639-719 | over every run of starts, resets, samples and updates the window stays between its bounds and the recommended batch between 1 and 32 |
| CongestionMeaning.UpdateMeaning | packages/webrtc/src/index.ts:692-708 | the window shrinks to seven tenths when the round-trip time is over twice its base or more is buffered than it allows, grows by 256 or 64 KiB when the time is under one and a half times its base and less than four fifths is buffered, within its bounds, and stays otherwise and for 100 ms |
| CongestionMeaning.BatchMeaning | packages/webrtc/src/index.ts:710-718 | the batch exceeds `k` chunks exactly if `k + 1` of them are a fifth of the window at most, and is between 1 and 32 |
| Congestion.CongestionReachesMin | packages/webrtc/src/index.ts:688-710 | while the round-trip time is congested, whatever the buffer readings, twice as many effective updates as the window can be halved bring it to its minimum |
| Congestion.ClearReachesMax | packages/webrtc/src/index.ts:688-710 | ceil((max - min) / step) effective clear updates over an empty buffer bring the window to its maximum if and only if it was not zero or the maximum is zero |
| Congestion.GrowthIsPaced | packages/webrtc/src/index.ts:688-710 | however often it is updated, a started controller widens the window by no more than 256 KiB for every 100 ms that pass |
| RunArtifact.FailureCounts | apps/demo/src/direct-transfer-artifacts.ts:97-119 | the three failure counts are zero exactly when no event reports such a failure |
| ArtifactMeaning.CountsMeaning | apps/demo/src/direct-transfer-artifacts.ts:97-119 | each count is the number of events it is about, and the leak count zero exactly if there is no lifecycle error and one disposal, with nothing left |
| ArtifactMeaning.AppendMeaning | apps/demo/src/direct-transfer-artifacts.ts:57-69 | an event is appended exactly if nothing was disposed before and its numbers are safe integers; its entry is numbered and timed as stated |
| ArtifactMeaning.CompleteMeaning | apps/demo/src/direct-transfer-artifacts.ts:73-81 | a log is completed exactly if the run ended cleanly, a succeeded one verified every piece and validated its resume, nothing was disposed before and the closing events are well formed; it then ends with those |
| ArtifactMeaning.ValidateExactly | apps/demo/src/direct-transfer-artifacts.ts:121-139 | the validator accepts exactly the logs that pass every check, written out over their events |
| ArtifactMeaning.TamperingIsRefused | apps/demo/src/direct-transfer-artifacts.ts:121-139 | an accepted log is refused with other counts, another outcome, an event taken out or one added |
| RunArtifact.CompletedIsValid | apps/demo/src/direct-transfer-artifacts.ts:57-139 | whenever a log built by appending is completed with its final state the outcome, the validator accepts it exactly when no event lies before the start, the states fit, and a succeeded run reports no failure |
| RunArtifact.ControllerLogIsValid | apps/demo/src/direct-transfer-controller.ts:58-253 | whatever a controller went through since it was opened, if disposing it completes the log then the validator accepts it exactly when no logged event was given a negative time and the run did not succeed or logged no resume, integrity or framing failure |
| RunArtifact.NegativeTimeIsRefused | apps/demo/src/direct-transfer-artifacts.ts:66-95 | an event given a negative time is appended, the log is completed, and the validator refuses it |

## Findings
Properties the code is meant to have that do not hold as such. Each has an input on which it fails, and the exact condition under
which it holds.

| property | input on which it fails | holds exactly when |
|---|---|---|
| chunks join the request of the header before them, and an honest peer's requests never end as `invalid_chunk` | `TransferExceptions.TornAnswerRun`: sending the chunk of one answer fails, the next answer is begun all the same, its header finds the other one waiting (packages/core/src/index.ts:1781-1837) | no frame meets a header left without its chunk: `TransferPairing.RunPairsExactly`; for `invalid_chunk`, no direct request is broken so: `TransferPairing.InvalidExactly` |
| right bytes that are stored and saved make their piece verified | `TransferDelivery.UnannouncedRun`: the new piece map cannot be sent to one of the known peers, the receipt throws after the request ended as verified, and the piece is marked failed (packages/core/src/index.ts:1554-1555, 1685-1692) | the announcement reaches all known peers: `EngineSweeps.VerifiedExactly` |
| leases and grid requests are in bijection | `EngineExceptions.StaleHeaderRun`: a header waits, its request's lease ends, a frame of the wrong size is refused, and the piece is asked for again by a request without a lease (1752-1779) | no handler meets `EngineLease.Parts`: `EngineLease.LeasesExactly` |
| a file has at most `maxInFlightTotal` requests in flight | `EngineExceptions.CancelledRequestRun`: a request cancelled by its peer is still completed, kept, and another one made without the check of the window loop (1483-1487) | no handler meets `EngineCaps.Overshoots`: `EngineCaps.FilesExactly` |
| the provider table does not depend on the order of delivery | `Availability.TwoOrdersDiffer`: two valid maps of one file with different piece counts; the first to come decides which is refused | valid maps of a file agree on its piece count, and a peer's highest generation names one map: `Availability.OrderIrrelevantExactly` |
| missing pieces that a peer may be asked for are asked for | `EngineExceptions.EmptyMapStarves`: the first map of a file fixes its piece count, and no lease can be taken on a piece beyond it, so a first map without pieces stops all grid requests for the file (packages/core/src/index.ts:857-861, 887-902) | one piece decides, has retries left, and is listed: `EngineGrid.SchedulesExactly` |
| chunk boundaries do not matter to the socket receiver | `FrameStream.PingAfterClose`: a ping after a close frame is dispatched if it shares the chunk, and lost otherwise; `FrameStream.CutAfterClose` for any such stream | nothing follows a closing message: `FrameStream.AllSplitsAgree` |
| high and low watermark events alternate | `SendQueue.ErrorBreaksAlternation`: an error rejects the waiting send but leaves the channel marked as blocked | the pump never blocks while still marked: `SendQueue.AlternationExactly` |
| the validator accepts what the producer completes | `RunArtifact.NegativeTimeIsRefused`: an event is given a negative time and is normalized to lie before the start | `RunArtifact.ControllerLogIsValid` |
| persistent clear updates reach the maximum window | a window that is zero, as under a profile with `min` 0 after enough congestion: an empty buffer is never below 0.8 of it | `Congestion.ClearReachesMax` |
| resuming leaves each piece verified or missing | an imported map with a piece in the state `received`, which no engine exports | `Resume.ResumePartitions`; for maps an engine made, always: `Delivery.ResumePartitionsFile` |
| an interrupted write to the output file leaves the old or the new piece | a present piece is written again with other bytes, and the process ends in the middle | `OffsetStore.CrashKeepsOneOrOther` |

## Left out
- Interleavings inside a handler at its `await` points; handlers are steps, except for the frames of an answer.
- `PeerHealthTable`: scores and connection states are inputs of grid choice; their updates on success, reject and timeout are not modelled.
- Endgame requests, `resumeFile` while requests are outstanding, and calls of `receivePiece` or `requestNextPiece` by others than the engine itself.
- `requestGridPieceWindow` as a loop: one `DoGrid` is one round of it.
- Forgetting windows and tombstones beyond 4096, event delivery, metrics and performance events, and errors rethrown to the caller of `flushDirectLifecycle`.
- Known peers and what is sent to them: whether a broadcast of the new piece map succeeds is an input.
- The piece managers inside the engine object are values in a map; `Pieces.PieceManager` is the array-backed class by itself.
- Identifiers are numbers compared for equality; string forms, JSON checks and session manifests are not part of this model.
- The serving side reads `fromOffset` bytes into a piece; the engine always asks from offset zero, so answers are whole pieces.
- The offset store keeps one manifest and output path for each file over a run; preparing a file anew under another layout is covered only as a first preparation over what lies there.
- A hash of the piece layout stands for the layout itself; safe assembly limits, streaming sinks and `cleanup` are not part of this model.
- Handshake, TLS, sockets and backlogs of the WebSocket transport: `sendRaw`, its queue limit and `releaseWebSocketSend` would add only an easy counter.
- The signaling connection's `closed` flag and the text handler behind it.
- Chunk-size clamps, tuning profiles and `selectInFlightTargetBytes`; rounding of floating-point numbers in scores and in the congestion window, which are exact here.
- In the demo controller: requests, deferred events and settling of windows; what it logs is modelled, with the order in which it logs left free.
