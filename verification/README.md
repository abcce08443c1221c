# A model of the rmqcpp protocol core

rmqcpp is an AMQP 0-9-1 client library whose promise is that no message is
silently dropped. This project models the state machines that carry the promise
and proves it of them, for every input and every run.

- `MultipleAck.dfy`: individual acknowledgements batched into `multiple` ones, a
  broker that reads them, and the refinement of acknowledging one by one.
- `MessageStore.dfy`: the store of unsettled messages with its two indexes.
- `MessageGuard.dfy`: the right to acknowledge a delivery, copied and transferred.
- `AckPipeline.dfy`: batches, lifetime filter, handler, writes and broker, with
  channel resets.
- `ConsumerPipeline.dfy`: guards and that pipeline as one machine, in which guards
  make all acknowledgements.
- `SendChannel.dfy`, `Producer.dfy`: publishing, confirms, returns and resets; then
  senders, event loop and thread pool interleaved around them.
- `ReceiveChannel.dfy`: the consumer's seven states, first against an arbitrary
  broker and then against one that answers in order.
- `HostHealth.dfy`: health checks and the channels that follow them.
- `Topology.dfy`, `TopologyReplay.dfy`, `TopologyBroker.dfy`: the topology declared on
  open and updates in flight; then whole runs and the topology of the next reconnect;
  then what the broker has of it.
- `ContentCodec.dfy`, `Framing.dfy`: properties, content headers, frames, the byte
  stream decoder and the framer, from messages to bytes and back.
- `Connection.dfy`, `ChannelMap.dfy`, `Heartbeat.dfy`: the life of a connection,
  channel ids, and heartbeat ticks.
- `Transformers.dfy`: message transformations applied and undone.
- `Wrappers.dfy`: a value that may be absent.

A protocol is a value with a total `Step` that ignores events its environment
cannot produce, a `Run` over any list of events, an invariant that every step keeps
and lemmas about every run. Beside them, lemmas named `...Exactly` and `...AsAsked` say
what a state is from the events of the run. An object that the library changes in
place is a class whose methods are proved equal to the functions that the lemmas are
about.

The environment is assumed to do this and no more: a socket begins a write when the
one before has completed, and drops what is left when it goes; a broker delivers each
positive tag once per channel lifetime; while a channel is open nobody else changes the
queues and bindings of its topology; where a broker is said to answer in order, it
answers the requests of one channel in the order they were written. Integers are
unbounded except where the width matters (16-bit channel ids, 32-bit lengths, 64-bit
heartbeat counters).

## Where the code and its promises differ

- A throwing health checker is documented as retried up to N times
  (`src/rmq/rmqt/rmqt_hosthealthconfig.h:38-48`); the code tolerates N + 1 throws in a
  row and turns unhealthy at throw N + 2.
- `encodedSize` counts a short string in full while the encoder writes at most 255
  bytes of it, so a header frame with a longer string announces more bytes than it
  has and swallows what follows.
- A topology update written between Channel.Open and its reply is sent again after
  the reply. On a channel that declares nothing but queue bindings, its extra reply can
  be taken for the answer to another update, which is then resolved and merged while
  the broker has not answered it. On every other channel the replies come out of order
  before the declaration is complete and close the channel, with the update still
  queued and nothing lost.
- A channel that has sent Channel.Close is made ready again by replies that were on
  their way, or by a Basic.ConsumeOk with an unknown consumer tag while its consumer is
  consuming. Acknowledgements it then writes are not read by the broker.
- When a channel is reset while the socket is up, writes of the old lifetime still
  complete, do not find their tags in the new store and remove nothing.
- A reset that finds messages both in flight and pending resends the older ones behind
  the newer ones.
- When every positive channel id is in use the next id is 0, and one more replaces the
  channel under it.
- With a heartbeat timeout below 2 seconds no heartbeat is sent.

## Model

| member | source | states |
|---|---|---|
| MultipleAck.SortByTag | src/rmq/rmqamqp/rmqamqp_multipleackhandler.cpp:43-46 | sorts the caller's buffer in place by delivery tag, a permutation of what it held |
| MultipleAck.BatchAll | src/rmq/rmqamqp/rmqamqp_multipleackhandler.cpp:48-96 | the loop over sorted acknowledgements writes exactly `Emit`, and both counters account for all of them |
| MultipleAck.MultipleAckHandler.Process | src/rmq/rmqamqp/rmqamqp_multipleackhandler.cpp:43-96 | the same of a whole call: sorted buffer, what is written, new counters |
| MultipleAck.MultipleAckHandler.Reset | src/rmq/rmqamqp/rmqamqp_multipleackhandler.cpp:98-102 | both counters start again with a new channel lifetime |
| MultipleAckProofs.CountingArgument | src/rmq/rmqamqp/rmqamqp_multipleackhandler.cpp:58-61 | n distinct positive tags with maximum n are exactly 1..n, which is why a multiple acknowledgement is safe |
| MultipleAckProofs.StepRefines | src/rmq/rmqamqp/rmqamqp_multipleackhandler.cpp:54-91 | one turn of the loop, flushed, leaves the broker where acknowledging that message alone would |
| MultipleAckProofs.EmitRefines | src/rmq/rmqamqp/rmqamqp_multipleackhandler.cpp:43-96 | for every call with fresh distinct tags, the broker ends in the same state as with one acknowledgement per message |
| MultipleAckProofs.EmittedOnWire | src/rmq/rmqamqp/rmqamqp_multipleackhandler.cpp:43-96 | everything written is the Basic.Ack, or the Basic.Nack with or without requeue, of an acknowledgement asked for |
| MultipleAckProofs.SequenceIsOneMethod | src/rmq/rmqamqp/rmqamqp_multipleackhandler.cpp:58-76 | acknowledgements of one type in sequence, with all tags before them acknowledged, go out as a single method |
| MessageStore.MessageStore.Insert | src/rmq/rmqamqp/rmqamqp_messagestore.h:123-155 | refuses a used tag, otherwise adds to both indexes, keeping the older entry of a guid |
| MessageStore.MessageStore.LookupGuid | src/rmq/rmqamqp/rmqamqp_messagestore.h:170-181 | finds a live entry with that guid, and with a complete index misses none |
| MessageStore.MessageStore.Remove | src/rmq/rmqamqp/rmqamqp_messagestore.h:184-199 | takes one entry out of both indexes |
| MessageStore.MessageStore.RemoveUntil | src/rmq/rmqamqp/rmqamqp_messagestore.h:202-225 | nothing for an unknown tag, otherwise exactly the entries up to it, in tag order |
| MessageStore.MessageStore.Swap | src/rmq/rmqamqp/rmqamqp_messagestore.h:228-234 | exchanges contents and begins a new lifetime |
| MessageStore.MessageStore.GetMessagesOlderThan | src/rmq/rmqamqp/rmqamqp_messagestore.h:253-269 | always a prefix of the store; with insert times ordered by tag, stopping early equals filtering everything |
| MessageStore.IndexInvariant | src/rmq/rmqamqp/rmqamqp_messagestore.h:123-234 | in every run of operations the guid index never dangles, even with duplicate guids |
| MessageStore.LiveExactly | src/rmq/rmqamqp/rmqamqp_messagestore.h:123-234 | in every run the store holds exactly the entries inserted under free tags and not removed since, alone, up to a later live tag or by a swap |
| MessageStore.LatestIsHighest | src/rmq/rmqamqp/rmqamqp_messagestore.h:123-155 | the latest tag is the highest inserted since the last swap |
| MessageStore.AlwaysCompleteExactly | src/rmq/rmqamqp/rmqamqp_messagestore.h:123-155 | the index finds every live entry throughout a run if and only if no insertion takes a guid that is live |
| MessageStore.DuplicateGuidLosesEntry | src/rmq/rmqamqp/rmqamqp_messagestore.h:184-199 | a run with a duplicate guid in which the index keeps the older entry, and loses it while it is live when the newer one goes |
| MessageGuard.Guard.CopyOf | src/rmq/rmqa/rmqa_messageguard.cpp:53-61 | a copy takes over state and delivery and the original is transferred |
| MessageGuard.Guard.TransferOwnership | src/rmq/rmqa/rmqa_messageguard.cpp:129-136 | a new guard takes over and this one is transferred |
| MessageGuard.Guard.Assign | src/rmq/rmqa/rmqa_messageguard.cpp:63-74 | private to the guard and called by nothing: the other guard's state and delivery are taken over, and assigning a guard to itself does nothing |
| MessageGuard.Guard.Resolve | src/rmq/rmqa/rmqa_messageguard.cpp:106-127 | acknowledges exactly from READY, and is then resolved; the type is pinned by `AcksAsAsked` |
| MessageGuard.Guard.Destroy | src/rmq/rmqa/rmqa_messageguard.cpp:76-100 | a READY guard requeues its delivery when destroyed |
| MessageGuard.ExactlyOneAck | src/rmq/rmqa/rmqa_messageguard.cpp:53-136 | in every run of copies, resolutions and destructions only deliveries are acknowledged and none twice, and once all guards are gone each was acknowledged exactly once |
| MessageGuard.AcksAsAsked | src/rmq/rmqa/rmqa_messageguard.cpp:76-127 | in every run an acknowledgement was made if and only if an event resolved a guard READY for that delivery with that type, or destroyed one, with a requeue |
| MessageGuard.ReadyIsOwner | src/rmq/rmqa/rmqa_messageguard.cpp:53-136 | in every run the READY guards are exactly the owners: the guard of the delivery, then the last copy of the owner, until the owner is resolved or destroyed |
| AckPipeline.ConsumerAckBatch.AddAck | src/rmq/rmqt/rmqt_consumerackbatch.cpp:29-39 | a batch accepts until it is locked |
| AckPipeline.AckCollector.AckMessage | src/rmq/rmqa/rmqa_consumerimpl.cpp:175-190 | adds to the open batch shared with the queue, or starts one and posts a job for it |
| AckPipeline.BurstIsOneBatch | src/rmq/rmqa/rmqa_consumerimpl.cpp:175-190 | however many acknowledgements come before a job runs, they make one batch in their order and one job |
| AckPipeline.AckCollector.PopBatch | src/rmq/rmqamqp/rmqamqp_receivechannel.cpp:601-609 | takes and locks the oldest batch |
| AckPipeline.Compact | src/rmq/rmqamqp/rmqamqp_receivechannel.cpp:617-639 | in-place compaction leaves exactly this lifetime's acknowledgements, in order |
| AckPipeline.RetainCounts | src/rmq/rmqamqp/rmqamqp_receivechannel.cpp:617-639 | what is left has every acknowledgement of this lifetime as often as before, and none of another |
| AckPipeline.RetainAppend | src/rmq/rmqamqp/rmqamqp_receivechannel.cpp:617-639 | and in the order they came |
| AckPipeline.BatchSettles | src/rmq/rmqamqp/rmqamqp_receivechannel.cpp:601-642 | one batch makes the broker settle exactly the tags it requests, each with its type |
| AckPipeline.WriteFindsTag | src/rmq/rmqamqp/rmqamqp_receivechannel.cpp:1021-1069 | the removal after a completed write of this lifetime never misses |
| AckPipeline.LeftoverMisses | src/rmq/rmqamqp/rmqamqp_channel.cpp:436-466 | one of an earlier lifetime meets an empty store and leaves it as it is |
| ConsumerPipeline.BrokerSettlesExactlyRequests | src/rmq/rmqamqp/rmqamqp_receivechannel.cpp:601-642 | in every run of guards, jobs, writes, closes and resets the broker settles each requested tag at most once with its requested type and nothing else; once it has read everything it has settled exactly the requested ones if and only if no job wrote behind a close and it closed the channel with nothing unread |
| ConsumerPipeline.AcknowledgementsReachTheWire | src/rmq/rmqa/rmqa_consumerimpl.cpp:175-190 | in every run only what guards of this lifetime acknowledged is requested, with the type they asked for; each is requested, queued or was refused by a closing channel, and only one of these; every queued batch has a job to take it |
| ConsumerPipeline.StoreHoldsUnsettled | src/rmq/rmqamqp/rmqamqp_receivechannel.cpp:1021-1113 | in every run the next write to complete finds its tag if and only if it was written since the last reset and otherwise removes nothing, and with no write of this lifetime outstanding the store holds exactly the deliveries not requested |
| ConsumerPipeline.EveryDeliverySettledOnce | src/rmq/rmqamqp/rmqamqp_receivechannel.cpp:601-642 | in every run that has come to rest, with all guards gone, the broker has settled every delivery of the lifetime exactly once and the store is empty, if and only if no job refused an acknowledgement and nothing was written that the broker did not take; what is settled is settled in the way an event of the application asked for |
| ConsumerPipeline.OutcomesAsAsked | src/rmq/rmqa/rmqa_messageguard.cpp:76-127 | in every run the broker settles a tag only in the way in which the application resolved or destroyed the guard READY for that delivery |
| ConsumerPipeline.AskedIsOutcome | src/rmq/rmqamqp/rmqamqp_receivechannel.cpp:601-642 | at rest with nothing refused or strayed, whatever the application asked for a delivery of this lifetime is what the broker did |
| ConsumerPipeline.OpenChannelSettlesAll | src/rmq/rmqamqp/rmqamqp_receivechannel.cpp:601-642 | nothing is refused or strays on a channel that nobody asked to close since its reset: at rest it has settled every delivery, and each in a way if and only if the application asked for that |
| AckPipeline.EmitFaultsExactly | src/rmq/rmqamqp/rmqamqp_multipleackhandler.cpp:43-96 | among delivered tags the broker accepts what a call writes if and only if no tag is acknowledged twice, in the call or before it |
| ConsumerPipeline.RevivedChannelStrays | src/rmq/rmqamqp/rmqamqp_receivechannel.cpp:611-615 | a run in which a channel revived after its close writes an acknowledgement that stays without effect although everything was read |
| ConsumerPipeline.ResetLeavesWrite | src/rmq/rmqamqp/rmqamqp_channel.cpp:436-466 | a run in which a write outlives the lifetime it was made in and its tag is not in the store |
| SendChannel.SendChannel.PublishMessage | src/rmq/rmqamqp/rmqamqp_sendchannel.cpp:151-194 | queued unless ready and flowing, otherwise stored under the next delivery tag and written |
| SendChannel.SendChannel.PublishPending | src/rmq/rmqamqp/rmqamqp_sendchannel.cpp:196-205 | drains the pending queue in order |
| SendChannel.SendChannel.ProcessAckNack | src/rmq/rmqamqp/rmqamqp_sendchannel.cpp:295-322 | takes the tag, or all up to it, out of the store and calls back for those; which ones and with which response is `CalledBackExactly` |
| SendChannel.SendChannel.CallbackMessages | src/rmq/rmqamqp/rmqamqp_sendchannel.cpp:262-293 | one callback per message in order, with the return of a returned one, whose mark is erased; the return is pinned by the events of the run in `CalledBackExactly` |
| SendChannel.SendChannel.ProcessMessage | src/rmq/rmqamqp/rmqamqp_sendchannel.cpp:228-260 | the content of a return marks the stored tag of its guid, or closes the channel |
| SendChannel.SendChannel.ProcessFlow | src/rmq/rmqamqp/rmqamqp_channel.cpp:121-141 | flow stops direct publishing; its return drains what is pending on a ready channel |
| SendChannel.SendChannel.ProcessSelectOk | src/rmq/rmqamqp/rmqamqp_sendchannel.cpp:207-226 | ready, and pending messages go out whatever the flow |
| SendChannel.SendChannel.ProcessFailures | src/rmq/rmqamqp/rmqamqp_sendchannel.cpp:121-141 | unconfirmed messages go behind the pending ones in tag order and returns are forgotten |
| SendChannel.SendChannel.Reset | src/rmq/rmqamqp/rmqamqp_sendchannel.cpp:106-112 | a new lifetime counts from 1 with an empty store |
| SendChannel.CalledBackExactly | src/rmq/rmqamqp/rmqamqp_sendchannel.cpp:262-322 | in every run an ack or nack of a stored tag calls back exactly that message, or all stored up to it, from the oldest on, and takes them out of the store; each hears the response of this event, or the code of its first return since it was written, as the events of the run tell it; an unknown tag calls back nothing |
| SendChannel.NothingElseCalledBack | src/rmq/rmqamqp/rmqamqp_sendchannel.cpp:262-322 | no other event calls back |
| SendChannel.CalledWasAnswered | src/rmq/rmqamqp/rmqamqp_sendchannel.cpp:228-322 | in every run whatever was called back was the answer to a stored tag at some ack or nack |
| SendChannel.WrittenExactly | src/rmq/rmqamqp/rmqamqp_sendchannel.cpp:151-226 | in every run a message is written at once if the channel was selected and the last flow was on, and waits otherwise; what waits is written in order on select-ok and when the flow comes back; a reset makes what was not confirmed wait again; nothing else writes |
| SendChannel.EventConserves | src/rmq/rmqamqp/rmqamqp_sendchannel.cpp:106-322 | no event loses or invents a message, counted per message |
| SendChannel.PublishedIsConserved | src/rmq/rmqamqp/rmqamqp_sendchannel.cpp:106-322 | in every run against any broker each message is pending, stored or called back as often as published; insertion never fails; stored tag n is the n-th publish of this lifetime; only stored tags are marked returned |
| SendChannel.AlwaysInOrderExactly | src/rmq/rmqamqp/rmqamqp_sendchannel.cpp:121-205 | against any broker, with distinct messages, those in flight by tag followed by the pending ones are in publication order throughout a run if and only if no reset of the run finds both the store and the pending queue non-empty |
| SendChannel.ResetReorders | src/rmq/rmqamqp/rmqamqp_sendchannel.cpp:126-131 | a run in which a reset puts an older message behind a newer one |
| Producer.SharedState.RegisterUniqueCallback | src/rmq/rmqa/rmqa_producerimpl.cpp:186-205 | a guid in use is refused, otherwise its callback is registered |
| Producer.SharedState.TrySend | src/rmq/rmqa/rmqa_producerimpl.cpp:326-345 | refused for want of a permit exactly when none is free; otherwise the status and the new state of a send |
| Producer.SharedState.SendImpl | src/rmq/rmqa/rmqa_producerimpl.cpp:298-324 | a timeout changes nothing; otherwise as a send with a permit |
| Producer.SharedState.DoSend | src/rmq/rmqa/rmqa_producerimpl.cpp:355-387 | SENDING exactly for a transformed message with a free guid, DUPLICATE exactly for a guid in use, TRANSFORM_ERROR exactly without one; the permit is kept exactly when the send goes on |
| Producer.SharedState.ActionConfirm | src/rmq/rmqa/rmqa_producerimpl.cpp:45-97 | removes the callback and returns the permit; the waiting future is resolved if and only if it was pending, the guid was registered and no callback is left |
| Producer.SharedState.WaitForConfirms | src/rmq/rmqa/rmqa_producerimpl.cpp:389-421 | waits only while something is outstanding |
| Producer.ConfirmFindsCallback | src/rmq/rmqa/rmqa_producerimpl.cpp:54-75 | the branch that fails to find a callback is unreachable |
| Producer.NoMessageLostOrConfirmedTwice | src/rmq/rmqa/rmqa_producerimpl.cpp:45-118 | in every interleaving a callback is registered exactly for the messages in the pipeline, each in one place, and every accepted send is outstanding or was called back once |
| Producer.PermitsAreConserved | src/rmq/rmqa/rmqa_producerimpl.cpp:298-421 | in every interleaving free permits, outstanding callbacks and senders holding a permit add up to the configured limit, and a wait is pending only while something is outstanding |
| Producer.WaitingExactly | src/rmq/rmqa/rmqa_producerimpl.cpp:83-97 | in every interleaving the future of waitForConfirms is pending if and only if somebody waited and something has been outstanding ever since |
| Producer.InvokedAsAnswered | src/rmq/rmqa/rmqa_producerimpl.cpp:45-97 | in every interleaving the callbacks made and the jobs to come are exactly what the channel called back, response included, so each carries the broker's answer to its message or its return |
| ReceiveChannel.ReceiveChannel.Consume | src/rmq/rmqamqp/rmqamqp_receivechannel.cpp:477-508 | registers the consumer and starts it if the channel is ready and not paused |
| ReceiveChannel.ReceiveChannel.Resume | src/rmq/rmqamqp/rmqamqp_receivechannel.cpp:510-577 | the effect of a resume in every consumer and channel state |
| ReceiveChannel.ReceiveChannel.Cancel | src/rmq/rmqamqp/rmqamqp_receivechannel.cpp:654-700 | the branches of the source in every state; what a cancel is for is `ConsumerUntilCancelled` |
| ReceiveChannel.ReceiveChannel.Pause | src/rmq/rmqamqp/rmqamqp_receivechannel.cpp:702-755 | the effect of a pause in every state |
| ReceiveChannel.ReceiveChannel.ProcessBasicMethod | src/rmq/rmqamqp/rmqamqp_receivechannel.cpp:786-955 | the effect of every reply, expected or not |
| ReceiveChannel.ReceiveChannel.OnReset | src/rmq/rmqamqp/rmqamqp_receivechannel.cpp:419-475 | futures fail, a cancelling consumer goes, the others restart later |
| ReceiveChannel.AlwaysConsistent | src/rmq/rmqamqp/rmqamqp_receivechannel.cpp:419-577 | against any broker, in every reachable state: a cancel is pending exactly in PAUSING and CANCELLING, a pending resume means not pause-on-open and one of three states, STARTING and CONSUMING mean not pause-on-open, PAUSED means pause-on-open |
| ReceiveChannel.ClosingChannelRevived | src/rmq/rmqamqp/rmqamqp_receivechannel.cpp:811-949 | exactly which replies make a channel that has sent a close ready again, which make it send and wait again, and that all others leave it closing |
| ReceiveChannel.UnknownTagCloses | src/rmq/rmqamqp/rmqamqp_receivechannel.cpp:811-849 | a reply for an unknown consumer sends a close and leaves the channel waiting for it except exactly for a consume-ok while its own consumer is consuming |
| ReceiveChannel.UnknownTagLeavesReady | src/rmq/rmqamqp/rmqamqp_receivechannel.cpp:839-848 | a run after which the channel is ready although it has just sent a close |
| ReceiveChannel.OneToggleInFlight | src/rmq/rmqamqp/rmqamqp_receivechannel.cpp:786-955 | between resets, against a broker answering in order, consumes and cancels alternate and at most the last one is unanswered |
| ReceiveChannel.IntentPrevails | src/rmq/rmqamqp/rmqamqp_receivechannel.cpp:702-945 | ready with nothing unanswered, the consumer is PAUSED or CONSUMING as last asked, through any number of resets |
| ReceiveChannel.ConsumerUntilCancelled | src/rmq/rmqamqp/rmqamqp_receivechannel.cpp:654-700 | in every run the channel keeps the consumer that was registered, through pauses and resets, until it is cancelled; from then until the next one is registered it is gone or CANCELLING with its cancel pending and its cancel or the consume before it unanswered, gone whenever nothing is unanswered, and gone after a reset |
| ReceiveChannel.ResumeFutureExactly | src/rmq/rmqamqp/rmqamqp_receivechannel.cpp:510-577 | in every run the future of a resume is pending exactly from an accepted resume of a consumer that is not up until it is up, paused, cancelled or reset |
| ReceiveChannel.ClosesAsAsked | src/rmq/rmqamqp/rmqamqp_channel.cpp:531-552 | against any broker the channel waits for a close only after sending it, is closed or waits for that after any close, and closes for good if and only if that was asked for |
| HostHealth.PauseReceiveChannels | src/rmq/rmqamqp/rmqamqp_channelmap.cpp:117-134 | the walk over receive channels pauses exactly those it should |
| HostHealth.SyncConnections | src/rmq/rmqamqp/rmqamqp_hosthealthmonitor.cpp:218-271 | the walk over connections drops dead ones and brings every live one in step |
| HostHealth.ChannelsFollowHealth | src/rmq/rmqamqp/rmqamqp_hosthealthmonitor.cpp:95-271 | in every run each health-aware channel of a live registered connection that is not leaving is flagged paused exactly when the latest result is not HEALTHY, however late it was created or registered; the latest result is never RETRY |
| HostHealth.ReadyChannelsFollowHealth | src/rmq/rmqamqp/rmqamqp_hosthealthmonitor.cpp:218-271 | with a broker that answers in order, such a channel that is ready with nothing unanswered has its consumer PAUSED exactly when the host is not healthy and CONSUMING otherwise |
| HostHealth.OthersLeftAlone | src/rmq/rmqamqp/rmqamqp_channelmap.cpp:117-153 | in every run channels exist as created, and one that is not health-aware is in the state its own events bring it to: the monitor leaves it alone |
| HostHealth.MonitorFollowsChecks | src/rmq/rmqamqp/rmqamqp_hosthealthmonitor.cpp:133-229 | in every run the latest result is what the checker last answered, or UNHEALTHY when it had thrown more than N + 1 times in a row |
| HostHealth.RegisteredExactly | src/rmq/rmqamqp/rmqamqp_hosthealthmonitor.cpp:95-114 | in every run a live connection is looked after exactly when it was registered |
| HostHealth.PauseAllPauses | src/rmq/rmqamqp/rmqamqp_channelmap.cpp:117-153 | without regard to host health every channel that is not leaving is paused or resumed, and so are channels made afterwards |
| HostHealth.ThrowingIsToleratedThenUnhealthy | src/rmq/rmqamqp/rmqamqp_hosthealthmonitor.cpp:133-216 | how many throws in a row are tolerated, exactly |
| TopologyMerger.MergeUpdate | src/rmq/rmqamqp/rmqamqp_topologymerger.cpp:53-124 | the merge loop computes `Merge`, with a search before appending and removal of all matches |
| TopologyMerger.MergeMembers | src/rmq/rmqamqp/rmqamqp_topologymerger.cpp:53-124 | a binding is there afterwards if and only if it was bound and not unbound later, or was there and never unbound |
| TopologyMerger.MergeDistinct | src/rmq/rmqamqp/rmqamqp_topologymerger.cpp:80-91 | merging never makes a binding appear twice |
| TopologyMerger.MergeKeepsOrder | src/rmq/rmqamqp/rmqamqp_topologymerger.cpp:111-121 | bindings that are never unbound stay in front in their order |
| Topology.AnswersMatch | src/rmq/rmqamqp/rmqamqp_topologytransformer.cpp:112-186 | the answer to the first request written is accepted and leaves the transformer waiting for the others |
| Topology.DeclareRequestsExactly | src/rmq/rmqamqp/rmqamqp_topologytransformer.cpp:48-79 | declaring a topology writes a request if and only if it is for one of its queues, exchanges other than the default one, queue bindings or exchange bindings |
| Topology.DeclaredBeforeBound | src/rmq/rmqamqp/rmqamqp_topologytransformer.cpp:48-79 | everything is declared before anything is bound |
| Topology.UpdateRequestsExactly | src/rmq/rmqamqp/rmqamqp_topologytransformer.cpp:81-94 | an update writes a bind, an unbind or a delete for each change, in order |
| Topology.ReplyAcceptedExactly | src/rmq/rmqamqp/rmqamqp_topologytransformer.cpp:112-186 | a reply is accepted if and only if it answers the first unanswered request, under any name for a queue without one |
| Topology.UnexpectedReplyCloses | src/rmq/rmqamqp/rmqamqp_channel.cpp:190-236 | any other reply, and only that, closes the channel; the update in flight fails, stays queued and is not merged |
| Topology.Channel.SendNextUpdate | src/rmq/rmqamqp/rmqamqp_channel.cpp:262-295 | empty updates are resolved and popped, then the next one is written |
| Topology.Channel.UpdateTopology | src/rmq/rmqamqp/rmqamqp_channel.cpp:297-306 | queued, and written only if nothing is awaited |
| Topology.Channel.DeclareTopology | src/rmq/rmqamqp/rmqamqp_channel.cpp:308-338 | writes the declaration of the topology, or goes on to the updates when there is nothing to declare; what is written is `DeclareRequestsExactly` |
| Topology.Channel.ProcessTopologyReply | src/rmq/rmqamqp/rmqamqp_channel.cpp:190-260 | the effect of every reply in every state, with merge, callback and next update when all are in |
| TopologyReplay.RedeclaredTopology | src/rmq/rmqamqp/rmqamqp_channel.cpp:190-338 | for a topology with a queue, an exchange or an exchange binding in every run, and for any other in every run in which no update is overtaken by open-ok, the topology to redeclare is the initial one with exactly the confirmed updates merged in submission order |
| TopologyReplay.UpdatesConfirmedOrQueued | src/rmq/rmqamqp/rmqamqp_channel.cpp:238-306 | in the same runs an update is confirmed exactly when it has left the queue and asked for something, the others stay queued in order through resets, and futures are resolved once each in order |
| TopologyReplay.FaithfulExactly | src/rmq/rmqamqp/rmqamqp_channel.cpp:190-338 | both hold in every run of a channel if and only if its topology declares something besides queue bindings |
| TopologyBroker.BrokerHasTopology | src/rmq/rmqamqp/rmqamqp_channel.cpp:190-338 | in the runs of `RedeclaredTopology`, whatever happened at the broker while the channel was down, once everything written is answered the broker has every queue, exchange and binding of the topology except what updates confirmed since the open deleted, no deleted queue, and no binding besides but what it had before and nobody unbound |
| TopologyBroker.ConfirmedUpdatesReflected | src/rmq/rmqamqp/rmqamqp_channel.cpp:238-295 | in the same states a binding that the confirmed updates bound last, on a queue they did not delete, is at the broker, one that they unbound last is not, and a queue that they deleted is not |
| TopologyReplay.EarlyUpdateMismatched | src/rmq/rmqamqp/rmqamqp_channel.cpp:297-338 | after open-ok the replies to come are those waited for if and only if no update was written before it |
| TopologyReplay.EarlyUpdateCloses | src/rmq/rmqamqp/rmqamqp_channel.cpp:222-236 | with something to declare, the first reply after an early update closes the channel if and only if the update begins with another kind of request than the declaration, and then the update is still queued and nothing merged |
| TopologyReplay.EarlyUpdateMisconfirms | src/rmq/rmqamqp/rmqamqp_channel.cpp:238-325 | for every topology of nothing but queue bindings, however many, and any two bindings, a run in which the second update is resolved and merged while the broker has not answered it |
| Bytes.Buffer.Copy | src/rmq/rmqamqpt/rmqamqpt_buffer.h:77-97 | reads a big-endian integer, or leaves the cursor alone |
| Bytes.Buffer.Consume | src/rmq/rmqamqpt/rmqamqpt_buffer.cpp:33-45 | takes the next bytes, at most what there is |
| Bytes.BigEndianRoundTrip | src/rmq/rmqamqpt/rmqamqpt_buffer.h:77-97 | an integer that fits its width is read back |
| Bytes.BigEndianAt | src/rmq/rmqamqpt/rmqamqpt_buffer.h:77-97 | byte i of k counts for 256 to the power k - 1 - i |
| ContentCodec.FlagsBack | src/rmq/rmqamqpt/rmqamqpt_basicproperties.cpp:80-140 | the flag word has the bit of each property set exactly when it is present and fits 16 bits |
| ContentCodec.FlagExactly | src/rmq/rmqamqpt/rmqamqpt_basicproperties.cpp:80-140 | the flag of property i is worth 2 to the power 15 - i |
| ContentCodec.SampleBytes | src/rmq/rmqamqpt/rmqamqpt_basicproperties.cpp:440-486 | the bytes of properties with a content type, a delivery mode and a timestamp, flags first |
| ContentCodec.DecodeProperties | src/rmq/rmqamqpt/rmqamqpt_basicproperties.cpp:249-387 | decoding through the cursor, going on after a failing field, succeeds with the properties or fails exactly as `Decode` |
| ContentCodec.PropertiesRoundTrip | src/rmq/rmqamqpt/rmqamqpt_basicproperties.cpp:249-486 | for every combination of properties and any bytes behind, decoding gives them back up to truncation, and exactly them if and only if every string fits |
| ContentCodec.EncodedSizeExact | src/rmq/rmqamqpt/rmqamqpt_basicproperties.cpp:389-438 | the announced size is never too small and is exact if and only if every string fits |
| ContentCodec.HeaderRoundTrip | src/rmq/rmqamqpt/rmqamqpt_contentheader.cpp:57-94 | content-header decode undoes encode if and only if every string fits |
| ContentCodec.HeaderBytes | src/rmq/rmqamqpt/rmqamqpt_contentheader.cpp:88-94 | the bytes of the fixed part: class, zero weight, body size |
| Frames.FrameRoundTrip | src/rmq/rmqamqpt/rmqamqpt_frame.cpp:59-100 | a built frame followed by any bytes decodes to that frame and no more |
| Frames.FrameBytes | src/rmq/rmqamqp/rmqamqp_framer.cpp:221-298 | the bytes of a built frame: kind, channel in two, length in four, payload, 0xCE |
| Frames.StrictPrefixPartial | src/rmq/rmqamqpt/rmqamqpt_frame.cpp:65-75 | every strict prefix of a built frame is partial |
| Frames.VerdictStable | src/rmq/rmqamqpt/rmqamqpt_frame.cpp:59-100 | more bytes never change a frame or an error once decided |
| Frames.Decoder.Append | src/rmq/rmqio/rmqio_decoder.cpp:41-87 | appends, hands out every whole frame, keeps the rest and reports errors |
| Frames.ChunksInvisible | src/rmq/rmqio/rmqio_decoder.cpp:41-87 | for any bytes, until an error, how the stream was cut does not matter |
| Frames.VerdictExactly | src/rmq/rmqio/rmqio_decoder.cpp:41-87 | the next chunk is refused as corrupt exactly when a frame of the stream does not end where it says, and as too long exactly when the rest without a whole frame exceeds the limit |
| Frames.StreamDelivered | src/rmq/rmqio/rmqio_decoder.cpp:41-87 | frames within the limit come out whole, in order and without error for every cut of the stream, each as soon as its last byte is in |
| Framing.Framer.SetMaxFrameSize | src/rmq/rmqamqp/rmqamqp_framer.cpp:101-112 | a size without room for a payload is refused and the old one kept |
| Framing.Framer.AppendFrame | src/rmq/rmqamqp/rmqamqp_framer.cpp:114-214 | every frame kind with and without an unfinished content, errors included |
| Framing.RefusedExactly | src/rmq/rmqamqp/rmqamqp_framer.cpp:114-214 | a frame closes the channel exactly when it is misplaced or unreadable, and the connection exactly when its kind is none of 1, 2, 3 and 8; neither touches the content begun |
| Framing.Framer.ClearChannel | src/rmq/rmqamqp/rmqamqp_framer.cpp:216-219 | forgets one channel's unfinished content |
| Framing.Framer.MakeFrames | src/rmq/rmqamqp/rmqamqp_framer.cpp:300-307 | appends the frames of any message |
| Framing.WireBytes | src/rmq/rmqamqp/rmqamqp_framer.cpp:221-307 | the bytes a message begins with: the whole heartbeat frame, the whole method frame, or a header frame of class 60 |
| Framing.SerializeBody | src/rmq/rmqamqp/rmqamqp_framer.cpp:60-73 | the chunk loop makes the body frames of the payload |
| Framing.BodyFrameSizes | src/rmq/rmqamqp/rmqamqp_framer.cpp:60-73 | no body frame is empty or over the limit and all but the last are full |
| Framing.MessageReassembled | src/rmq/rmqamqp/rmqamqp_contentmaker.cpp:29-60 | a message's frames give it back with the last one, unfinished before, and leave the channel free |
| Framing.ChannelsDoNotInterfere | src/rmq/rmqamqp/rmqamqp_framer.cpp:114-214 | for any frames at all, a channel's results and state are those of its own frames alone |
| Framing.InterleavingReassembled | src/rmq/rmqamqp/rmqamqp_framer.cpp:51-214 | every interleaving of the channels' frames gives each channel its messages |
| Framing.WireRoundTrip | src/rmq/rmqamqp/rmqamqp_framer.cpp:51-214 | messages to frames to bytes, interleaved and cut in any way, decode to the messages sent on each channel, every frame accepted and nothing left over |
| Framing.HeaderFrameOnWire | src/rmq/rmqamqp/rmqamqp_framer.cpp:262-283 | whatever follows it, a header frame decodes to itself if and only if its strings fit; otherwise exactly how many of the bytes behind it it swallows, and when it is partial or an error |
| Connection.NegotiateMeets | src/rmq/rmqamqp/rmqamqp_connection.cpp:167-179 | the negotiated value respects every limit set and is no limit only if neither side sets one |
| Connection.TuneAcceptedExactly | src/rmq/rmqamqp/rmqamqp_connection.cpp:440-477 | the handshake is refused exactly when the server limits frames below the minimum |
| Connection.AmqpConnection.Shutdown | src/rmq/rmqamqp/rmqamqp_connection.cpp:619-685 | socket gone, then a retry armed or the callbacks fired |
| Connection.AmqpConnection.CloseTheSocket | src/rmq/rmqamqp/rmqamqp_connection.cpp:599-617 | shuts an established socket gracefully, otherwise goes down at once |
| Connection.AmqpConnection.Exception | src/rmq/rmqamqp/rmqamqp_connection.cpp:561-587 | by state: close to reconnect, or drop the socket |
| Connection.AmqpConnection.RequestClose | src/rmq/rmqamqp/rmqamqp_connection.cpp:255-278 | the effect of close in every state |
| Connection.AmqpConnection.WriteCompleted | src/rmq/rmqamqp/rmqamqp_connection.cpp:396-405 | a completion sets its state and a sent close-ok closes the socket |
| Connection.AmqpConnection.ProcessMethod | src/rmq/rmqamqp/rmqamqp_connection.cpp:696-824 | the effect of every connection method in every state |
| Connection.AmqpConnection.RetryTimer | src/rmq/rmqamqp/rmqamqp_connection.cpp:589-597 | a retry connects unless close was called |
| Connection.AmqpConnection.Destruct | src/rmq/rmqamqp/rmqamqp_connection.cpp:280-288 | goes down for good and fires what is waiting |
| Connection.ConnectedAfterHandshake | src/rmq/rmqamqp/rmqamqp_connection.cpp:696-762 | in every run against any broker CONNECTED means that start, tune and open-ok were accepted in this order, once each, on the socket in use |
| Connection.NeverAbandoned | src/rmq/rmqamqp/rmqamqp_connection.cpp:619-673 | in every run before a close there is a socket or a retry to come, never both and never neither |
| Connection.NoAttemptAfterClose | src/rmq/rmqamqp/rmqamqp_connection.cpp:589-597 | after close, however the run goes on, no attempt to connect starts |
| Connection.FirstConnectReportedOnce | src/rmq/rmqamqp/rmqamqp_connection.cpp:674-678 | the first-connect callback fires at most once, and exactly once by destruction |
| Connection.FirstResultExactly | src/rmq/rmqamqp/rmqamqp_connection.cpp:619-685 | in every run it was told success if and only if the connection was ever established, and failure if and only if it went down for good before that |
| Connection.HandshakeConnects | src/rmq/rmqamqp/rmqamqp_connection.cpp:696-762 | start, an acceptable tune and open-ok establish the connection |
| Connection.UnexpectedMethodCloses | src/rmq/rmqamqp/rmqamqp_connection.cpp:561-587 | a method out of place or a tune below the minimum makes a connection that is up or coming up ask to be closed, and shuts the socket of one that is being closed, for good exactly after a close to exit |
| Connection.BadMethodReconnects | src/rmq/rmqamqp/rmqamqp_connection.cpp:561-685 | after which the broker's close-ok and the timer begin a new attempt |
| Connection.BrokerCloseReconnects | src/rmq/rmqamqp/rmqamqp_connection.cpp:396-405 | a close by the broker is answered, and the timer begins a new attempt |
| Connection.MissedHeartbeatsReconnect | src/rmq/rmqamqp/rmqamqp_connection.cpp:1121-1157 | missed heartbeats, or a connection or channel found hung, shut the socket, and the timer begins a new attempt |
| Connection.LossReconnects | src/rmq/rmqamqp/rmqamqp_connection.cpp:589-685 | so does the loss of the socket |
| Connection.CloseIsWritten | src/rmq/rmqamqp/rmqamqp_connection.cpp:255-278 | in every run a close while the connection is up or coming up writes Connection.Close behind everything else, and without one it is down for good at once with its callback fired |
| Connection.CloseCompletes | src/rmq/rmqamqp/rmqamqp_connection.cpp:255-278 | the broker's close-ok then ends an established connection for good and fires the callback of that close |
| Connection.CloseReportedOnce | src/rmq/rmqamqp/rmqamqp_connection.cpp:255-288 | by destruction a close callback has fired exactly once, unless a later close replaced it while it waited |
| ChannelMap.LowestFree | src/rmq/rmqamqp/rmqamqp_channelmap.cpp:36-48 | the walk finds the lowest free positive id, and 0 exactly when there is none |
| ChannelMap.ConnectionChannels.AssignId | src/rmq/rmqamqp/rmqamqp_channelmap.cpp:36-52 | reserves that id |
| ChannelMap.ConnectionChannels.AssociateSend | src/rmq/rmqamqp/rmqamqp_channelmap.cpp:54-59 | puts a send channel into two maps |
| ChannelMap.ConnectionChannels.AssociateReceive | src/rmq/rmqamqp/rmqamqp_channelmap.cpp:61-67 | puts a receive channel into two maps |
| ChannelMap.ConnectionChannels.RemoveChannel | src/rmq/rmqamqp/rmqamqp_channelmap.cpp:69-75 | takes an id out of all three maps |
| ChannelMap.CreateInStep | src/rmq/rmqamqp/rmqamqp_channelmap.cpp:36-67 | creating a channel keeps the three maps in step except exactly when ids are used up and id 0 holds a channel of the other kind, and replaces one exactly when ids are used up and id 0 is taken |
| ChannelMap.AlwaysInStepExactly | src/rmq/rmqamqp/rmqamqp_channelmap.cpp:36-75 | over every run of creations and removals the maps are in step throughout if and only if no channel clashes with one of the other kind under id 0 |
| ChannelMap.HeldExactly | src/rmq/rmqamqp/rmqamqp_channelmap.cpp:36-75 | in every run an id is taken by exactly the channel that was put under it last and not removed since |
| ChannelMap.ClashReached | src/rmq/rmqamqp/rmqamqp_channelmap.cpp:36-67 | after 65536 send channels a receive channel clashes with the one under id 0 and the maps are out of step |
| ChannelMap.FewChannelsInStep | src/rmq/rmqamqp/rmqamqp_channelmap.cpp:36-75 | so with fewer channels created than there are positive ids, no id is ever given out twice and the maps are in step |
| Heartbeat.HeartbeatManager.ProcessTick | src/rmq/rmqamqp/rmqamqp_heartbeatmanagerimpl.cpp:103-119 | counters, heartbeat and kill of one tick, with 64-bit wrap-around |
| Heartbeat.KilledExactlyAtLimit | src/rmq/rmqamqp/rmqamqp_heartbeatmanagerimpl.cpp:103-140 | the connection is killed at exactly those ticks at which an independent count of silent ticks reaches 2T + 1 before the first received heartbeat and T + 1 after it |
| Heartbeat.HeartbeatExactly | src/rmq/rmqamqp/rmqamqp_heartbeatmanagerimpl.cpp:103-129 | for T of at least 2 a heartbeat goes out at exactly those ticks at which an independent count of ticks without a send reaches T/2 |
| Heartbeat.EveryWindowSends | src/rmq/rmqamqp/rmqamqp_heartbeatmanagerimpl.cpp:52-129 | for T of at least 2 every window of T/2 ticks of every run contains a send |
| Heartbeat.NoHeartbeatBelowTwo | src/rmq/rmqamqp/rmqamqp_heartbeatmanagerimpl.cpp:52-76 | for smaller T no run of fewer than 2^64 events sends a heartbeat |
| Transformers.ApplyTransformations | src/rmq/rmqa/rmqa_producerimpl.cpp:254-296 | the producer's loop marks each transformation it applied, skips declined ones and stops at a failure |
| Transformers.PackExactly | src/rmq/rmqa/rmqa_producerimpl.cpp:254-296 | the producer gets a packet if and only if it is what the transformers make of the message one after the other, each applied one setting its own free mark |
| Transformers.UnpackTransformations | src/rmq/rmqa/rmqa_consumerimpl.cpp:192-227 | the consumer's loop undoes the marked ones in reverse order |
| Transformers.UnpackExactly | src/rmq/rmqa/rmqa_consumerimpl.cpp:192-227 | the consumer gets a packet if and only if it is what undoing the marked ones, the last first, makes of the message |
| Transformers.TransformRoundTrip | src/rmq/rmqa/rmqa_consumerimpl.cpp:192-227 | for every list of well-behaved transformers with distinct names, what was packed unpacks to the original if and only if the original carries no mark of theirs |

## Left out

- Sockets, resolver, timers, TLS and the event loop: they appear as events of the machines (completions, ticks, timers, steps in any order).
- Logging, metrics, latency tracking, tracing hooks and debug names: no effect on the protocol.
- The method codecs and the contents of field tables and timestamps: short field lists; a method and a table are opaque encoded values here.
- Connection strings, options, mocks and the public wrappers: configuration and delegation.
- The draining future of a receive channel, resetting and opening all channels of a connection, and guid generation: easy members beside those modelled.
- 64-bit overflow of delivery tags and lifetime ids: both are unbounded here.
- Insert times of a send channel's messages: only the store's own operations use them.
- TopologyTransformer and ContentMaker are values inside the objects that own them, so sharing of those two objects is not captured.
- Topology handles that expire, updates of an unsupported kind and deletions that wait for no reply: their error path leaves the update at the head of the queue.
- Requests that the broker refuses: it closes the channel instead of answering, which a run has as a close at any moment.
- TopologyReplay.RedeclaredTopology: says nothing of runs in which open-ok overtakes an update on a channel with nothing but queue bindings, where it is false; `FaithfulExactly` is the exact condition on the topology.
- Producer.NoMessageLostOrConfirmedTwice: assumes that posting to the thread pool succeeds and that the producer is still there when its confirms arrive.
- Connection.NoAttemptAfterClose: the first connection is asked for once, before anything else; the library starts it when it creates the connection.
- Framing.WireRoundTrip: covers headers below 4 GiB and frame limits up to 4 GiB, the range of the length field.
- Guards are assigned by nothing: `operator=` of a guard is private in the library, so no run assigns one.
- Callbacks that call into the library again while they run: callbacks are recorded, not run.
