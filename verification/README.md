# OtterMQ: a verified model of the broker's core

OtterMQ is an AMQP 0-9-1 broker. This project models four parts of it in Dafny and proves what they
are for. `dafny verify dfyconfig.toml` checks everything.

**Delivery bookkeeping.** `ChannelDelivery` is the delivery state of a channel: first as one map of
records, then as the class with the three overlapping indexes that the broker keeps, whose methods are
proved to do to the indexes what the functions do to the map. `VHostState` is a whole virtual host as a
state machine with one step for each handler (declare, delete, purge, publish, consume, cancel, deliver,
get, ack, nack, recover, channel close, connection close, limits); a push evicts as x-max-length says. What
the code leaves open, such as the order of a map iteration, whether a message has expired or whether a frame
was written, is a parameter of the step. `RegistryProofs`, `StructureProofs`, `ConservationProofs`, `HandlerProofs`,
`DeliveryProofs`, `RecoverProofs` and `CloseProofs` show that every step keeps one invariant;
`VHostRuns` carries it to every run. The results say what the handlers do without naming the functions that
model them: `VHostResults` and `TagProofs` over all runs; `QueueResults` for what goes into queues and comes out;
`LimitResults` for deliveries, flow, limits and who may consume; `ReturnResults`, `RecoverResults` and
`MarkResults` for what is settled, recovered and marked; `CancelResults`, `CloseResults` and `GoneResults` for what
a cancel and a close leave, give back and lose. `RecoverExamples` has two runs that show what is special about
recover.
`RequeueOrder` and `HostMethods` are the code of `consumer.go`, `delivery.go`, `ack.go`,
`recover.go`, `queue.go` and `qll.go` that works in place, loops included; `HandlerRuns` runs the handlers on
a channel's delivery state and shows that each is a step of a run.
`DeliveryRace` is the second level: `deliverToConsumer` against cancel, queue delete and channel close,
lock step by lock step; `DeliveryRaceProofs` keeps its invariant, `DeliveryRaceResults` has the
results for every interleaving, `DeliveryRaceProgress` shows that there is no deadlock, and `DeliveryRaceRuns`
what a delivery, a cancel and a close do that meet nobody.

**Wire codec.** `FieldTable` has the wire as trees with a writer and a reader that are inverse to each
other; `FieldValues` adds Go's values on one side and the decoded ones on the other, and the round trip.
`FieldTableCodec` has the buffers, cursors and loops that run. `ContentHeader` and `Frames` do the same
for the properties with their flag word, and for frames, body splitting and the negotiated size;
`FrameCodec` has their imperative code, `WireOctets` writes the octets out, type by type, and `WireReads` says
what the readers make of any octets at all.

**Topic matcher and binding table.** `TopicMatcher` proves the backtracking matcher equal to the meaning
of a pattern as a cut of the routing key into segments. `Bindings` is the binding table with uniqueness
and auto-delete.

**Transactions.** `Transactions` has the buffers of a channel, the dry run, the replay, and the gate
that keeps a failed commit from being run again.

`Collections` and `Bytes` hold what the others need of maps, lists and octets in network byte order.

## Where the code and its documentation, or the protocol, differ

The model follows the code.

- The pattern `*.#` needs two words; by the meaning of its words one is enough
  (`TopicMatcher.StarHashDiffers`).
- A key with an empty word matches only the pattern `#` and a pattern equal to it.
- On a fanout exchange the check for an existing binding compares the key it was made with to the empty
  key, so that binding twice with another key makes two bindings (`Bindings.FanoutTwins`);
  `Bindings.FanoutRebind` and `Bindings.FanoutUnique` say exactly when it does not.
- A decimal directly in a list can be encoded and not decoded (`FieldValues.DecimalInList`):
  `FieldValues.RoundTrip` says exactly when decoding fails.
- `requeueMessage` asks a second time whether the message has expired and pushes it whatever the answer, so
  that a message which expires between the two questions is dead-lettered and back in its queue
  (`RecoverExamples.LateIsTwice`, reached by `RecoverExamples.LateRun`). `RecoverProofs.RecoverAccount` says
  exactly when recover duplicates nothing.
- The mark that makes the next delivery say "redelivered" is kept by message id, one for all copies of a
  message, and any delivery of one takes it away (`RecoverExamples.MarkIsLost`, reached by
  `RecoverExamples.MarkRun`). `RecoverResults.RecoverMarks` says exactly when it is there after a recover, and
  `MarkResults.MarkLost` which steps take it away.
- A Go `int` is encoded as a tag without a value (`FieldValues.IntIsLost`).
- A commit with a mandatory message that cannot be routed executes everything else and then fails.
- `parseFrame` slices two octets off a header payload that may be shorter. `readFrame` delivers such frames
  (`Frames.ShortHeaderPanics`, `Frames.EmptyHeaderPanics`), and `Frames.ReadThenPanic` says exactly which of
  them panic: those with no payload, and those with one octet unless the array has another behind it, which
  Go leaves to `append`.
- `parseFrame` adds 7 to the payload size in 32 bits. The sum never wraps for what `readFrame` delivers
  (`Frames.FrameWhole`); on other octets it lets exactly the frames of `Frames.ShortAccepted` through.

## Model

| member | source | states |
|---|---|---|
| VHostResults.Conservation | internal/core/broker/vhost/ack.go:138-194 | after any run of all handlers, purge, eviction by x-max-length and late expiry in a recover included, what was published is somewhere and what is anywhere was published; over all queues, unacked deliveries and ways of being settled there is one of each copy, and one more for each time a recover duplicated it; a copy that none duplicated is in exactly one place, and at most once in a column of the ledger; no handler loses a message |
| MarkResults.DuplicatedInRun | internal/core/broker/vhost/recover.go:79-89 | what a run duplicates is exactly what expires, in its recovers, between their two questions |
| MarkResults.StepDuplicates | internal/core/broker/vhost/recover.go:79-89 | no other handler duplicates anything |
| VHostRuns.StepSound | internal/core/broker/vhost/recover.go:10-89 | each handler keeps the invariant: registry, links between records and consumers, roots of records in queues, lengths of queues, prefetch limits, account of messages |
| VHostRuns.RunSound | internal/core/broker/vhost/consumer.go:511-602 | so does every run |
| VHostResults.GenerationSafety | internal/core/broker/vhost/ack.go:147-180 | after any run, a queue holds and has dead-lettered only messages published to that very queue, and an unmarked delivery comes from the queue that now has its queue's name |
| VHostResults.MarksTrue | internal/core/broker/vhost/consumer.go:426-453 | after any run, a delivery is marked deleted iff the queue it came from is gone, and one that is not, and needs a consumer, is marked cancelled iff that consumer is no longer active |
| VHostResults.RegistryAgrees | internal/core/broker/vhost/consumer.go:72-193 | after any run, a consumer is in the consumer map iff it is in its queue's list iff it is in its channel's list, once each and nowhere else; it is active; if exclusive it is alone; on an exclusive queue it belongs to the owner |
| VHostResults.ActiveRegistered | internal/core/broker/vhost/consumer.go:264-330 | after any run, no consumer is active that is not registered |
| VHostResults.CountedAreOwn | internal/core/broker/vhost/consumer.go:426-453 | after any run, what counts against a consumer tag was delivered to the consumer now registered under it, from its queue |
| VHostResults.PrefetchBound | internal/core/broker/vhost/delivery.go:265-305 | after any run, a consumer with a positive prefetch has at most that many deliveries counted while the limit is per consumer |
| VHostResults.LengthBound | internal/core/broker/vhost/qll.go:21-70 | after any run, no queue holds more ready messages than its x-max-length or its buffer allows |
| QueueResults.FirstOutFirst | internal/core/broker/vhost/queue.go:592-727 | over any run: while a message waits in a queue, all that stands behind it waits too, in the same order and right behind it, and what comes later stands behind that; so no handler lets a message leave before an older one |
| QueueResults.TakesOldest | internal/core/broker/vhost/queue.go:185-208 | the delivery loop takes the oldest message, and one that has expired goes to the dead-letter path |
| QueueResults.GetsOldest | internal/core/broker/basic.go:52-127 | basic.get takes the oldest message, expired, settled at once or tracked under the next tag; none from an empty queue or from another connection's exclusive one |
| QueueResults.GivesBack | internal/core/broker/vhost/queue.go:210-228 | the message in the loop's hand goes back to the end of its queue, unmarked |
| QueueResults.PublishExactly | internal/core/broker/vhost/message.go:131-144 | a publish gives each queue it is routed to its own unmarked copies, in order and within its length, and no other queue any |
| QueueResults.DeclareExactly | internal/core/broker/vhost/queue.go:387-500 | a declare makes an empty queue with the properties asked for, owned by its connection if exclusive, under an identity that no queue and no message has had; a name that is taken keeps its queue |
| LimitResults.AttemptExactly | internal/core/broker/vhost/delivery.go:99-201 | an attempt delivers iff the consumer is active, flow is active and neither the limit on the whole channel nor, if there is none, its own is reached; then the message is tracked under the next tag or settled at once, or after a failed send the consumer is removed; otherwise nothing changes |
| LimitResults.CalmRun | internal/core/broker/vhost/delivery.go:265-305 | over any run without basic.get, recover or a change of limits on the channel: with flow paused it gets no delivery, and a limit on all of its deliveries is never exceeded |
| LimitResults.QosIs | internal/core/broker/vhost/ack.go:218-246 | after any run the limits and the flow of a channel are those that its basic.qos and channel.flow have set, in their order, since its state was last dropped |
| LimitResults.ConsumeExactly | internal/core/broker/vhost/consumer.go:72-193 | after any run, a consume is accepted iff the queue exists and is not another connection's, the tag is free, no consumer of the queue is exclusive and an exclusive one finds none; then exactly that consumer is added, with the limit that basic.qos last set for new consumers, or none once there is one on the whole channel |
| RecoverProofs.RecoverSound | internal/core/broker/vhost/recover.go:39-73 | recover, also with requeue=false and without the throttle, keeps the invariant with its prefetch limits and the account of messages, duplicates counted |
| RecoverProofs.RecoverAccount | internal/core/broker/vhost/recover.go:79-89 | recover keeps the number of each message if and only if none that it requeues expires between its two questions; otherwise there are exactly those messages too many, each dead-lettered and pushed |
| RecoverExamples.LateIsTwice | internal/core/broker/vhost/recover.go:79-89 | a message fetched with basic.get and recovered with requeue, which expires between the questions, ends in its queue and with its dead letters |
| RecoverExamples.LateRun | internal/core/broker/vhost/recover.go:28-38 | and a run from the empty host gets there |
| RecoverProofs.RecoverEachApart | internal/core/broker/vhost/recover.go:79-89 | the second answer changes nothing but what has expired, what is duplicated and what was dead-lettered |
| RecoverProofs.RoomTaken | internal/core/broker/vhost/recover.go:39-73 | a redelivery takes exactly the room that the taken record left |
| RecoverProofs.FoundOwner | internal/core/broker/vhost/recover.go:39-60 | the consumer that recover finds by tag is the one the record was delivered to |
| DeliveryProofs.DeliverStructure | internal/core/broker/vhost/delivery.go:99-201 | a delivery guarded by the throttle keeps the invariant, sent or not |
| DeliveryProofs.AttemptSound | internal/core/broker/vhost/queue.go:229-350 | an attempt of the delivery loop, with the removal of the consumer when it fails, keeps the invariant and the account |
| DeliveryProofs.GetSound | internal/core/broker/basic.go:52-127 | so does basic.get, expired, with and without acks |
| DeliveryProofs.PublishSound | internal/core/broker/vhost/message.go:131-144 | so does publishing one message to any queues, where x-max-length evicts and a full buffer drops it |
| DeliveryProofs.PurgeSound | internal/core/broker/vhost/queue.go:733-803 | so does purging a queue, whichever of its messages have expired |
| HandlerProofs.PushSound | internal/core/broker/vhost/queue.go:592-677 | so does a push, with its evictions: they leave room for one more and hand over only messages of the queue itself |
| DeliveryProofs.CancelSound | internal/core/broker/vhost/consumer.go:264-303 | so does cancelling, which removes exactly the consumer, with the auto-delete of its queue |
| DeliveryProofs.DeleteQueueSound | internal/core/broker/vhost/queue.go:541-581 | so does deleting a queue, which removes exactly its consumers |
| StructureProofs.DeleteQueueStructure | internal/core/broker/vhost/consumer.go:310-330 | after the deletion every delivery of the queue is marked and every other link still holds |
| StructureProofs.CancelInTwoSteps | internal/core/broker/vhost/consumer.go:264-303 | deleting the queue while the consumer is still in the channel index has the effect of removing the consumer first |
| StructureProofs.NewConsumerBounded | internal/core/broker/vhost/consumer.go:75-81 | a new consumer starts with nothing counted, even under a tag used before |
| RegistryProofs.RegisterOk | internal/core/broker/vhost/consumer.go:72-193 | registering keeps the registry invariant and adds exactly the consumer |
| RegistryProofs.RemoveQueueConsumersOk | internal/core/broker/vhost/consumer.go:310-330 | removing a queue's consumers keeps it and removes exactly them |
| HandlerProofs.AckSound | internal/core/broker/vhost/ack.go:23-47 | an ack keeps the invariant and moves its records to the acked |
| HandlerProofs.NackSound | internal/core/broker/vhost/ack.go:138-194 | a nack keeps the invariant and the account, deliveries of deleted queues included |
| ConservationProofs.DropChannelTotal | internal/core/broker/vhost/consumer.go:537-563 | taking a channel's state moves all of its messages: to the work, or to the ones that are gone |
| CloseProofs.NothingStranded | internal/core/broker/vhost/consumer.go:544-555 | no live delivery is without its queue when a channel is closed |
| CloseProofs.CancelChannelSound | internal/core/broker/vhost/consumer.go:609-625 | cancelling a channel's consumers keeps the invariant and removes exactly those of that connection's channel |
| CloseProofs.CloseChannelSound | internal/core/broker/vhost/consumer.go:511-532 | closing a channel keeps the invariant and the account, removes exactly its consumers and its state |
| CloseProofs.CloseConnectionSound | internal/core/broker/vhost/consumer.go:660-716 | closing a connection keeps the invariant and the account, also for queues deleted while their work is pending |
| CloseProofs.CloseConnectionMembers | internal/core/broker/vhost/consumer.go:660-716 | closing a connection removes its consumers and keeps every other connection's |
| CloseProofs.CloseConnectionClean | internal/core/broker/vhost/consumer.go:630-716 | it leaves no delivery state, no index entry and no owned queue of the connection, and keeps every other channel |
| CancelResults.CancelKeepsQueues | internal/core/broker/vhost/consumer.go:456-475 | a cancel leaves every queue as it is, but for one that is declared auto-delete and had no other consumer; exactly that one goes |
| CancelResults.ChannelKeepsQueues | internal/core/broker/vhost/consumer.go:609-625 | when a channel's consumers are cancelled a queue goes iff it is declared auto-delete and its consumers, at least one, were all of the channel; every other stays as it is |
| CloseResults.CloseConnectionReturns | internal/core/broker/vhost/consumer.go:660-716 | closing a connection, queue by queue: one goes iff it is exclusive to the connection, or auto-delete and consumed by it alone; every other holds what it held and then, within its length, exactly the live deliveries from it on the connection's channels, each once, in strict tag order within a channel, marked redelivered |
| CloseResults.CloseConnectionElse | internal/core/broker/vhost/consumer.go:630-716 | exactly those messages are newly marked redelivered; the channels of other connections stay, and on them exactly the deliveries of deleted queues are marked so |
| GoneResults.CloseConnectionGone | internal/core/broker/vhost/consumer.go:537-563 | exactly what the deleted queues held, and what the connection's channels held of deleted queues, is booked as gone; nothing else of the ledger changes but what makes room in a queue |
| CloseResults.CloseChannelReturns | internal/core/broker/vhost/consumer.go:511-602 | the same for the close of one channel: which queues go, and what each of the others holds afterwards |
| ReturnResults.CloseReturns | internal/core/broker/vhost/consumer.go:511-602 | closing a channel gives each queue, after what it holds and within its length, exactly the channel's live deliveries from it, once, in strictly increasing tag order, marked redelivered |
| ReturnResults.ReturnedExactly | internal/core/broker/vhost/consumer.go:537-588 | the work for a queue is exactly the channel's live deliveries from it, in order |
| ReturnResults.AckOutcome | internal/core/broker/vhost/ack.go:23-47 | an ack counts exactly the settled tags' messages as acked and changes nothing but that and the channel's records |
| ReturnResults.NackReturns | internal/core/broker/vhost/ack.go:147-180 | a nack with requeue gives each queue, in order and within its length, the unexpired messages that came from it, marked redelivered |
| ReturnResults.NackRejects | internal/core/broker/vhost/ack.go:160-180 | a nack without requeue changes no queue and hands each live delivery to the dead-letter path of its own queue |
| ReturnResults.NackBooks | internal/core/broker/vhost/ack.go:138-194 | a nack books the deliveries of deleted queues as gone; with requeue it books the expired ones as expired and rejects nothing; without, it looks at no message's age |
| ReturnResults.RefillOne | internal/core/broker/vhost/queue.go:592-677 | pushing messages one by one, with eviction before each, keeps the newest x-max-length ones if the buffer can hold as many, and else those that fit the buffer |
| ReturnResults.PushEvicts | internal/core/broker/vhost/qll.go:21-70 | a push to a queue at its length evicts its oldest message, to its own dead-letter path, and no other push evicts or drops but one to a full buffer |
| ReturnResults.PurgeExactly | internal/core/broker/vhost/queue.go:733-803 | a purge leaves the queue empty, settles each message as expired and dead-lettered or as purged, and changes nothing else; one of a missing queue, or of another connection's exclusive queue, changes nothing |
| RecoverResults.RecoverOutcome | internal/core/broker/vhost/recover.go:10-89 | recover in any reachable state and any mixture of records: each queue gets in order exactly the messages from it that are neither redelivered nor expired, the channel holds exactly the redelivered records under new tags, the expired and the late ones are booked as expired, and the expired ones are dead-lettered by their own queue |
| RecoverResults.RecoverRedelivers | internal/core/broker/vhost/recover.go:39-73 | every record to redeliver is on the channel afterwards, unchanged but for a new tag |
| RecoverResults.RecoverChannel | internal/core/broker/vhost/recover.go:39-73 | and every new record of the channel is one of those |
| RecoverResults.RecoverQueues | internal/core/broker/vhost/recover.go:28-89 | the exact contents of a queue after recover |
| RecoverResults.TargetOf | internal/core/broker/vhost/recover.go:39-60 | a redelivery goes to the consumer that had the delivery, on the same channel and queue, and needs an ack |
| RecoverResults.FateExactly | internal/core/broker/vhost/recover.go:28-77 | in any reachable state: a live delivery that has expired is dead-lettered; with requeue, from basic.get, or if its consumer is no longer active, it goes back to its queue; otherwise it is sent to that very consumer, and goes back if the send fails |
| RecoverResults.RecoverRest | internal/core/broker/vhost/recover.go:10-27 | exactly the deliveries of deleted queues are booked as gone, and nothing as acked, rejected or purged |
| RecoverResults.RecoverMarks | internal/core/broker/vhost/recover.go:91-97 | after recover a message is marked redelivered if and only if some copy of it goes back and none is redelivered after that one, or it was marked before and no copy is redelivered |
| RecoverExamples.MarkIsLost | internal/core/broker/vhost/delivery.go:196-199 | a copy that recover gives back to its queue before it redelivers another copy is in its queue without a mark |
| RecoverExamples.MarkRun | internal/core/broker/vhost/recover.go:39-73 | and a run from the empty host, with two queues, a basic.get and a consumer, gets there |
| MarkResults.MarkLost | internal/core/broker/vhost/delivery.go:196-199 | a step takes the mark of a message away if and only if it is an attempt that sends a copy, or a recover after which, as above, it is not marked |
| RecoverResults.RecoverRequeues | internal/core/broker/vhost/recover.go:28-38 | recover with requeue does what a nack with requeue of the same records does |
| TagProofs.TagsNeverReused | internal/core/broker/vhost/delivery.go:126-127 | while a channel's state lasts, over any run its last tag never falls, a used tag that is not outstanding never is again and fails to settle, and a tag's message never changes |
| TagProofs.StepAdvances | internal/core/broker/vhost/delivery.go:315-342 | one step adds only records with new tags and changes old ones only in their marks |
| ChannelDelivery.Settles | internal/core/broker/vhost/ack.go:49-105 | an ack or nack settles exactly the tag, the tags up to it, or all for tag 0 with multiple; None exactly for a tag that is not outstanding |
| ChannelDelivery.UntrackConsumerIndex | internal/core/broker/vhost/ack.go:109-128 | dropping a released record restores the consumer index, without empty inner maps |
| ChannelDelivery.TrackIndexes | internal/core/broker/vhost/delivery.go:126-149 | a new delivery is listed by tag and in the index of its source, and nothing else changes |
| ChannelDelivery.ChannelDeliveryState.constructor | internal/core/broker/vhost/delivery.go:203-218 | a new state is empty, with flow active |
| ChannelDelivery.ChannelDeliveryState.CountConsumer | internal/core/broker/vhost/delivery.go:278-284 | the size of the consumer's inner map is the number of its attached deliveries |
| ChannelDelivery.ChannelDeliveryState.TrackConsumerDelivery | internal/core/broker/vhost/delivery.go:126-149 | tracks the delivery in both indexes under the next tag |
| ChannelDelivery.ChannelDeliveryState.TrackDelivery | internal/core/broker/vhost/delivery.go:315-342 | tracks a basic.get delivery, or only uses a tag without acks |
| ChannelDelivery.ChannelDeliveryState.DeleteUnackedDelivery | internal/core/broker/vhost/ack.go:109-112 | the record leaves every index |
| ChannelDelivery.ChannelDeliveryState.UntrackDeliverySource | internal/core/broker/vhost/ack.go:117-128 | restores the index of the record's source |
| ChannelDelivery.ChannelDeliveryState.PopUnackedRecords | internal/core/broker/vhost/ack.go:49-105 | removes and returns exactly the settled records, each once; on an error nothing changes |
| ChannelDelivery.ChannelDeliveryState.DetachConsumerDeliveries | internal/core/broker/vhost/consumer.go:446-453 | marks the consumer's attached deliveries and drops their inner map |
| ChannelDelivery.ChannelDeliveryState.MarkQueueDeleted | internal/core/broker/vhost/consumer.go:426-438 | marks one record and drops it from the index of its source |
| ChannelDelivery.ChannelDeliveryState.DetachQueueDeliveries | internal/core/broker/vhost/consumer.go:426-438 | marks every delivery of the queue and keeps the three indexes consistent |
| ChannelDelivery.ChannelDeliveryState.FetchUnackedMessages | internal/core/broker/vhost/consumer.go:594-602 | lists each delivery not marked queueDeleted exactly once |
| ChannelDelivery.ChannelDeliveryState.TakeForRecover | internal/core/broker/vhost/recover.go:20-27 | lists them and empties the indexes but not the tag counter |
| RequeueOrder.GroupByQueue | internal/core/broker/vhost/consumer.go:537-563 | one item for each existing queue named by a record, with its records in order |
| RequeueOrder.MergeByQueue | internal/core/broker/vhost/consumer.go:569-582 | one item for each queue object with all of its records |
| RequeueOrder.InDeliveryOrder | internal/core/broker/vhost/consumer.go:569-588 | merged and each item sorted by tag |
| RequeueOrder.SortStrict | internal/core/broker/vhost/consumer.go:583-587 | sorting records with different tags is strictly ordered and loses and repeats nothing |
| RequeueOrder.OrderedIsWork | internal/core/broker/vhost/consumer.go:537-588 | grouping, merging and sorting make a partition of the live deliveries, each once |
| RequeueOrder.TakeChannelDeliveries | internal/core/broker/vhost/consumer.go:523-531 | the whole chain from the delivery state gives the work that the close requeues |
| HandlerRuns.AckOn | internal/core/broker/vhost/ack.go:23-105 | an ack on a channel's delivery state: what popUnackedRecords returns makes a step that runs allow, and host and state agree afterwards |
| HandlerRuns.NackOn | internal/core/broker/vhost/ack.go:130-194 | the same for nack and reject |
| HandlerRuns.RecoverOn | internal/core/broker/vhost/recover.go:10-77 | the same for recover, with what it tracks again, late expiries included |
| HandlerRuns.CancelOn | internal/core/broker/vhost/consumer.go:264-303 | a cancel on host and state: the consumer's deliveries, and those of a queue it auto-deletes, are detached on both |
| HandlerRuns.ReleaseOn | internal/core/broker/vhost/consumer.go:511-602 | the same for a channel close: the cancels detach on the state too, and what takeChannelDeliveriesLocked and inDeliveryOrder make of it is the work that the step requeues |
| HandlerRuns.AlwaysPossible | internal/core/broker/vhost/consumer.go:660-716 | in every state that satisfies the invariant every request has an allowed step that differs from it only in orders, connection close included, so that runs leave none out |
| HostMethods.Host.RemoveConsumer | internal/core/broker/vhost/consumer.go:275-281 | the loop removes the first occurrence and keeps the order |
| HostMethods.Host.RegisterConsumer | internal/core/broker/vhost/consumer.go:72-193 | which error or tag it answers, in the order of its checks; does what the state machine's consume does, and an error changes nothing |
| HostMethods.Host.RemoveQueueConsumersLocked | internal/core/broker/vhost/consumer.go:310-330 | does what the state machine does, and returns the removed consumers |
| HostMethods.Host.DetachQueueDeliveriesLocked | internal/core/broker/vhost/consumer.go:426-438 | marks the queue's deliveries on every channel |
| HostMethods.Host.DeleteQueueUnlocked | internal/core/broker/vhost/queue.go:541-581 | deletes the queue, then its consumers, then detaches its deliveries |
| HostMethods.Host.CheckAutoDeleteQueueUnlocked | internal/core/broker/vhost/consumer.go:456-475 | deletes the queue exactly when it exists, is declared auto-delete and has no consumers |
| HostMethods.Host.CancelConsumerLocked | internal/core/broker/vhost/consumer.go:264-303 | does what the state machine's cancel does: the queue stays as it is unless it is declared auto-delete and the consumer was its only one |
| HostMethods.Host.CancelConsumer | internal/core/broker/vhost/consumer.go:217-235 | cancels the consumer under the key, or reports that there is none |
| HostMethods.Host.CancelChannelConsumersLocked | internal/core/broker/vhost/consumer.go:609-625 | cancels the channel's registered consumers over a copy of the list |
| HostMethods.Host.GetOrCreateChannelDelivery | internal/core/broker/vhost/delivery.go:203-218 | the channel's state, made empty if there is none |
| HostMethods.Host.ShouldThrottle | internal/core/broker/vhost/delivery.go:265-305 | true exactly when flow is paused, or the limit on the whole channel is reached, or without one the consumer's own |
| HostMethods.Host.DeliverToConsumer | internal/core/broker/vhost/delivery.go:99-201 | an inactive consumer is refused and nothing changes; otherwise a tag is used, and after a failed send nothing else has changed |
| HostMethods.Host.HandleBasicAck | internal/core/broker/vhost/ack.go:23-47 | does what the state machine's ack does; an error exactly for a tag that is not outstanding |
| HostMethods.Host.HandleBasicNack | internal/core/broker/vhost/ack.go:138-194 | the loops do what the state machine's nack does |
| HostMethods.Host.HandleBasicQos | internal/core/broker/vhost/ack.go:218-246 | sets the channel's limits |
| HostMethods.Host.HandleBasicRecover | internal/core/broker/vhost/recover.go:10-77 | the loop does what the state machine's recover does |
| HostMethods.Host.RequeueRecord | internal/core/broker/vhost/recover.go:79-89 | asks again whether the message has expired, and pushes it back marked whatever the answer, if its queue exists |
| HostMethods.Host.ReleaseChannelDeliveries | internal/core/broker/vhost/consumer.go:511-532 | does what the state machine's channel close does |
| HostMethods.Host.CleanupConnection | internal/core/broker/vhost/consumer.go:660-716 | its loops, in any order, do what the state machine's connection close does: which queues stay, and what goes back to each, outright |
| HostMethods.Host.Requeue | internal/core/broker/vhost/consumer.go:248-258 | pushes back each item's records in order, marked |
| HostMethods.Host.EnforceMaxLength | internal/core/broker/vhost/qll.go:21-70 | pops the excess, oldest first, and then hands it to the dead-letter path; nothing without a limit or within it |
| HostMethods.Host.PushMessage | internal/core/broker/vhost/queue.go:592-677 | makes room, then appends, or drops when the buffer is full |
| HostMethods.Host.PurgeQueue | internal/core/broker/vhost/queue.go:733-803 | the loop empties the queue and counts what it held; an unknown or foreign queue is an error that changes nothing |
| DeliveryRaceProofs.StepInv | internal/core/broker/vhost/delivery.go:107-155 | every event of every thread keeps the lock-level invariant |
| DeliveryRaceResults.NothingInherited | internal/core/broker/vhost/delivery.go:109-149 | in every interleaving, whenever nobody holds the host's mu, a delivery counted against a tag is of the consumer registered under it, and a consumer delivery of a deleted queue is marked |
| DeliveryRaceResults.DetachedByTheSame | internal/core/broker/vhost/consumer.go:264-271 | at any moment a counted delivery is of an active consumer, or the same cancel or delete has yet to detach it |
| DeliveryRaceResults.NoLateDelivery | internal/core/broker/vhost/consumer.go:511-532 | after a channel's close has returned, no frame is ever written for a consumer registered when it started |
| DeliveryRaceResults.CancelIsLast | internal/core/broker/vhost/consumer.go:382-410 | in every interleaving, no basic.deliver to a consumer follows the basic.cancel that the server writes for it, with its sendMu held, once it is inactive |
| DeliveryRaceResults.CloseTakesAll | internal/core/broker/vhost/consumer.go:523-531 | each delivery written to such a consumer, needing an ack and not settled, is in the state that the close took |
| DeliveryRaceProgress.NoDeadlock | internal/core/broker/vhost/delivery.go:107-155 | in every interleaving, as long as a delivery, a handler or a close is under way, one of them can take its next step: the waits for sendMu, the host's mu, the mu of a delivery state and the barrier of a close never go round |
| DeliveryRaceRuns.Delivers | internal/core/broker/vhost/delivery.go:107-155 | a delivery to an active consumer that meets nobody can take all its steps, and leaves its frame on the wire and, if it needs an ack, its record under the next tag |
| DeliveryRaceRuns.Fails | internal/core/broker/vhost/delivery.go:155-195 | when its send fails, nothing is on the wire and of the delivery only the used tag is left |
| DeliveryRaceRuns.Refuses | internal/core/broker/vhost/delivery.go:107-117 | for an inactive consumer it ends at the first check, with nothing done |
| DeliveryRaceRuns.Cancels | internal/core/broker/vhost/consumer.go:264-303 | a cancel that meets nobody can take all its steps; the consumer is neither active nor registered then, and its deliveries are detached |
| DeliveryRaceRuns.Closes | internal/core/broker/vhost/consumer.go:511-532 | so can the close of a channel with one consumer, which is cancelled; all the deliveries of the channel are taken, and it has no delivery state any more |
| DeliveryRaceProofs.TrackRecords | internal/core/broker/vhost/delivery.go:118-149 | the second check of Active under ch.mu is what makes the tracked record one that is active or still to be detached |
| DeliveryRaceProofs.PassedClosing | internal/core/broker/vhost/consumer.go:517-522 | once sendMu of an inactive consumer was free, it has nothing more to write |
| FieldTable.AcceptsExactly | internal/core/amqp/decode.go:49-233 | octets are read as a list of entries iff the entries are well formed and are written as those octets |
| FieldTable.ReadRender | internal/core/amqp/decode.go:49-386 | reading undoes writing for every tree of any depth, and fails exactly on a decimal directly in an array |
| FieldTable.RenderRead | internal/core/amqp/decode.go:49-386 | writing undoes reading: whatever is accepted is the writing of the tree it was read as |
| FieldValues.DecodeExactly | internal/core/amqp/decode.go:49-233 | decoding succeeds iff the octets are a list of well-formed entries; each name gets the value of its last entry, and no other name is there |
| FieldValues.RoundTrip | internal/core/amqp/encode.go:26-176 | decoding an encoded map, in any iteration order, gives it back in normal form, and fails exactly when a decimal is directly in a list |
| FieldValues.DecimalInList | internal/core/amqp/decode.go:236-386 | the value that fails: any decimal as the only element of a list is encoded and not decoded, while directly in the map it comes back |
| FieldValues.TreeMeans | internal/core/amqp/encode.go:26-145 | what is written for a value means its normal form, at every depth |
| FieldValues.IntIsLost | internal/core/amqp/encode.go:52-54 | the same octets are written for two maps that differ only in Go ints, at any depth, or both are an error |
| FieldValues.IntsLost | internal/core/amqp/encode.go:26-145 | values that differ only in their ints have the same tree |
| FieldTableCodec.Reader.ReadN | internal/core/amqp/decode.go:21-30 | the next n octets, or an error that moves nothing |
| FieldTableCodec.Reader.SliceN | internal/core/amqp/decode.go:36-46 | the next n octets, cut out of the reader's own slice |
| FieldTableCodec.DecodeTable | internal/core/amqp/decode.go:49-233 | the loop ends on every input and computes the decoding of the whole slice |
| FieldTableCodec.DecodeArray | internal/core/amqp/decode.go:236-386 | the same for arrays |
| FieldTableCodec.DecodeValue | internal/core/amqp/decode.go:71-229 | one value and the cursor after it |
| FieldTableCodec.DecodeShortStr | internal/core/amqp/decode.go:417-430 | a length octet and as many octets |
| FieldTableCodec.DecodeLong | internal/core/amqp/decode.go:398-415 | a length of four octets and as many octets |
| FieldTableCodec.EncodeTable | internal/core/amqp/encode.go:148-159 | the loop writes the entries in the order of iteration, or fails on a long key |
| FieldTableCodec.EncodeArray | internal/core/amqp/encode.go:161-171 | the same for lists |
| FieldTableCodec.EncodeValueToBuffer | internal/core/amqp/encode.go:26-145 | appends the octets of the value, or fails exactly on a key of more than 255 octets |
| FieldTableCodec.EncodeShortStr | internal/core/amqp/encode.go:178-185 | an error, and nothing written, exactly above 255 octets |
| Bytes.BEAt | internal/core/amqp/encode.go:26-145 | octet i of a number in w octets counts multiples of the (w - 1 - i)th power of 256: the most significant comes first |
| Bytes.UnBEFirst | internal/core/amqp/decode.go:71-229 | and so it is read: the first octet counts most |
| WireOctets.UnsignedOctets | internal/core/amqp/encode.go:40-74 | tag and octets of every unsigned and floating type |
| WireOctets.Int8Octets | internal/core/amqp/encode.go:36-38 | tag and octet of an int8, in two's complement |
| WireOctets.Int16Octets | internal/core/amqp/encode.go:44-46 | of an int16 |
| WireOctets.Int32Octets | internal/core/amqp/encode.go:52-54 | of an int32 |
| WireOctets.Int64Octets | internal/core/amqp/encode.go:60-62 | of an int64 |
| WireOctets.TagOctets | internal/core/amqp/encode.go:28-34 | of a bool, and the tags of a void and of a Go int, which has no more |
| WireOctets.DecimalOctets | internal/core/amqp/encode.go:78-81 | tag, scale and four octets of a decimal |
| WireOctets.TextOctets | internal/core/amqp/encode.go:83-85 | tag, length in four octets and octets of a string |
| WireOctets.TimeOctets | internal/core/amqp/encode.go:124-127 | tag and eight octets of a time, its seconds |
| WireOctets.MapOctets | internal/core/amqp/encode.go:87-95 | tag, length in four octets and entries of a map |
| WireOctets.ListOctets | internal/core/amqp/encode.go:130-137 | tag, length in four octets and items of a list |
| WireOctets.StringsOctets | internal/core/amqp/encode.go:110-122 | the same for a list of strings |
| WireOctets.EntryOctets | internal/core/amqp/encode.go:148-159 | an entry: the length of its name in one octet, the name, the value |
| WireOctets.TableOctets | internal/core/amqp/encode.go:148-159 | a whole table with a bool, a negative number and a list, octet by octet |
| ContentHeader.PropertiesRoundTrip | internal/core/amqp/basic.go:268-383 | properties read back from their flag word and octets are the ones written, absent ones included, and are refused exactly when mode, priority or headers are not acceptable |
| ContentHeader.FlagSays | internal/core/amqp/basic.go:359-383 | bit 15 - i of the flag word says whether property i is there |
| ContentHeader.PieceRead | internal/core/amqp/framing.go:10-128 | one property is read back, and refused exactly when it is not acceptable |
| WireOctets.FlagBits | internal/core/amqp/basic.go:268-357 | the flag word: which bit stands for which of the fourteen properties |
| WireOctets.PieceOrder | internal/core/amqp/basic.go:268-357 | the properties follow each other in this order |
| WireOctets.TextPieces | internal/core/amqp/basic.go:268-357 | which of them is which text, as a length octet and the text, or nothing |
| WireOctets.FixedPieces | internal/core/amqp/basic.go:268-357 | headers with their length, delivery mode, priority and time |
| FrameCodec.EncodeBasicProperties | internal/core/amqp/basic.go:268-357 | writes the present properties in order with their flags, or fails exactly when one cannot be written |
| FrameCodec.DecodeBasicHeaderFlags | internal/core/amqp/basic.go:359-383 | the flags that are set, in order |
| FrameCodec.CreateContentPropertiesTable | internal/core/amqp/framing.go:10-128 | the loop over the flags reads the properties in order, or fails |
| FrameCodec.ParseBasicHeaderFrom | internal/core/amqp/basic.go:390-430 | class, weight 0, body size, flags and properties, read with one cursor |
| Frames.HeaderRoundTrip | internal/core/amqp/message.go:88-111 | parsing the frame that was made gives back the body size and the properties, and fails exactly when they are not acceptable |
| Frames.Negotiated | internal/core/amqp/tuning.go:31-98 | the offer is what is configured; a client is refused exactly when its frame-max is outside the range; what is agreed is within both offers, and the most that is: frame-max, at least 4096, channel-max, never 0, and heartbeat |
| WireOctets.FrameOctets | internal/core/amqp/message.go:88-139 | a frame: type, channel in two octets, length in four, payload, end octet; the types and limits are the protocol's |
| WireOctets.HeaderOctets | internal/core/amqp/message.go:88-111 | the payload of a content header: class, weight 0, body size in eight octets, flags in two, properties |
| WireOctets.HelloWritten | internal/core/amqp/message.go:120-139 | one body frame, octet by octet, as it is written |
| WireOctets.HelloRead | internal/core/amqp/handshake.go:360-401 | the same frame as it is read |
| WireOctets.HelloParsed | internal/core/amqp/parsers.go:10-38 | and parsed |
| Frames.BodyRoundTrip | internal/core/amqp/message.go:120-139 | for every content and every negotiable frame size, every body frame fits it, is accepted and parsed, and together they carry the content |
| Frames.FullFrames | internal/core/amqp/message.go:120-139 | what fits goes into one frame, and of anything longer the first frame is full and the rest is framed likewise |
| Frames.BodySize | internal/core/amqp/message.go:130-131 | the frames fill exactly the buffer allocated for them |
| Frames.FrameRead | internal/core/amqp/handshake.go:360-401 | a frame is read off the connection exactly when it fits, and what follows stays |
| WireReads.FrameReadExactly | internal/core/amqp/handshake.go:360-401 | on any octets: a frame is delivered iff the stream begins with it and the end octet, it is as long as its header says and within the limit |
| WireReads.ParsedByType | internal/core/amqp/parsers.go:10-51 | what a delivered frame of each type is parsed to; any other type, and a header of any class but basic, is an error |
| WireReads.HeaderParsedExactly | internal/core/amqp/basic.go:390-430 | on any octets: a content header is accepted iff it has fourteen octets, weight 0 and the properties its flags tell, and says what they say |
| WireReads.FlaggedExactly | internal/core/amqp/basic.go:359-388 | for any flag word: bit 15 - i tells property i, they come in that order, and the last two bits tell nothing |
| WireReads.PropReadExactly | internal/core/amqp/framing.go:10-128 | on any octets: a property is read iff they begin with a value of it; a delivery mode of 0 counts as 1, one above 2 and a priority above 9 are refused |
| WireReads.OctetsMean | internal/core/amqp/decode.go:77-229 | octets that the encoder does not write: any but 0 is true, and a short string is read like a long one |
| Frames.ShortHeaderPanics | internal/core/amqp/parsers.go:199-206 | every header frame with a payload of less than two octets is delivered by readFrame, whatever follows it, and panics in parseFrame when its slice fills its array |
| Frames.EmptyHeaderPanics | internal/core/amqp/handshake.go:360-401 | the shortest such stream, octet by octet |
| Frames.ReadThenPanic | internal/core/amqp/parsers.go:10-38 | what readFrame delivers makes parseFrame panic iff it is a header frame with no payload, or with one octet and none behind it in the array |
| Frames.PanicExactly | internal/core/amqp/parsers.go:199-206 | the same for arbitrary octets: a header frame, not shorter than it says, with less than two octets from its payload to the end of its array |
| Frames.SpareMatters | internal/core/amqp/parsers.go:206 | what lies behind a frame in its array changes only that panic, into an error |
| Frames.FrameWhole | internal/core/amqp/handshake.go:378-400 | a delivered frame is as long as its header says, so that the 32-bit sum of parseFrame does not wrap |
| Frames.ShortAccepted | internal/core/amqp/parsers.go:17-19 | octets shorter than their header says are accepted iff they are a method or heartbeat frame and the size makes the sum wrap |
| Frames.BodyParsed | internal/core/amqp/parsers.go:10-38 | a body frame is parsed to its payload |
| FrameCodec.CreateBodyFrame | internal/core/amqp/message.go:120-139 | the loop over chunks writes the body frames, and their size is the capacity |
| FrameCodec.ReadFrameFrom | internal/core/amqp/handshake.go:360-401 | reads one frame; too large a size is refused with the header alone read |
| TopicMatcher.MatchTopic | internal/core/broker/vhost/exchange.go:302-321 | matches exactly: "#", an equal key, or no empty word and the meaning of the pattern, but two words for "*.#" |
| TopicMatcher.MatchWords | internal/core/broker/vhost/exchange.go:343-372 | the backtracking ends and computes the match of what is left of both lists |
| TopicMatcher.MatchExact | internal/core/broker/vhost/exchange.go:343-372 | the algorithm accepts iff the words can be cut into consecutive segments, one for each pattern word |
| TopicMatcher.StarHashDiffers | internal/core/broker/vhost/exchange.go:317-319 | the rule for "*.#" differs from the meaning exactly for keys of one word |
| TopicMatcher.SplitJoins | internal/core/broker/vhost/exchange.go:310-311 | the words hold no dot and joined give the key |
| Bindings.BindKeeps | internal/core/broker/vhost/binding.go:29-99 | binding keeps the table: no empty list, no two bindings under a key with the same queue and arguments |
| Bindings.UnbindKeeps | internal/core/broker/vhost/binding.go:185-223 | so does unbinding |
| Bindings.RebindChangesNothing | internal/core/broker/vhost/binding.go:52-60 | binding again changes nothing, if and only if the check found a binding the first time or the arguments match themselves |
| Bindings.BindChanges | internal/core/broker/vhost/binding.go:52-80 | binding leaves the exchange as it was iff the check for an existing binding passes |
| Bindings.SelfMatch | internal/core/broker/vhost/binding.go:225-239 | arguments match the same ones of another request iff they have JSON or every value equals itself |
| Bindings.MatchExactly | internal/core/broker/vhost/binding.go:225-239 | when the arguments of two requests match: as many, and all with the key and value of their counterpart, which equals itself, or all with the same JSON; in either order |
| Bindings.FanoutRebind | internal/core/broker/vhost/binding.go:63-72 | on fanout, binding again changes nothing iff the check found a binding made with the empty key the first time, or the new one was made with the empty key and its arguments match themselves |
| Bindings.FanoutTwins | internal/core/broker/vhost/binding.go:63-72 | an example of two equal bindings on fanout |
| Bindings.FanoutUnique | internal/core/broker/vhost/binding.go:63-72 | a fanout list without equal bindings stays so under a bind iff the check finds one made with the empty key, or there is none with that queue and arguments |
| Bindings.FanoutEmptyKeys | internal/core/broker/vhost/binding.go:63-72 | a fanout list whose bindings were all made with the empty key has no equal ones after any bind, and stays such a list iff the new key is empty or nothing is added |
| Bindings.UnbindEmptyKeys | internal/core/broker/vhost/binding.go:185-212 | and under any unbind |
| Bindings.UnbindRemovesOne | internal/core/broker/vhost/binding.go:192-212 | unbinding removes exactly one binding, the first that fits, and keeps the order of the rest and every other list |
| Bindings.UnbindFails | internal/core/broker/vhost/binding.go:185-207 | it is an error exactly when there is none to remove |
| Bindings.UnbindUndoesBind | internal/core/broker/vhost/binding.go:185-223 | it undoes the binding just made |
| Bindings.LastBinding | internal/core/broker/vhost/exchange.go:247-261 | no binding is left, so that auto-delete takes the exchange, exactly when the one removed was the last |
| Bindings.OthersJoin | internal/core/broker/vhost/queue.go:829-859 | removing a queue's bindings takes each of them from its list, and leaves the others in their order |
| Bindings.RemovedKeeps | internal/core/broker/vhost/queue.go:829-859 | removing a queue's bindings keeps the table and leaves none of them |
| Bindings.Exchanges.BindQueue | internal/core/broker/vhost/binding.go:29-99 | which outcome, in the order of its checks; then the binding is the last of its list unless one of the queue was made with that key and matches; an error changes nothing |
| Bindings.Exchanges.UnbindQueue | internal/core/broker/vhost/binding.go:111-160 | which outcome, in the order of its checks, done iff some binding of the queue under the key matches; then one goes, and an auto-delete exchange with its last one |
| Bindings.Exchanges.DeleteBinding | internal/core/broker/vhost/binding.go:185-223 | finds, removes, drops an empty list, auto-deletes |
| Bindings.Exchanges.RemoveQueueBindings | internal/core/broker/vhost/queue.go:829-859 | removes the queue's bindings under every key and auto-deletes only if one was removed |
| Transactions.TxChannel.Select | internal/core/broker/tx.go:32-55 | enters transaction mode once; a second select keeps the buffers |
| Transactions.TxChannel.PublishRequest | internal/core/broker/basic.go:293-328 | buffers in a transaction and changes nothing else, up to 10000 |
| Transactions.TxChannel.AckRequest | internal/core/broker/basic.go:330-359 | the same for acks, nacks and rejects; outside a transaction it does what AckExactly says |
| Transactions.TxChannel.Commit | internal/core/broker/tx.go:57-180 | a missing exchange in the dry run executes nothing; otherwise the host is replayed the routable publishes and then the acks in order; it fails exactly on a failed publish, an unroutable mandatory one or an unknown tag, and then the channel's deliveries are released and the gate is shut; no buffered operation is executed by two commits; a commit of one ack does what the ack does |
| Transactions.TxChannel.SendChannelError | internal/core/broker/connection.go:326-350 | marks the channel closing and closes its deliveries, or reports that the channel is gone; either way the gate is shut |
| Transactions.TxChannel.Rollback | internal/core/broker/tx.go:187-206 | drops the buffers and changes nothing else |
| Transactions.TxChannel.Cleanup | internal/core/broker/vhost/consumer.go:484-503 | an implicit rollback; the channel number starts clean |
| Transactions.AckExactly | internal/core/broker/basic.go:330-359 | an ack, nack or reject in any reachable state: an unknown tag changes nothing; else exactly the named deliveries leave the channel, a reject its own alone, and an ack books them as acked, requeue gives each queue its unexpired messages, marked, and otherwise they are rejected and the queues stay |
| Transactions.CommitEffects | internal/core/broker/tx.go:134-149 | each ack of a commit does that in the state that those before it leave |
| Transactions.AckFailsExactly | internal/core/broker/tx.go:134-149 | and fails iff it then names nothing outstanding |
| Transactions.CommitPublishes | internal/core/broker/tx.go:102-132 | the publishes of a commit give each queue its copies in the order they were buffered |
| Transactions.CommitSound | internal/core/broker/tx.go:101-152 | what a commit executes keeps the invariant of the host and the account of messages |
| Transactions.FailedCommitSound | internal/core/broker/connection.go:338-349 | so does the release after a failed commit, which leaves the channel neither delivery state nor consumers |

## Left out

- Records are values in the class ChannelDeliveryState, where Go's three maps share pointers to them: that a mark set through one map is seen through another is stated by the invariant instead, and aliasing with records held elsewhere is not modelled.
- The fields of HostMethods.Host hold delivery states as values; HandlerRuns runs ack, nack, recover and channel close on one object of class ChannelDeliveryState beside them. For a connection close, which goes over many, it only shows that its orders exist.
- Consumers have their `Active` flag in a set of identities, and queues and consumers are told apart by generation and identity numbers in place of pointers.
- The queue's channel buffer is a sequence with a capacity; the delivery loop is a step that takes a message, offers it, or gives it back, so its rounds, wake-ups and timeouts are not modelled.
- Publish copies a message to given queues; routing decides them in Bindings and TopicMatcher, which are not connected to the host's state.
- Dead-letter republishing: a message handed to the dead-letter path is settled. Priority queues, persistence, metrics and logging are not modelled.
- An eviction and the push it makes room for are one step, though the code releases the queue's lock in between.
- A commit, recover, nack and each other handler is one step of the state machine; only deliverToConsumer, cancel, queue delete and channel close are taken apart by lock in DeliveryRace, where basic.get, recover and the requeue after a close do not occur.
- In DeliveryRace nothing is consumed on a channel while its close is in progress, and two closes of a channel do not overlap: the broker ignores other methods on a closing channel (broker.go:346-361).
- In DeliveryRace a send ends in success or failure; write deadlines and the wait of `consumerCancels.send` are not modelled. A basic.cancel is one event, which needs sendMu free, and is told apart by consumer, not by tag: one that is written late may follow a delivery to a later consumer of the same tag.
- ChannelsOfConnection leaves out channels that have only transaction state; closing them changes nothing here.
- DecodeTable and DecodeArray share one method for their switches, with a flag for the case that only one of them has.
- Floats are kept as the octets that represent them.
- FieldValues.RoundTrip: leaves out values with a Go `int` in them, because its encoding has no value to read back.
- DeliveryRaceResults.NoLateDelivery: speaks of the consumers registered when the close starts; one cancelled before that is outside the barrier of the code (consumer.go:195-197).
- VHostResults.PrefetchBound: speaks of the limit per consumer; the one per channel is only a throttle in the code and recover does not ask it.
- LimitResults.CalmRun: leaves out basic.get and recover on the channel, which do not ask the throttle in the code.
- Parsing of method frames: Frames hands their payload on.
- The random consumer tag is a parameter; the loop that draws another one is not modelled.
- Whether two binding arguments are one and the same map object, which reflect.DeepEqual accepts with a NaN in it: each request decodes its own.
- Exchange aliases, mandatory exchanges and exchange types without bindings are not modelled beyond an error for an unsupported type.
- The HTTP API, web UI, command line, authentication, TLS, heartbeats and configuration.
