# Verification of the Kafka push notification driver

A Dafny 4.11 model of the driver that renders Dovecot push notification events as JSON and publishes
them to Kafka, with proofs about its three stateful parts:

* **The event renderer** (`src/push-notification-kafka-event.c` and the userdb fragment of
  `src/push-notification-kafka-driver.c`). Writers that append to a string in place are proved to leave
  the text of an intended member list. An RFC 8259 parser, written as a specification, reads that text
  back.
* **The randomised-window input stream** (`src/lib-test/test-common.c`). Unsigned offsets that move to a
  random place on every read, and a reallocated buffer, refine a plain cursor over the data.
* **The driver** (`src/push-notification-kafka-driver.c`). A step system over many contexts, a shared
  reference-counted global and a library whose every answer is chosen by an arbitrary oracle.

`dafny verify dfyconfig.toml` checks the whole project.

| files | contents |
|---|---|
| `Options.dfy`, `Json.dfy`, `JsonParser.dfy`, `JsonRoundTrip.dfy` | JSON values and text, RFC 8259 sections 2 to 7 as a parser, the round trip |
| `Events.dfy`, `EventWriters.dfy`, `EventTheorems.dfy`, `EventDocuments.dfy` | what each event should say, the in-place writers, what a consumer can rely on, what is read in each kind of document |
| `StreamWindow.dfy`, `TestStream.dfy`, `StreamPrograms.dfy` | offsets in 64-bit arithmetic, the stream class over byte arrays, whole programs that read |
| `Kafka.dfy`, `DriverSpec.dfy` | the library as handles, a log and an oracle; one step for each entry point |
| `DriverInvariant.dfy`, `DriverHistory.dfy`, `DriverSend.dfy`, `DriverSettings.dfy` | the invariant of all runs, the fate of each configuration object and the unused setting, the retry loop, the settings |
| `DriverTheorems.dfy`, `DriverConfig.dfy`, `DriverUsers.dfy` | whole runs: safety, the log end to end, user references; from the arguments of init to what is sent; the life of the user kept in the global |
| `Driver.dfy` | the driver class, proved to take those steps |

The imperative members (`EventWriters`, `TestStream.TestIStream`, `DriverImplementation.Driver`) are proved
against specification functions; the lemmas then prove what the source promises about those functions.

## What the proofs found

* The event name is copied into a message event without escaping. A published message event reads back as its
  member list exactly when the name needs none, as all documented event names do (`EventTheorems.MsgParsesExactly`).
* A mailbox event that is neither a creation nor a rename never reads back as its members, because the quote of
  the event name stays open. Without a quote in that name it is no JSON at all, whatever the user and the mailbox
  are called; with one, it is JSON exactly when the name itself does the closing (`EventTheorems.MboxParsesExactly`,
  `EventTheorems.UnclosedParsesExactly`). The repository's README lists "the mailbox events are not working" as a known
  bug. Over a run with a library that never fails, plain message event names and no quote in a mailbox event name, all
  accepted messages are keyed JSON objects exactly when every mailbox event is a creation or a rename
  (`DriverTheorems.KeyedJsonExactly`).
* The documentation (`README.md:122-126`) promises the prefix user, userdb, mailbox, event for all serialized events.
  What is published keeps the promise in two cases only. A message event does exactly when its name needs no escaping
  (`EventTheorems.MsgPrefixExactly`). A mailbox event does exactly when it is a creation or a rename and no configured
  field has a value, because it never carries the userdb (`EventTheorems.MboxPrefixExactly`).
* `test_seek` adds a hidden offset of up to 127 to its target without a guard. Reads after a seek are
  independent of the random choices exactly for targets up to `SIZE_MAX - 127`; beyond, a read can report
  data that does not exist (`StreamWindow.SeekIndependentExactly`, `StreamWindow.WrappedSeekReads`, and over a whole
  program `StreamPrograms.SeekRunExactly`).
* When `rd_kafka_new` fails, `rd_kafka_set_log_level` is called on a NULL producer. For every library: a send does
  this exactly when there is no producer, the broker list and the debug level are accepted, and the producer is not
  created (`DriverSettings.NullLogLevelExactly`). The model records the fault `NullLogLevel` and goes on.
* Each of the two early returns of init_global strands one configuration object; the next send creates another. A
  send strands one exactly when there is no producer and the broker list or the debug level is refused
  (`DriverSettings.StrandsExactly`), and a run strands none exactly when that never happened
  (`DriverHistory.NothingStranded`). Refused plugin settings strand nothing.
* The global keeps a pointer to the user of the context that set it up, without a reference
  (`src/push-notification-kafka-driver.c:425`), and reads that user's settings whenever a producer is set up. No
  library can make it read a freed user exactly when everything to be sent comes while that user is there
  (`DriverUsers.DanglingExactly`). With two users in one process the first may leave in good order and the next
  message of the second goes wrong (`DriverUsers.LeavingDangles`, `DriverUsers.FirstUserCanLeave`).
* `begin_txn` takes a user reference before it looks at the enabled switch. If only the transactions begun in enabled
  contexts are ended, each begin in a disabled context leaves a reference behind (`DriverTheorems.DisabledBeginsLeak`).
* `retry_counter` overflows an `int` only for a bound of `INT_MAX` and a queue that never drains
  (`DriverSend.CounterOverflowsExactly`).
* The documentation presents `kafka.notification.kafka_debug` as the debug option of the library; the code stores it
  and always sets `debug=all`. Over a whole run the setting changes no library call (`DriverHistory.KafkaDebugIgnored`).

## Model

| member | source | states |
|---|---|---|
| `JsonRoundTrip.RoundTrip` | src/push-notification-kafka-event.c:121-281 | the compact JSON text the writers produce parses, under the whole of RFC 8259 sections 2 to 7, back to the value with its members in order |
| `JsonRoundTrip.TextInjective` | src/push-notification-kafka-event.c:121-281 | two values with the same text are the same value |
| `JsonRoundTrip.ParseEscapedChar` | src/push-notification-kafka-event.c:128 | each byte written by the escaping call is read back as that byte, whatever follows |
| `JsonRoundTrip.ParseDecimal` | src/push-notification-kafka-event.c:137 | a number printed with `%u` is read back as that number |
| `JsonRoundTrip.CopiedStringRead` | src/push-notification-kafka-event.c:137 | a name copied with `%s` between quotes and followed by a member is read shorter than it is, unless it is plain, or past its closing quote |
| `JsonRoundTrip.UnclosedString` | src/push-notification-kafka-event.c:65-76 | text without a quote has no reading as the rest of a string, whatever escapes it holds |
| `JsonRoundTrip.MembersBeforeTail` | src/push-notification-kafka-event.c:61-76 | members in front of a tail add themselves to what the tail reads as, and never make an unreadable tail readable |
| `JsonRoundTrip.TextTight` | src/push-notification-kafka-event.c:121-281 | the text is one line without a control byte, and every space in it is the content of a string |
| `EventWriters.StrStartsWith` | src/push-notification-kafka-event.c:38-50 | the pointer loop decides the prefix relation; a NULL argument is never a prefix |
| `EventWriters.WriteFlag` | src/push-notification-kafka-event.c:90-96 | one flag, with its comma, extends the array by its name exactly when its bit is set |
| `EventWriters.WriteFlags` | src/push-notification-kafka-event.c:81-119 | the array holds the names FlagNamesInOrder and FlagNamesExactly speak of, and the result tells whether any of the five known bits is set |
| `EventWriters.WriteKeywords` | src/push-notification-kafka-event.c:161-179 | the array holds the in-order filter of the keywords by the prefix, and the result tells whether it is non-empty |
| `EventWriters.WriteFlagArray` | src/push-notification-kafka-event.c:148-159 | the flags member appears exactly when flags are sent and the word is not zero |
| `EventWriters.WriteKeywordArray` | src/push-notification-kafka-event.c:163-201 | the member appears exactly when the list is non-empty, also when every keyword is rejected; its commas depend on this list alone |
| `EventWriters.WriteFront` | src/push-notification-kafka-event.c:121-133 | the document opens with the user and the userdb fragment as it is |
| `EventWriters.WriteCopied` | src/push-notification-kafka-event.c:137 | the event name goes between its quotes as it is |
| `EventWriters.WriteMsgPrefix` | src/push-notification-kafka-event.c:121-139 | user, fragment, mailbox, event, uidvalidity and uid, in that order |
| `EventWriters.WriteFlagsEvent` | src/push-notification-kafka-event.c:141-212 | NULL exactly when nothing would be published, otherwise the text of all flag and keyword members |
| `EventWriters.WriteHeaders` | src/push-notification-kafka-event.c:224-247 | each header appears exactly when it is not NULL, in the order from, snippet, subject, to |
| `EventWriters.WriteEventMessageNew` | src/push-notification-kafka-event.c:214-249 | the date unless it is -1, then the headers |
| `EventWriters.WriteEventMessageAppend` | src/push-notification-kafka-event.c:251-281 | the headers only |
| `EventWriters.RenderMsg` | src/push-notification-kafka-event.c:283-308 | dispatch by event name; the buffer holds the text whose reading the lemmas of EventDocuments give for each kind, NULL exactly for a suppressed event |
| `EventWriters.RenderMbox` | src/push-notification-kafka-event.c:52-79 | the text of the two known kinds, and the text with the open quote for every other name |
| `EventWriters.WriteFields` | src/push-notification-kafka-driver.c:328-342 | the fields with a value, in configured order, with the counter placing the commas |
| `EventWriters.BuildUserdbJson` | src/push-notification-kafka-driver.c:321-351 | no fragment when no field has a value, otherwise the userdb member and its comma |
| `Events.UserdbMembersPresent` | src/push-notification-kafka-driver.c:330-347 | no field is kept exactly when none has a value |
| `Events.UserdbMembersInOrder` | src/push-notification-kafka-driver.c:330-347 | the fields are kept in configured order, each with its value or not at all |
| `Events.FlagNamesNonEmpty` | src/push-notification-kafka-event.c:86-118 | the five single-bit tests together are a test against the mask of known flags |
| `Events.FlagNamesInOrder` | src/push-notification-kafka-event.c:86-117 | bits 1, 2, 4, 8 and 16 give \\Answered, \\Flagged, \\Deleted, \\Seen and \\Draft, in this order |
| `Events.FlagNamesExactly` | src/push-notification-kafka-event.c:86-117 | each of the five names is published if and only if its bit is set, only once, and no other name is |
| `Events.MatchingIsFilter` | src/push-notification-kafka-event.c:166-178 | the published keywords are the order-preserving filter of the list |
| `EventTheorems.SuppressedExactly` | src/push-notification-kafka-event.c:205-211 | an event is suppressed exactly when it is about flags and every array it would publish is empty |
| `EventTheorems.SpliceUserdb` | src/push-notification-kafka-event.c:127-137 | splicing the fragment as raw text yields one object with the userdb member in second place |
| `EventTheorems.MsgRoundTrip` | src/push-notification-kafka-event.c:283-308 | every published message event with a plain event name parses to its intended ordered member list |
| `EventTheorems.MsgParsesExactly` | src/push-notification-kafka-event.c:121-308 | over all event names: a published message event parses to its intended member list exactly when the name needs no escaping |
| `EventTheorems.EqualTextsEqualContent` | src/push-notification-kafka-event.c:121-308 | equal bytes mean equal user, userdb, mailbox, uids, event name and payload members |
| `EventTheorems.HeadersRecovered` | src/push-notification-kafka-event.c:224-246 | the headers, present or absent, are determined by their members |
| `EventTheorems.MboxParsesExactly` | src/push-notification-kafka-event.c:52-79 | over all event names: a mailbox event reads back as its members exactly when it is MailboxCreate or MailboxRename; without a quote in the name, it is JSON exactly then |
| `EventTheorems.MboxUnclosed` | src/push-notification-kafka-event.c:65-76 | no user and no mailbox make an event with an open quote parse while its name holds no quote, and no name at all makes it read back |
| `EventTheorems.QuoteInNameParses` | src/push-notification-kafka-event.c:65-76 | a name that ends with a quote makes such an event JSON, with the name cut short |
| `EventTheorems.UnclosedParsesExactly` | src/push-notification-kafka-event.c:65-76 | for every name: the document with the open quote is JSON if and only if the name has a quote after which the text ends the object; user and mailbox play no part |
| `EventTheorems.MsgPrefixExactly` | README.md:122-126 | the bytes of a published message event read as an object with the documented prefix if and only if the name needs no escaping |
| `EventTheorems.MboxPrefixExactly` | README.md:122-126 | for every name: the bytes of a mailbox event do so if and only if it is a creation or a rename and no configured field has a value |
| `EventDocuments.MsgOpening` | src/push-notification-kafka-event.c:121-139 | the bytes of every published message event with a plain name read as user, userdb if there is one, mailbox, event, uidvalidity and uid, each from its own field, and the payload |
| `EventDocuments.FlagsSetPublished` | src/push-notification-kafka-event.c:205-211 | a FlagsSet event is published if and only if flags are sent and one of the five bits is set, or a keyword has the prefix |
| `EventDocuments.FlagsSetDocument` | src/push-notification-kafka-event.c:291-293 | what is read after the uid: "flags" with the names of the set flags, "keywords" with the filtered ones, nothing else, and when each is there |
| `EventDocuments.FlagsClearPublished` | src/push-notification-kafka-event.c:205-211 | the same for FlagsClear, whose old flags and keywords count too |
| `EventDocuments.FlagsClearDocument` | src/push-notification-kafka-event.c:294-297 | "flags" and "keywords" show the cleared ones, "oldFlags" and "oldKeywords" the old ones, in source order, and when each is there |
| `EventDocuments.MessageNewDocument` | src/push-notification-kafka-event.c:214-249 | the date unless it is -1, then from, snippet, subject and to, each from its own header, those that are there |
| `EventDocuments.MessageAppendDocument` | src/push-notification-kafka-event.c:251-281 | the same without a date |
| `EventDocuments.OtherDocument` | src/push-notification-kafka-event.c:302-305 | any other message event is read as its opening alone |
| `EventDocuments.MboxDocument` | src/push-notification-kafka-event.c:61-76 | MailboxCreate is read with its uidvalidity, MailboxRename with its old mailbox, after user, mailbox and event |
| `StreamWindow.ReadOutcomes` | src/lib-test/test-common.c:42-89 | for each result of a read, the exact condition under which it is returned |
| `StreamWindow.ReadEffect` | src/lib-test/test-common.c:42-89 | a read changes nothing but the bytes shown, by as much as it returns and up to the limit or the cap, and the end-of-file mark, exactly when it returns -1 |
| `StreamWindow.SeekThenRead` | src/lib-test/test-common.c:92-100 | a read after a seek starts at the target and shows what is there; the seek leaves the end-of-file mark alone |
| `StreamWindow.MovedView` | src/lib-test/test-common.c:51-58 | the rebasing never underflows and changes no logical position |
| `StreamWindow.CurMaxMeaning` | src/lib-test/test-common.c:60-63 | with its overflow guard, the limit is the smaller of the data and the cap for every cap, and never below the old position |
| `StreamWindow.ReadRefinesCursor` | src/lib-test/test-common.c:33-90 | a read in wrapping arithmetic returns what the plain cursor returns, for every random offset |
| `StreamWindow.SeekAgreesExactly` | src/lib-test/test-common.c:92-100 | reads after a seek agree with the cursor exactly when adding the offset does not wrap |
| `StreamWindow.WrappedSeekReads` | src/lib-test/test-common.c:92-100 | a wrapping seek followed by a read that reports data past the end |
| `StreamWindow.SeekIndependentExactly` | src/lib-test/test-common.c:92-100 | for a caller: the result is independent of all random choices exactly when 127 can be added to the target |
| `TestStream.TestIStream.constructor` | src/lib-test/test-common.c:102-120 | the initial cursor: everything visible, no cap, end of file allowed |
| `TestStream.TestIStream.FillBuffer` | src/lib-test/test-common.c:65-75 | the buffer gets exactly the needed size, the copy stays inside both buffers and puts every byte at its offset |
| `TestStream.TestIStream.Extend` | src/lib-test/test-common.c:48-79 | moving, capping, refilling and advancing keep the window invariant |
| `TestStream.TestIStream.Conclude` | src/lib-test/test-common.c:81-89 | the result for the bytes gained, with the end-of-file test |
| `TestStream.TestIStream.Read` | src/lib-test/test-common.c:33-90 | the window invariant holds, and offsets, cursor and result are those ReadOutcomes and ReadEffect speak of |
| `TestStream.TestIStream.Seek` | src/lib-test/test-common.c:92-100 | the new offsets for every target, wrapping included, and the cursor for every target in range |
| `TestStream.TestIStream.SetAllowEof` | src/lib-test/test-common.c:127-133 | only the end-of-file control changes |
| `TestStream.TestIStream.SetMaxBufferSize` | src/lib-test/test-common.c:135-141 | only the cap changes |
| `TestStream.TestIStream.SetSize` | src/lib-test/test-common.c:143-151 | the visible size, cut to the data; bytes already visible stay valid |
| `StreamPrograms.WindowAlwaysOk` | src/lib-test/test-common.c:33-151 | after every sequence of operations and for all random choices no offset underflows, what is shown is part of the data, and the window stands for the plain cursor |
| `StreamPrograms.FreshRead` | src/lib-test/test-common.c:102-120 | the first read of a fresh stream shows all the data, or finds the end of an empty one |
| `StreamPrograms.NeverFull` | src/lib-test/test-common.c:118 | no program that sets no cap ever finds the window full |
| `StreamPrograms.SeekRunExactly` | src/lib-test/test-common.c:33-100 | the results of read, seek, read over a fresh stream are independent of all random choices if and only if 127 can be added to the target |
| `StreamPrograms.ResultsIndependent` | src/lib-test/test-common.c:51 | while seeks stay in that range, the results of any program are |
| `StreamPrograms.Run` | src/lib-test/test-common.c:33-151 | any program over the stream observes what it would observe over the plain cursor |
| `StreamPrograms.TwoRuns` | src/lib-test/test-common.c:51 | two runs of a program with different random offsets observe the same |
| `StreamPrograms.Drain` | src/lib-test/test-common.c:42-89 | reading and consuming until end of file terminates and yields exactly the data, for every positive cap |
| `DriverInvariant.InitGlobalEffect` | src/push-notification-kafka-driver.c:108-164 | one configuration is added; the library's answers to the broker list, the debug level and rd_kafka_new decide whether it is left open, consumed by the new producer or destroyed, and which fault is recorded |
| `DriverInvariant.SetUpExactly` | src/push-notification-kafka-driver.c:132-158 | one set-up strands an object if and only if the broker list or the debug level is refused; how it changes the number of objects of each fate |
| `DriverInvariant.InitTopicInv` | src/push-notification-kafka-driver.c:189-212 | a topic is created once per context, on the live producer |
| `DriverInvariant.DeinitTopicInv` | src/push-notification-kafka-driver.c:214-226 | a context destroys its own topic and no other |
| `DriverInvariant.SendInv` | src/push-notification-kafka-driver.c:228-271 | sending keeps the ownership invariant |
| `DriverInvariant.DeinitInv` | src/push-notification-kafka-driver.c:550-577 | the assertion on the reference count holds and the global outlives the context |
| `DriverInvariant.CleanupInv` | src/push-notification-kafka-driver.c:579-591 | the producer is destroyed only when no context is left |
| `DriverInvariant.RunInv` | src/push-notification-kafka-driver.c:108-591 | the invariant in every reachable state, for every behaviour of the library |
| `DriverTheorems.RunIsSafe` | src/push-notification-kafka-driver.c:550-591 | in any run no fault but two: the log level on NULL, if and only if some set-up failed in rd_kafka_new, and a read of a freed user, whose exact condition is `DriverUsers.DanglingExactly`; the reference count is the number of contexts; one live producer at most |
| `DriverTheorems.EverythingDestroyedOnce` | src/push-notification-kafka-driver.c:166-226 | after the last deinit and a cleanup every topic and producer ever created was destroyed exactly once |
| `DriverHistory.ConfsConserved` | src/push-notification-kafka-driver.c:117-158 | configurations created = consumed + destroyed + stranded, each number counted from the library's answers |
| `DriverHistory.NothingStranded` | src/push-notification-kafka-driver.c:132-140 | a run strands nothing if and only if the library took the broker list and the debug level at every set-up |
| `DriverTheorems.AcceptedLog` | src/push-notification-kafka-driver.c:228-271 | the accepted messages of a run are its renderings in order minus those given up, none twice |
| `DriverTheorems.AcceptedOnTopic` | src/push-notification-kafka-driver.c:480-539 | the same for the log of each single topic |
| `DriverTheorems.NothingLost` | src/push-notification-kafka-driver.c:480-539 | with a library that never fails every rendering of the run is accepted |
| `DriverTheorems.AcceptedIsKeyedJson` | src/push-notification-kafka-driver.c:496-531 | for every library: every accepted message is a JSON object whose first member is the user it is keyed by, if event names are plain and mailbox events are creations and renames |
| `DriverTheorems.KeyedJsonExactly` | src/push-notification-kafka-driver.c:496-531 | with a library that never fails and ordinary names, that holds if and only if every mailbox event is a creation or a rename |
| `DriverTheorems.RefsBalance` | src/push-notification-kafka-driver.c:440-548 | a user's outstanding references are its begun minus its ended transactions, disabled contexts included |
| `DriverTheorems.DisabledBeginsLeak` | src/push-notification-kafka-driver.c:440-478 | if the ended transactions are those begun in enabled contexts, the references left are the begins in disabled ones |
| `DriverConfig.ContextAsGiven` | src/push-notification-kafka-driver.c:290-354 | over whole runs: a live context has the topic, prefix, flag switch, enabled switch and userdb fields of its own init, and its topic object that topic's name |
| `DriverConfig.AcceptedAsConfigured` | src/push-notification-kafka-driver.c:480-539 | for every library: each accepted message went to the topic its context was initialised with, keyed by the user of its transaction, and is one of its events rendered under that context's switches and userdb |
| `DriverConfig.SentShowsUserdb` | src/push-notification-kafka-driver.c:321-351 | such a message event with a plain name is read with exactly the configured userdb fields that have a value |
| `DriverConfig.GlobalAsGiven` | src/push-notification-kafka-driver.c:358-426 | brokers, debug level, user and retry bound are those of the first init since the last effective cleanup, a missing or negative bound being 0 |
| `DriverConfig.RetriesAsConfigured` | src/push-notification-kafka-driver.c:236-262 | over whole runs: a send tries at most once more than the configured bound, exactly so often while the queue is full, and succeeds if and only if one of these attempts does |
| `DriverSend.RetryExact` | src/push-notification-kafka-driver.c:236-262 | attempts, polls and the log entry of the retry loop in terms of the first answer that is not a full queue |
| `DriverSend.EnqueuesAtStop` | src/push-notification-kafka-driver.c:239-262 | the message is enqueued exactly when some attempt within the bound succeeds |
| `DriverSend.CounterOverflowsExactly` | src/push-notification-kafka-driver.c:258 | when the retry counter leaves the range of `int` |
| `DriverSend.SendExact` | src/push-notification-kafka-driver.c:228-271 | one send: attempts, polls (the full-queue failures plus one) and outcome |
| `DriverSend.SendLogs` | src/push-notification-kafka-driver.c:228-271 | a send logs its message once under its context's topic and its key, or not at all |
| `DriverSend.TopicReused` | src/push-notification-kafka-driver.c:189-212 | a context that has its topic calls the library for nothing before it sends |
| `DriverSend.UnsentQuietly` | src/push-notification-kafka-driver.c:228-271 | a send without a topic neither polls nor produces |
| `DriverSend.DeinitCalls` | src/push-notification-kafka-driver.c:214-226 | deinit polls once for a live producer and destroys its context's topic, and calls for nothing else |
| `DriverSend.CleanupCalls` | src/push-notification-kafka-driver.c:579-591 | cleanup with no context left flushes and destroys a live producer; otherwise it calls for nothing |
| `DriverSettings.SettingNameExactly` | src/push-notification-kafka-driver.c:96-99 | an entry is offered if and only if it is the prefix, any one byte and a rest, and the name offered is that rest |
| `DriverSettings.LastWriteWins` | src/push-notification-kafka-driver.c:95-105 | of the accepted settings of one name the last one wins, and no other name is set |
| `DriverSettings.ProducerSettings` | src/push-notification-kafka-driver.c:117-149 | the configuration of a producer: the settings, then the broker list, then the debug level |
| `DriverSettings.SettingReachesProducer` | src/push-notification-kafka-driver.c:123-149 | which environment entry decides each setting of the producer, and which two names are always overridden |
| `DriverSettings.NullLogLevelExactly` | src/push-notification-kafka-driver.c:132-160 | for every library: a send sets the log level on a NULL producer, and destroys one configuration, exactly when both settings are accepted and the producer cannot be created |
| `DriverSettings.StrandsExactly` | src/push-notification-kafka-driver.c:132-140 | a send leaves an object behind exactly when there is no producer and the broker list or the debug level is refused |
| `DriverSettings.UnsentWithoutProducer` | src/push-notification-kafka-driver.c:228-271 | nothing is sent unless all three calls that make a producer succeed |
| `DriverUsers.RunAgrees` | src/push-notification-kafka-driver.c:360-428 | the user pointer of the global is that of the first context since the last cleanup without contexts, whatever the library does |
| `DriverUsers.DanglingExactly` | src/push-notification-kafka-driver.c:82-95 | no library makes init_global read a freed user if and only if everything to be sent comes while the user of the global is there |
| `DriverUsers.LeavingDangles` | src/push-notification-kafka-driver.c:425 | a user of the global who leaves in good order, and one more message, is a dangling read |
| `DriverUsers.FirstUserCanLeave` | src/push-notification-kafka-driver.c:550-591 | two users in one process reach that situation |
| `DriverHistory.KafkaDebugIgnored` | src/push-notification-kafka-driver.c:370-375 | changing kafka_debug in every context changes nothing in the library over a whole run |
| `DriverImplementation.Driver.ReadPluginKafkaSettings` | src/push-notification-kafka-driver.c:77-106 | the loop over pairs offers the entries SettingNameExactly speaks of, under the names it gives, all accesses in bounds; a freed user is a recorded fault |
| `DriverImplementation.Driver.InitGlobal` | src/push-notification-kafka-driver.c:108-127 | the new state, of which InitGlobalEffect and ProducerSettings speak |
| `DriverImplementation.Driver.StartProducer` | src/push-notification-kafka-driver.c:128-164 | the new library on success, on each of the two early returns and on a failed creation, of which CreateProducerEffect speaks |
| `DriverInvariant.CreateProducerEffect` | src/push-notification-kafka-driver.c:128-164 | what each outcome leaves behind: the object's fate, the producer, `rk`, `rkc` and the fault |
| `DriverImplementation.Driver.DeinitGlobal` | src/push-notification-kafka-driver.c:166-187 | flushes and destroys the producer |
| `DriverImplementation.Driver.InitTopic` | src/push-notification-kafka-driver.c:189-212 | the new state, in which an existing topic is reused, of which InitTopicInv speaks |
| `DriverImplementation.Driver.DeinitTopic` | src/push-notification-kafka-driver.c:214-226 | the new state, a NULL global recorded as a fault that DeinitTopicInv and RunIsSafe exclude |
| `DriverImplementation.Driver.ProduceWithRetries` | src/push-notification-kafka-driver.c:236-262 | the goto loop computes the retry function and terminates |
| `DriverImplementation.Driver.SendToKafka` | src/push-notification-kafka-driver.c:228-271 | the new state, whose log, clock and poll count SendExact and SendLogs give |
| `DriverImplementation.Driver.Init` | src/push-notification-kafka-driver.c:282-438 | the new state: a counted context with the fragment its loop built, and a global set up by the first context only, with a pointer to its user, of which ContextAsGiven and GlobalAsGiven speak |
| `DriverImplementation.Driver.BeginTxn` | src/push-notification-kafka-driver.c:440-478 | takes a user reference even when the context is disabled |
| `DriverImplementation.Driver.ProcessMbox` | src/push-notification-kafka-driver.c:480-508 | renders and sends each event in order |
| `DriverImplementation.Driver.ProcessMsg` | src/push-notification-kafka-driver.c:510-539 | renders each event and sends the non-NULL renderings in order |
| `DriverImplementation.Driver.EndTxn` | src/push-notification-kafka-driver.c:541-548 | returns one user reference |
| `DriverImplementation.Driver.Deinit` | src/push-notification-kafka-driver.c:550-577 | the new state, the assertion on the reference count recorded as a fault that DeinitInv excludes |
| `DriverImplementation.Driver.Cleanup` | src/push-notification-kafka-driver.c:579-591 | the new state, in which the producer is gone only at reference count zero, of which CleanupInv speaks |
| `DriverImplementation.RunDriver` | src/push-notification-kafka-driver.c:597-604 | a program that calls the entry points reaches the state of the step system, so the theorems about runs are about it |

## Left out

- Dates are strings that need no escaping, being ISO 8601 text.
- JsonParser.ParseEscape: a `\u` escape is decoded code unit by code unit to UTF-8 bytes, surrogate pairs included; the plugin never prints one. Documents are byte sequences, and their UTF-8 validity (section 8.1 of RFC 8259) depends on the input strings.
- EventWriters.RenderMsg: the `void *` payload is a typed value; that the event name and the payload type agree is the contract of the notification framework.
- StreamWindow.MovedView: the data size leaves room for the largest offset, 127, in a signed 64-bit size.
- DriverTheorems.RunIsSafe: after `rd_kafka_set_log_level` on NULL and after a read of a freed user the model goes on, as if the calls had no effect.
- DriverUsers.DanglingExactly: users are numbered objects, freed at one moment; the user name of a transaction is not tied to them, so a run may free a user whose transaction is still open.
- The global and the contexts of the driver are records in fields of one object, contexts named by number; pointers shared between C structures and freed memory are represented by the handles of the library and by the user numbers.
- DriverImplementation.Driver.Init: reading single defaults (topic, prefix, feature switch, timeouts) is replaced by the values read; number parsing of the retry bound is an optional integer.
- A reader of the stream advances `skip` towards `pos` itself; Dovecot's own stream code, which does that, is not part of this model.
- The library's own behaviour (networking, delivery reports, partitions, time) is an oracle with handles, a queue answer and a log; callbacks and console output have no effect on state.
- Event subscription in begin_txn, plugin registration, logging, memory pools and hash tables are not part of this model.
- The rest of the test library (counters, fatal-error jumps, the test programs) is not part of this model.
