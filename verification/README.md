# A verified model of the file server and its client

The repository is a small file service: a single-threaded server that multiplexes many connections over an
edge-triggered event loop, and a command-line client that performs one operation per connection. This project
models both in Dafny and proves what the service promises: replies are well formed however the system splits
reads and writes, the shared state behaves like one sequential store, nothing leaks, no connection is forgotten,
and a file comes back as it was sent.

## How it is built

There are two descriptions of the server, and a proof that they agree.

* **The server as it is written.** `FileServer.dfy` has the connection record as a class with the fields of
  `client_t`, the header as a 1024-byte array that the parser cuts in place, the file list as a growing array, the
  connection map as an association list (`Collections.dfy`), and one method per handler, with the loops of the
  source. A handler can only be called on a record that has not been freed, and the dispatch reads a record's state
  through an accessor that demands the same. `MainLoop.dfy` is the main loop: waits, batches of reports, accepting.
* **The server as a state machine.** `Handlers.dfy` gives each handler as a function from one `World` (a
  connection, the shared state, the answers the system has yet to give) to the next; `System.dfy` puts the
  connections together: a `Step` takes one report of the event loop, a `Run` any finite sequence of them.
* `MainLoop.Serve` proves that the first makes exactly the runs of the second, so what is proved of runs holds of
  the server over its arrays and records.

The operating system is adversarial. Every `read`, `write`, `open`, `fstat`, `pread`, `pwrite`, `unlink` and
allocation of a list buffer takes the next answer of an arbitrary schedule: any byte count, EINTR, EAGAIN or
another error. A schedule that has run out answers EAGAIN, so that a handler meets finitely many EINTR. What a peer
will ever send is a byte string fixed when it connects; how it arrives is up to the schedule. Files live in a
directory from names to inodes and in the contents of the inodes: an unlinked file that is open stays readable, and
truncating a file shows to everybody who has it open. Descriptor numbers are any that are not in use.

Every call is put on record with what the system answered (`Calls.dfy`), event by event, so that an outcome can be
traced to its cause: a run knows all the calls made for each of its connections.

Shared effects are recorded in a history (`History.dfy`): a PUT at its open and again when its file is listed or it
is refused, a GET when it has opened its file and taken its size, a DELETE when it unlinks and unlists, a GET or
DELETE when it is refused, a LIST when its buffer is built, a teardown when an unfinished PUT is unlinked. A refusal
is legal in a history only for want of the file, or with the call by which the system denied a file that is there;
a refused upload only with the fault its calls came to. Every event carries the number of the connection it was done
for, and is of the kind and for the name that connection asked for; a request that has its answer is one operation.
`Replay` turns a history into an insertion-ordered map from names to contents, the directory, three sets that say
what overlapping uploads may have spoilt: inodes truncated while another PUT had them open (`tainted`), names whose
file need not be what the store says (`dirty`), names that may be listed without a file (`lost`), and what the files
hold whose upload is over and shared them with no other (`settled`).

The client (`Common.dfy`, `FileClient.dfy`) is modelled over blocking descriptors in the same way, and
`EndToEnd.dfy` puts client and server together.

| file | content |
|---|---|
| `Bytes.dfy`, `Protocol.dfy` | C strings, the raw `size_t`, request lines, replies, the list body |
| `Calls.dfy`, `History.dfy`, `Kernel.dfy` | system calls and what they say about an upload; the history and its store; calls answered by a schedule |
| `Handlers.dfy`, `System.dfy` | the state machine of one connection; the whole server and its runs |
| `SharedInvariant.dfy`, `ConnInvariant.dfy`, `CallProofs.dfy`, `HandlerProofs.dfy`, `DispatchProofs.dfy`, `RequestProofs.dfy`, `RunProofs.dfy` | the invariant, effect by effect, handler by handler, run by run |
| `Causes.dfy`, `Outcomes.dfy` | why each connection ends as it does, and what it adds to the history: event by event, and over runs |
| `Theorems.dfy`, `ListOrder.dfy`, `Orderly.dfy`, `Sharing.dfy`, `Resources.dfy`, `Transfers.dfy`, `Liveness.dfy`, `Progress.dfy`, `Batches.dfy` | the main results over runs |
| `Spelling.dfy` | requests and replies letter for letter |
| `Collections.dfy`, `FileServer.dfy`, `MainLoop.dfy` | the containers, the handlers and the main loop in place |
| `Common.dfy`, `FileClient.dfy`, `EndToEnd.dfy` | the client, and the two programs together |
| `Promises.dfy` | where the design notes promise more than the code does: runs that show it |

## Where the code and its documentation differ

The model follows the code.

* `docs/design.md:249` says failed uploads are removed. A failed PUT whose error reply was delivered has reached
  STATE_DONE before the test for the unlink, and keeps its partial file. `Outcomes.FailedUploadFate` says, over all
  runs, exactly when the name of an upload is unlinked, `Outcomes.UploadLeaves` and `Orderly.FailedUploadOnDisk` what
  is in the file it keeps; `Promises.FailedUploadKept` gives a run that keeps a failed one.
* `docs/design.md:171` says the file list is used to check downloads. A GET looks at the directory only:
  `Promises.GetLooksAtDisk`, with a run in `Promises.UnlistedDownloaded`. The two agree on every name that is not
  dirty: `Theorems.StateIsStore`.
* `docs/design.md:248` says uploads with too much data are refused. The server probes for one byte more and sees it
  only if it has already arrived: `Promises.ExtraByteNoticed`, with a run that accepts one in
  `Promises.ExtraByteAccepted`.
* `docs/design.md:160` says a connection resumes when its socket becomes writable. A status line whose very first
  write meets EAGAIN is never sent, because the descriptor stays registered for reading:
  `Liveness.StrandedExactly` says when, `Liveness.StrandedStays` that it lasts, `Liveness.StuckExactly` that over every
  run just this holds a reply up, `Promises.ReplyStuck` gives a run.
* `README.md:74` shows an error as `ERROR\n[message]\n`. The message has a newline of its own, so there are two.
* A PUT torn down before STATE_DONE unlinks its name even if the name was listed by then, or by an earlier upload;
  the list keeps it. `Theorems.ListedImpliesStored` therefore asks that nothing was lost that way,
  `Theorems.ListedWithoutFile` says exactly when a name is listed without a file, `Promises.ListedFileLost` gives a run.
* A NUL before the newline hides the newline from the parser, which gives up silently; `Liveness.NoLostWakeup` names
  this as its second exception.

## Model

| member | source | states |
|---|---|---|
| Bytes.SizeRoundTrip | src/server.c:402-409 | a size put on the wire as raw bytes and read back is the same size |
| Bytes.SizeOfBound | src/server.c:279-286 | any eight bytes received are a size that fits, and are the bytes of that size |
| Bytes.LittleEndian | src/server.c:279-286 | of the eight bytes of a size the first counts least: the size is their sum, each times its power of 256 |
| Bytes.SmallSize | src/server.c:402-409 | a size below 256 goes out as that byte and seven zeros |
| Bytes.OverlayAt | src/server.c:352-361 | byte for byte what `pwrite` leaves in a file: what was written, what was there, zeros in a gap |
| Protocol.ParsePrint | src/server.c:584-635 | the line the client prints for any verb and any name without newline or NUL is split back into that verb and name, whatever follows it |
| Protocol.ParsedNamePrintable | src/server.c:585-597 | a name read from a request line contains no newline and no NUL |
| Protocol.SplitListBody | src/server.c:230-258 | cutting a list body at its newlines gives back the list, empty list included; which bytes it has is said by `Protocol.ListBodyLaidOut` |
| Protocol.ListBodyLaidOut | src/server.c:230-258 | byte for byte: the body has every name at its place, a newline behind each but the last, and nothing else |
| Protocol.NewlinesBetween | src/server.c:249-253 | the body has one newline fewer than there are names |
| Protocol.FilledThenRest | src/server.c:247-254 | after any number of rounds of the filling loop, what is written and the body of the names still to come make up the whole body |
| Calls.FailedExactly | src/server.c:279-377 | the calls made for an upload come to a failure exactly if one of them spoils it: a failed or empty read, a refused open, a short write, or a byte found after the close |
| Kernel.SocketMay | docs/design.md:157-160 | a read may bring and a write may take any number of bytes, or be interrupted, find the socket not ready, or fail |
| Kernel.FileMay | src/server.c:352-361 | a file may take or give any part of a chunk, and any call on a file may be refused |
| Collections.Vector.constructor | src/collections.c:17-37 | an empty vector of the initial capacity |
| Collections.Vector.Get | src/collections.c:58-63 | the element at a position, nothing out of range |
| Collections.Vector.PushBack | src/collections.c:65-81 | appends; when full the capacity doubles, or the element is dropped if there is no memory |
| Collections.Vector.Erase | src/collections.c:83-98 | removes one position and keeps the order of the rest |
| Collections.Dictionary.Get | src/collections.c:179-192 | the value a finite map has for the key, nothing if it has none |
| Collections.Dictionary.Set | src/collections.c:150-177 | the finite map is updated at the key, in place or by one more entry; capacity stays eight times a power of two |
| Collections.Dictionary.Remove | src/collections.c:194-211 | the key leaves the finite map, the other entries keep their order |
| Collections.EntriesAreMap | src/collections.c:150-211 | after any sequence of sets and removals the array has unique keys and stands for the map the same sequence makes |
| FileServer.Client.constructor | src/server.c:197-203 | a fresh record: waiting for a request, no file, empty buffers |
| FileServer.Server.CloseAndCleanup | src/server.c:212-226 | what it does to descriptors, directory, map and history; the record is freed and off the map |
| FileServer.Server.Destroy | src/server.c:205-210 | the open file is closed once, the record is freed |
| FileServer.Server.Respond | src/server.c:554-571 | the status line is prepared, never cut, and sent as far as the socket takes it |
| FileServer.Server.WriteReply | src/server.c:517-552 | resumes the status line where the last write stopped, and goes on as the request asks once it is out; terminates although it can come back to itself through a LIST without memory |
| FileServer.Server.StartSendList | src/server.c:573-582 | builds the payload from the list as it stands, or answers ERROR after the OK when there is no memory |
| FileServer.Server.SizeNames | src/server.c:231-238 | the sizing pass computes the length of the list body, which `Protocol.ListBodyLaidOut` gives as that of the names and a newline between two of them |
| FileServer.Server.FillNames | src/server.c:247-254 | the filling pass stays in bounds, leaves the size field alone and fills the rest of the buffer with the list body, whose bytes `Protocol.ListBodyLaidOut` gives |
| FileServer.Server.BuildListBuffer | src/server.c:230-258 | the buffer is the size of the body followed by the body, whose bytes `Protocol.ListBodyLaidOut` gives |
| FileServer.Server.FillSize | src/server.c:279-303 | the loop over the size: the function FillSize, for every splitting |
| FileServer.Server.RecvSize | src/server.c:279-318 | size complete, then the file is opened and data received; errors and end of file are answered |
| FileServer.Server.ReceiveChunk | src/server.c:324-362 | one chunk is read and written at its own offset; anything but a full write ends the upload |
| FileServer.Server.RecvData | src/server.c:321-377 | the whole of receiving data |
| FileServer.Server.FinishUpload | src/server.c:364-376 | close, probe, then list and answer OK or refuse |
| FileServer.Server.AddFileToList | src/server.c:260-265 | the name is appended to the list if it is not in it, given memory; over runs `Theorems.ListInOrder` says that this is the order of the commits |
| FileServer.Server.RemoveFileFromList | src/server.c:267-275 | the name is removed, the order of the others kept |
| FileServer.Server.StartSendGet | src/server.c:379-400 | opens, takes the size, answers OK, or No such file without leaving a file open |
| FileServer.Server.SendSizeField | src/server.c:402-431 | the size is put into the buffer once and sent across any number of events |
| FileServer.Server.SendChunk | src/server.c:436-460 | one chunk is read at the offset reached and sent; what the socket does not take is not counted |
| FileServer.Server.SendFileData | src/server.c:433-466 | the whole of sending a file |
| FileServer.Server.DeleteRequest | src/server.c:470-494 | unlinks and unlists a listed name, or refuses |
| FileServer.Server.SendListBody | src/server.c:498-515 | resumes the list payload, and ends the connection once it is out |
| FileServer.Server.FindChar | src/server.c:585-592 | the scan stays inside the buffer and finds the first such character before any NUL |
| FileServer.Server.SplitLine | src/server.c:584-597 | the buffer is cut in place at newline and first space; the request is what ParseLine reads; which bytes make which request is said by `Spelling.RequestsSpelt` |
| FileServer.Server.ParseHeader | src/server.c:584-635 | acts on the request, or does nothing when a NUL hides the newline |
| FileServer.Server.FillHeader | src/server.c:639-664 | the loop over the header keeps every index in bounds and is the function FillHeader |
| FileServer.Server.HandleReadEvent | src/server.c:637-676 | the handler for reading, by state |
| FileServer.Server.HandleWriteEvent | src/server.c:679-689 | the handler for writing, by state |
| FileServer.Server.DispatchEvent | src/server.c:768-778 | error, read and write bits as the loop treats them; the state that decides on the second handler is read through an accessor that demands a record not freed |
| MainLoop.HandleReport | src/server.c:759-779 | looks the record up and handles the event; every other record stays as it was |
| MainLoop.AcceptConnections | src/server.c:691-709 | accepts until there is none left; each new record is entered under its descriptor; what is accepted is said by `Resources.AcceptTakesAll` |
| MainLoop.HandleBatch | src/server.c:759-780 | the events of one wait, one after the other |
| MainLoop.Serve | src/server.c:722-781 | from its start, whatever its waits report, the server makes a run of the state machine |
| MainLoop.FlattenInOrder | src/server.c:751-781 | the run is made of the reports of the waits, in their order |
| SharedInvariant.OpeningForPut | src/server.c:306-311 | opening and truncating keeps the shared invariant; of the other open files it disturbs only those on the same inode |
| SharedInvariant.Writing | src/server.c:352-361 | a sole writer appends: nobody else's open file changes but by growing |
| SharedInvariant.Deleting | src/server.c:487-493 | unlink plus removal keeps the shared invariant; open files are untouched |
| SharedInvariant.Committing | src/server.c:364-375 | listing a finished upload keeps the shared invariant, and makes its name clean if its inode is untainted |
| SharedInvariant.Tearing | src/server.c:218-222 | the unlink of an unfinished upload keeps the shared invariant |
| ConnInvariant.LiveSteady | src/server.c:47-68 | a connection's own invariant survives whatever another connection does |
| HandlerProofs.Closing | src/server.c:205-226 | in whatever state, closing frees the record and leaves the rest in order |
| HandlerProofs.WritingReply | src/server.c:517-552 | any write of a status line leaves the connection in order: no byte skipped or repeated |
| HandlerProofs.FillingFile | src/server.c:321-362 | for every splitting and every answer, the file of an upload that shared it with no other is the body received so far |
| HandlerProofs.StartingGet | src/server.c:379-400 | a GET records what its file held, or a refusal for want of the file, or the call by which the system denied it |
| DispatchProofs.DrainingFile | src/server.c:433-466 | for every splitting the bytes sent are the file as it was announced, as long as nobody truncated it meanwhile |
| RequestProofs.FillingHeader | src/server.c:637-668 | the header is at all times the part of the stream read so far |
| RequestProofs.Dispatching | src/server.c:768-778 | any event on a connection in order leaves it in order, or freed with its reply accounted for |
| Transfers.UploadStoresInPlace | src/server.c:321-362 | every event on an upload writes all the bytes it reads to the file the upload opened, at its own offset, and to no other file, whoever else writes or has truncated that file |
| Transfers.DownloadSendsFile | src/server.c:433-466 | every event on a GET sends the bytes its file holds at that moment behind the offset reached, also when the file was truncated or written anew |
| RunProofs.StepKeeps | src/server.c:759-780 | the invariant of the whole server survives every report |
| RunProofs.RunKeeps | src/server.c:751-781 | it holds after every run |
| Theorems.WireSafety | src/server.c:402-582 | the bytes sent on a connection are always a prefix of one well-formed reply to its request, and all of it at STATE_DONE |
| Theorems.GetStability | src/server.c:379-466 | a GET, also one begun in the middle of an upload, sends a prefix of what its file held at fstat, all of it if it finishes, whatever the others do short of truncating that inode meanwhile, and unless two PUTs that share the file were at it at fstat |
| Theorems.SequentialRefinement | src/server.c:230-582 | the history of every run is one of the sequential store, refusals included; every event was done for a connection that asked for it, every finished request is one operation of the store, or none if it was answered Bad request, and every finished connection got the reply of its event, or Bad request for a request the store does not know |
| Theorems.AnsweredAsRecorded | src/server.c:498-582 | a finished connection got exactly the reply of the event the history has for it, of the kind and name it asked for, refused uploads included |
| Spelling.RequestsSpelt | src/server.c:584-668 | letter for letter: a connection is taken to ask for GET, PUT, DELETE or LIST exactly if its bytes begin with that word and a space, or LIST and a newline; the name is what follows, 255 bytes of it at most; its events are of that kind and about that name, and it is answered anything but Bad request only for these four; a line may have 1023 bytes |
| Spelling.OthersRefused | src/server.c:631-634 | any other first word has no effect on the store and is answered exactly Bad request |
| Spelling.RepliesSpelt | src/server.c:402-582 | the bytes of every finished reply, texts and length field written out |
| Theorems.StateIsStore | docs/design.md:190-197 | the list is the store's, and for clean names so are the files |
| Theorems.ListIsHistory | src/server.c:260-275 | the list has no duplicates and holds a name exactly if its last commit or DELETE is a commit |
| Theorems.ListInOrder | src/server.c:260-275 | the names stand in the order of the commits that listed them: of each name the first commit since its last DELETE; uploading a listed name again leaves it in its place |
| Theorems.ListedImpliesStored | src/server.c:212-226 | every listed name has a file in every run in which none was lost to a teardown or to a DELETE during an upload |
| Theorems.ListedWithoutFile | src/server.c:212-226 | a name is on disk exactly if its last open, DELETE or teardown is an open; it is listed without a file exactly if its last commit or DELETE is a commit and the last of those is none |
| Theorems.ListPayloadIsList | src/server.c:230-258 | a finished LIST was sent OK, the length, and exactly the names of the file list when the reply was built, in the order in which they were listed, without duplicates, a newline between two of them and none at the end; cut at its newlines the payload is the list |
| Theorems.CommittedStays | src/server.c:364-376 | a commit by a sole writer, whoever reads the file, finds it holding exactly the declared bytes, and until the next PUT, DELETE or teardown of the name it is listed and on disk with them |
| Theorems.UploadState | src/server.c:279-377 | bytes consumed are header, eight and the body so far; the assembled size is the one-shot decoding; nothing wraps; a sole writer's file is the body so far |
| Orderly.OrderlyDirt | src/server.c:306-376 | for a name whose uploads do not overlap and are all committed, the file differs from the store only during an upload |
| Orderly.OrderlyNameIsSequential | src/server.c:230-582 | for such a name the server is the sequential store: files outside uploads, the outcome of every event, each asked for by a connection, and every finished connection without exception is one operation of the store and got its reply |
| Orderly.ShelteredFetch | src/server.c:306-400 | after a commit whose upload had its file to itself, as long as nothing else touches the name, a GET fetches exactly the committed body, from the file the upload opened, or was denied by the system |
| Orderly.FailedUploadOnDisk | src/server.c:279-362 | a failed upload that had its file to itself leaves under its name the first bytes of what was sent, all of them if the peer stopped early, until the name is touched again |
| Resources.ResourceConservation | src/server.c:205-226 | open files are one for one those of the connections that need one, list buffers likewise, and every file opened is open or was closed exactly once |
| Resources.ConnectionMap | src/server.c:691-709 | the keys of the map are the open client sockets registered with the loop, each under its own descriptor, none done |
| Resources.AcceptOverwritesNothing | src/server.c:703-707 | accepting never overwrites an entry, even when descriptors are reused |
| Resources.AcceptTakesAll | src/server.c:691-709 | every connection that arrived before there were none left is accepted, interrupted calls in between included, each under its descriptor, with the next number and with nothing read of its stream, registered for reading; nothing else changes |
| Resources.NumbersAreOwn | src/server.c:197-203 | no two records of a run, live or freed, have the same number |
| Resources.NumbersAreUsed | src/server.c:691-709 | every number given out is that of a record, live or freed |
| Liveness.NoLostWakeup | src/event_loop_epoll.c:9-40 | after every event a surviving connection will be reported again, with two exceptions that are named |
| Liveness.StrandedExactly | src/server.c:517-528 | for every request, LIST included, the first exception arises exactly when the first write of a status line meets EAGAIN while reading is registered |
| Liveness.StrandedStays | src/server.c:679-689 | such a connection never sends its reply: it stays as it is through every continuation of the run without an error on it |
| Liveness.StuckExactly | src/server.c:517-528 | over every run: a connection waits to begin its reply while it is registered for reading exactly if, in an event that found it receiving, a write met EAGAIN |
| Progress.EveryEventProgresses | src/server.c:637-689 | every event ends the connection, lowers the pair of phase and bytes left, or changes nothing but the registration, every call it made on the socket having met EAGAIN or EINTR or written no byte |
| Outcomes.RunTold | src/server.c:759-780 | over every run the calls made for each connection tell its story: its refusals, teardowns, failed uploads and failed allocations, and whether it broke off; its events in the history were done for its request |
| Outcomes.EventsAreAsked | src/server.c:230-582 | every event of the history was done for the request of a connection of the run: of the kind and for the name asked for, a commit with the announced body in the file that connection opened; the event that decides a request is the one recorded for it, and a PUT opens once, before anything else |
| Outcomes.FinishedOnce | src/server.c:498-582 | a finished request has one event, preceded at most by the open of its PUT, or none if it was answered Bad request |
| Outcomes.RealTimeOrder | src/server.c:691-709 | if one connection had ended before another was accepted, all events of the first precede all events of the second |
| Outcomes.BadFileSizeExactly | src/server.c:279-377 | a PUT is answered Bad file size exactly if one of its calls spoiled it; an end of input then means a stream too short, an extra byte one too long, and a stream too short is never accepted |
| Outcomes.ReceivingIsRunning | src/server.c:279-362 | as long as an upload is being received none of its calls has spoiled it |
| Outcomes.NoSuchFileExactly | src/server.c:379-494 | a GET or DELETE has one event in the history, and is answered No such file exactly if there was no such file, a DELETE's name was not listed, or the system denied it; otherwise OK |
| Outcomes.ListedIsServed | src/server.c:379-494 | a GET or DELETE of a clean listed name succeeds unless the system denied it; it has no event but the one that decided it |
| Outcomes.BadRequestExactly | src/server.c:573-635 | Bad request is answered exactly to malformed requests and to a LIST whose buffer could not be allocated, malformed being spelt out by `Spelling.RequestsSpelt` |
| Outcomes.FreedEarlyExactly | src/server.c:212-226 | a record is freed before STATE_DONE exactly if its connection broke: an error event, a failed write, a file cut short, or a request line that ended or could not be read |
| Outcomes.FailedUploadFate | docs/design.md:249 | the name of an upload is unlinked exactly if its connection broke off before STATE_DONE and the system, finding the name, carried the unlink out, wherever the upload failed |
| Sharing.RunOverlaps | src/server.c:306-311 | a PUT found its file being written only if another upload that had opened that file was under way in the history, a DELETE found its name being uploaded only if an upload of that name was |
| Outcomes.UploadLeaves | src/server.c:321-376 | an upload that shared its file with no other, listed or refused, leaves in it the announced body, or of a refused one the first bytes of it, all that was sent if the peer stopped early, all that was announced if it sent too much; the file holds just that, and a GET fetches just that, until a PUT opens it again |
| Batches.StepKeepsEntry | src/server.c:759-780 | handling one report leaves the registration and record of every other descriptor alone |
| Batches.BatchNeverStale | src/server.c:759-780 | every report of a batch is still possible, and for the same connection, when its turn comes |
| Batches.NeverBothHandlers | src/server.c:773-778 | no event runs both handlers: a read report runs the one for reading, a write report the one for writing, anything else does nothing; interest is READ while receiving and WRITE while sending a payload |
| Batches.ErrorEnds | src/server.c:768-772 | a reported error ends the connection whatever else is reported with it: nothing is read, sent or listed any more, the record is freed as it stands, and at most the name of an unfinished upload is unlinked |
| Common.ReadAll | src/common.c:13-28 | all that was asked for or all there is, in order, for every splitting; -1 only on an error |
| Common.WriteAll | src/common.c:30-42 | everything, or a prefix and -1 on an error |
| Common.ReadLine | src/common.c:44-72 | one line and not a byte past its newline |
| FileClient.HandleGet | src/client.c:101-176 | sends the request line; report and local file are Download of the reply, for every splitting and interruption; whatever fails, no fault is reported only if the file is complete |
| FileClient.ReceiveBody | src/client.c:144-163 | the local file gets the first announced bytes, as many as there are |
| FileClient.HandlePut | src/client.c:178-226 | sends line, size and the whole file, reports what the status line says; whatever fails, success is reported only for OK |
| FileClient.HandleDelete | src/client.c:228-260 | sends the request line, reports what the status line says; whatever fails, success is reported only for OK |
| FileClient.HandleList | src/client.c:262-325 | prints exactly the announced body, or nothing; report and output are Listing of the reply; whatever fails, no fault is reported only if all was printed |
| FileClient.DownloadClassified | src/client.c:128-171 | too little data is reported exactly if there is less than announced, too much exactly if there is more and the probe was answered |
| FileClient.DownloadCutShort | docs/design.md:253-255 | a reply cut short anywhere is reported, and what was kept is a prefix of the file |
| FileClient.StatusClassified | src/client.c:111-127 | success is reported exactly for OK, an error exactly for ERROR and a line behind it, with the text up to a newline or NUL, a closed connection exactly for no reply |
| FileClient.NotOk | src/client.c:271-287 | a reply that is not OK leaves no file and prints nothing |
| FileClient.SizeCutShort | src/client.c:128-136 | a size field that is not whole is too little data |
| FileClient.Unable | src/client.c:138-142 | a local file that cannot be opened, or no memory for the list, leaves nothing |
| FileClient.ListingClassified | src/client.c:287-318 | too little data is reported exactly if there is less than announced, and then nothing is printed; too much exactly if there is more and the probe was answered; else exactly what was announced is printed |
| FileClient.ListCutShort | src/client.c:306-309 | a list reply cut short anywhere is reported, and nothing of it is printed |
| FileClient.ErrorReported | src/client.c:116-126 | each error reply of the server is reported with its text and leaves no local file |
| FileClient.ListPrinted | src/client.c:287-318 | the names can be read off what a LIST prints |
| EndToEnd.HeardRight | src/server.c:584-670 | across any number of read events the server reads a client's request line as exactly that verb and name |
| EndToEnd.NeverForgotten | src/event_loop_epoll.c:9-40 | a client whose first status line did not meet EAGAIN is never forgotten: after every event its connection is gone or will be reported again |
| EndToEnd.TooLongIsBad | src/server.c:666-668 | 1023 bytes without a newline are never a request and are answered only Bad request |
| EndToEnd.UploadCommitted | src/server.c:364-376 | a PUT client that was answered OK has its file in the history, under its name and with its bytes |
| EndToEnd.FetchedIsCommitted | src/server.c:379-400 | a GET after a commit, nobody else having touched the name since that PUT opened its file alone, finds that commit's bytes, or is refused with the call by which the system denied it |
| EndToEnd.RoundTrip | src/client.c:128-199 | if a PUT answered OK had ended when a GET of the name was accepted, and nobody else acted on the name from the one's open to the other's end, then whatever the system answers the client of the GET accepts nothing but the uploaded bytes as the file, keeps at most a prefix of them, and has them all if the reply was completed, unless the system denied the file |
| EndToEnd.UploadCompletes | src/server.c:279-377 | a PUT of a client all of whose calls succeed can only be freed in STATE_DONE, answered OK, with its bytes committed under its name |
| EndToEnd.DownloadCompletes | src/server.c:379-466 | a GET of a client all of whose calls succeed can only be freed in STATE_DONE, answered OK, or No such file because there was none |
| EndToEnd.RoundTripCompletes | src/client.c:128-199 | if besides all calls for the two succeed, both end in STATE_DONE, the PUT was answered OK, the GET was sent the whole file and its client has exactly the uploaded bytes |
| EndToEnd.ListHeard | src/client.c:287-318 | what the client of a finished LIST prints, cut at its newlines, is the file list when the reply was built |
| Promises.ExtraByteNoticed | docs/design.md:248 | an upload with too much data is refused exactly if the extra byte has arrived and the probe is answered |
| Promises.GetLooksAtDisk | docs/design.md:171 | a GET is served exactly if the directory has the name and the system opens it, whatever the list says |
| Promises.FailedUploadKept | docs/design.md:249 | a run after which the byte that came of a failed upload of two is on disk, its error delivered, nobody connected, the list empty |
| Promises.UnlistedDownloaded | docs/design.md:171 | a run in which a file that is not in the list is downloaded, all of it: what a failed upload left |
| Promises.ExtraByteAccepted | docs/design.md:248 | a run in which a peer sends more than it announced and is answered OK, its file listed |
| Promises.ReplyStuck | docs/design.md:160 | a run in which a reply that could not begin is stuck |
| Promises.ListedFileLost | src/server.c:218-222 | a run after which a name is listed without a file |

## Left out

* Socket setup, `getaddrinfo`, `bind`, signals and shutdown (`cleanup`), and creating and removing the temporary
  directory: operating-system plumbing.
* The epoll and kqueue backends as code; they appear as the interest map and the rules of what may be reported
  (`System.Deliverable`, `Batches.OneBatch`): registered descriptors only, the registered direction only, at most
  one report per descriptor and wait. A failing `event_loop_add` or `event_loop_modify` is not modelled.
* Paths: the store is a flat directory, `open` may refuse any name and always refuses the empty one; `snprintf` of a
  path that exceeds its buffer is not modelled.
* Inode numbers are never reused, `off_t` does not overflow, `sizeof(size_t)` is 8, and both ends have the same
  little-endian byte order.
* Allocation failure, except for the list buffer and the `realloc` of the containers; the server is modelled with
  containers that can grow.
* The buffers `filename`, `simple_response_buf`, `list_buf` and the chunk buffers are values, not arrays: their
  bounds are invariants (`FileServer.Client.Valid`), what is not captured is memory shared between them.
* Descriptors of the client are objects with all their inbound bytes; `shutdown` and `close` have no effect there.
* Client request lines longer than the 1024-byte buffer, and a local file that changes while it is uploaded.
* Usage texts, argument parsing and the wording of client messages other than the three error texts.
* The containers whose headers have no code here: graph, set, queue and the generated constructors.
- FileServer.Server.AddFileToList: the push is always given memory; that a failed `realloc` drops the name is in `Collections.Vector.PushBack`, but no run of the server meets it.
- Theorems.SequentialRefinement: for a name that overlapping uploads, a teardown or a DELETE during an upload have made dirty it fixes the list and the order of events, but the contents a GET returns only if the last upload of that file had it to itself and is over, because the code does not.
- EndToEnd.RoundTrip: asks that nobody else opens, lists, deletes or tears down the name from the PUT's open to the GET's fetch, or truncates its file until the GET's end, because the code writes in place; so does EndToEnd.RoundTripCompletes.
- Liveness.NoLostWakeup: excludes stranded replies and muffled headers, because the code does lose those wake-ups.
