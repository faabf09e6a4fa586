# rs9p and unpfs: a verified model

This project models the 9P2000.L server library `rs9p` and the file server `unpfs` built on it, and proves what
they promise of each other and of their clients.

- **The wire.** `Bytes`, `Utf8` and `Grammar` describe how single fields become bytes and are read back, casts,
  flag truncation and ignored words included. `Fcall` and `Messages` give the 57 messages and their layouts,
  `Codec` puts them together, `RoundTrips` says which messages survive and which bytes are read as which message,
  and `Serialize` is the code itself: writers that append and count, readers that advance. `WireBytes` writes the
  bytes of every message out, `Rejects` says which bytes are not read and why, and `Framing` is the length-delimited
  stream around it all.
- **One connection.** `FidTable` is one request against the table of fids, as a class that updates the table in
  place and as a function. `Connection` is the server as a state machine: one task per request, the table under a
  readers-writer lock, the output under a mutex, every lock step and every piece of a frame a step of its own, and
  handlers that return what they like. `Safety` holds its invariants, `Runs` what they mean for whole runs,
  `Progress` that nothing gets stuck and every request is answered, `Replies` what the client then reads, and
  `Serializability` when interleaved requests look as if they were served one at a time. `Schedules` builds
  particular runs, with which `Conflicts` shows that the condition is exact.
- **The file server.** `Walk`, `ReadDir` and `FileIo` specify walking with a depth limit, paging through a
  directory, and positional reads and writes over one cursor; `Unpfs` holds the handlers that do it in place; and
  `UnpfsRuns` and `UnpfsWalks` put those handlers, taken apart into single reads and writes of fid fields, under
  the interleavings of a connection. `Creation` is a run that shows why creating files is set apart there.

`dafny verify dfyconfig.toml` checks everything.

Where the code and what is written about it differ, the model follows the code:

- a successful `TRemove` leaves the fid in the table, and a clunk whose handler fails leaves it there too;
- a partial walk succeeds and binds the new fid at a path that ends in the name that was not found;
- `TVersion` does not clear the table, and a `TAttach` does not look up its `afid`;
- a directory reply is written with a count of bytes and read with a count of entries;
- the qids of `.` and `..` on the first page of a directory are those of the server's working directory and its
  parent, not of the directory that is read (they are parameters of the model, `ReadDir.Dir`);
- two clunks of one fid that overlap can both succeed (`Conflicts.ClunksMayBothSucceed`): requests look as if they
  were served one at a time in every run exactly when the client keeps conflicting requests apart
  (`Conflicts.DisciplineIsExact`).

Four more of the promised properties hold only under a condition, which is stated on the inputs and proved exact:

- walking twice equals walking once (`Walk.WalkComposition`);
- the depth of a fid is that of its deepest suffix, for every limit but the largest 64-bit value (`Walk.LimitIsExact`);
- a page keeps to its budget exactly when the first entry that does not fit by true sizes is noticed in 32 bits
  (`ReadDir.PageFits`). For entries of less than 2^32 - 51 bytes that is when the page and this entry stay below 2^32
  bytes together (`ReadDir.NoticedBelowSpan`). A directory with less than that left to list always fits;
  `ReadDir.OverBudget` is one of 2^27 short names that does not;
- paging with one count reaches the end of a directory (`ReadDir.PagingStopsAtTooBig`), where it is assumed that no
  32-bit sum lets an entry through that is larger than the count. Only an entry of more than 2^31 bytes could be
  (`ReadDir.SumsMayWrap`), and no system lists such names.

That the pages tile the directory does not depend on 32-bit sums (`ReadDir.PagingIsExact`).

## Model

| member | source | states |
|---|---|---|
| Bytes.ByteOf | crates/rs9p/src/serialize.rs:149-168 | the least significant byte of an integer comes first: byte `i` is the digit of 256^i |
| Bytes.LittleEndian | crates/rs9p/src/serialize.rs:149-168 | the same for two, four and eight bytes, byte by byte |
| Utf8.ValidIsEncoded | crates/rs9p/src/serialize.rs:537-543 | the bytes accepted as a string are exactly the encodings of sequences of Unicode scalar values |
| WireBytes.OpenOnTheWire | crates/rs9p/src/serialize.rs:326-506 | the bytes of each message, number, tag and fields in order: errors, file system statistics, open and create |
| WireBytes.NodeOnTheWire | crates/rs9p/src/serialize.rs:326-506 | the bytes of each message, number, tag and fields in order: symlink and mknod |
| WireBytes.RenameOnTheWire | crates/rs9p/src/serialize.rs:326-506 | the bytes of each message, number, tag and fields in order: rename and readlink |
| WireBytes.AttrOnTheWire | crates/rs9p/src/serialize.rs:326-506 | the bytes of each message, number, tag and fields in order: attributes, with the four reserved words |
| WireBytes.XattrOnTheWire | crates/rs9p/src/serialize.rs:326-506 | the bytes of each message, number, tag and fields in order: extended attributes |
| WireBytes.DirOnTheWire | crates/rs9p/src/serialize.rs:326-506 | the bytes of each message, number, tag and fields in order: directories and fsync |
| WireBytes.LockOnTheWire | crates/rs9p/src/serialize.rs:326-506 | the bytes of each message, number, tag and fields in order: locks |
| WireBytes.LinkOnTheWire | crates/rs9p/src/serialize.rs:326-506 | the bytes of each message, number, tag and fields in order: link and mkdir |
| WireBytes.AtOnTheWire | crates/rs9p/src/serialize.rs:326-506 | the bytes of each message, number, tag and fields in order: renameat and unlinkat |
| WireBytes.SessionOnTheWire | crates/rs9p/src/serialize.rs:326-506 | the bytes of each message, number, tag and fields in order: version and auth |
| WireBytes.AttachOnTheWire | crates/rs9p/src/serialize.rs:326-506 | the bytes of each message, number, tag and fields in order: attach and flush |
| WireBytes.WalkOnTheWire | crates/rs9p/src/serialize.rs:326-506 | the bytes of each message, number, tag and fields in order: walk and read |
| WireBytes.FidOnTheWire | crates/rs9p/src/serialize.rs:326-506 | the bytes of each message, number, tag and fields in order: write, clunk and remove |
| WireBytes.RepliesAreOdd | crates/rs9p/src/fcall.rs:607-655 | the messages that a server may send are those with odd numbers |
| Grammar.DecReads | crates/rs9p/src/serialize.rs:513-674 | what a field decoder accepts is a spelling of the value it returns, as long as that value's own encoding, and it leaves the rest |
| Grammar.DecAccepts | crates/rs9p/src/serialize.rs:513-674 | every spelling of a value is accepted and read as that value, whatever follows |
| Grammar.RoundTrip | crates/rs9p/src/serialize.rs:143-324 | encoding a field and decoding it gives it back exactly when lengths survive their casts, strings are UTF-8 and flags are defined |
| Grammar.SpellingIsWellFormed | crates/rs9p/src/serialize.rs:10-18 | what can be read, outside a directory payload, can be written and read again at the same length |
| Grammar.OneSpelling | crates/rs9p/src/serialize.rs:513-674 | where a reader keeps every bit, a value is read from its own encoding only |
| Grammar.CountSurvives | crates/rs9p/src/serialize.rs:170-176 | a length cast to its prefix and written in front of a payload reads back as its low bits |
| Rejects.NoShorterMessage | crates/rs9p/src/serialize.rs:676-887 | bytes that are a whole message, cut anywhere, are not read as a message but found too short |
| Rejects.UnknownTypes | crates/rs9p/src/serialize.rs:676-887 | a message is rejected for its type exactly when that is not one of the 57 numbers and its tag is there |
| Rejects.BadText | crates/rs9p/src/serialize.rs:537-543 | a string that is not UTF-8 is rejected for that |
| Rejects.LowBitsKept | crates/rs9p/src/serialize.rs:15-17 | a flag word written is read back as its bits below the limit of its mask |
| RoundTrips.MsgRoundTrip | crates/rs9p/src/serialize.rs:326-506 | for all 57 messages and any bytes that follow, decoding the encoding returns the message and leaves those bytes, exactly when the message is faithful |
| RoundTrips.FaithfulFields | crates/rs9p/src/serialize.rs:326-506 | faithful means: strings and vectors at most 65535 long, data below 2^32 bytes, valid UTF-8, only defined flag bits, and a directory payload whose byte count happens to be its number of entries |
| RoundTrips.DecodingReadsSpellings | crates/rs9p/src/serialize.rs:676-887 | the decoder reads a message from bytes exactly when they start with its type, its tag and a spelling of its body, which differs from the encoding in undefined flag bits, reserved words and directory counts only |
| RoundTrips.DecodingCanonicalises | crates/rs9p/src/serialize.rs:10-18 | whatever is decoded, other than a directory reply, is faithful, re-encodes to as many bytes as were read and decodes to itself; and where no bit is dropped the bytes read are the encoding |
| RoundTrips.PayloadCount | crates/rs9p/src/fcall.rs:478-480 | the size the code computes for a directory payload is its number of bytes modulo 2^32 |
| RoundTrips.DirectoryCount | crates/rs9p/src/serialize.rs:261-272 | below 2^32 bytes the count in a directory reply is the exact number of bytes after it |
| RoundTrips.DirectoryPayload | crates/rs9p/src/serialize.rs:252-272 | a reader bounded by bytes gets the entries back from those bytes |
| RoundTrips.OwnReaderFailsOnDirectories | crates/rs9p/src/serialize.rs:622-631 | the code's own reader, which takes the count for a number of entries, fails on the encoding of every non-empty directory reply below 2^32 bytes |
| RoundTrips.OnlyEmptyDirectoriesSurvive | crates/rs9p/src/serialize.rs:622-631 | below 2^32 bytes a directory reply is faithful exactly when it is empty |
| Codec.FieldsOfBuilt | crates/rs9p/src/serialize.rs:676-887 | the message built from decoded field values has their type and these fields, for every message number |
| Codec.BuiltOfFields | crates/rs9p/src/serialize.rs:326-506 | the fields of a message build that message again |
| Serialize.Encoder.Count | crates/rs9p/src/serialize.rs:52-57 | after each field the encoder's byte count is the number of bytes that its fields have put into the writer |
| Serialize.EncodeString | crates/rs9p/src/serialize.rs:170-176 | appends the length cast to 16 bits and then every byte, however long the string; returns the bytes appended |
| Serialize.EncodeData | crates/rs9p/src/serialize.rs:274-281 | appends the length cast to 32 bits and every byte; returns the bytes appended |
| Serialize.EncodeNames | crates/rs9p/src/serialize.rs:314-324 | the loop appends the count cast to 16 bits and each string; returns the bytes appended |
| Serialize.EncodeQIds | crates/rs9p/src/serialize.rs:314-324 | the same for a vector of qids |
| Serialize.EncodeDirents | crates/rs9p/src/serialize.rs:261-272 | the loop appends the byte count and each entry; returns the bytes appended |
| Serialize.EncodeStat | crates/rs9p/src/serialize.rs:215-234 | appends the eleven attributes in order; returns the bytes appended |
| Serialize.EncodeFlock | crates/rs9p/src/serialize.rs:283-297 | appends the six lock fields in order; returns the bytes appended |
| Serialize.EncodeMsg | crates/rs9p/src/serialize.rs:326-506 | appends exactly the encoding of the message and returns the number of bytes appended, for every message, lengths that do not fit included |
| Serialize.ReadExact | crates/rs9p/src/serialize.rs:20-23 | takes the bytes asked for, or fails when there are fewer |
| Serialize.Decoder.TakeU64Flags | crates/rs9p/src/serialize.rs:15-17 | reads a flag word and drops its undefined bits |
| Serialize.DecodeString | crates/rs9p/src/serialize.rs:537-543 | reads a counted string, failing on too few bytes and on bytes that are not UTF-8 |
| Serialize.DecodeNames | crates/rs9p/src/serialize.rs:665-674 | the loop reads as many strings as counted and stops at the first that fails |
| Serialize.DecodeDirents | crates/rs9p/src/serialize.rs:622-631 | the loop reads as many entries as the count says, taking it for a number of entries |
| Serialize.DecodeStat | crates/rs9p/src/serialize.rs:580-596 | reads the eleven attributes in order, or fails where the field decoders fail |
| Serialize.DecodeMsg | crates/rs9p/src/serialize.rs:676-887 | reads exactly what the decoding function reads, leaves exactly what it leaves and fails exactly as it fails, an unknown type after the tag included |
| Framing.FrameCounts | crates/rs9p/src/srv.rs:730-742 | a frame is its own length in four bytes, these included, and the body; a body fits exactly when that length survives the cast |
| Framing.FirstFrameIs | crates/rs9p/src/srv.rs:730-742 | a body is read exactly from bytes that start with its frame; a length below four is an error, and too few bytes give nothing |
| Framing.DeframeFrames | crates/rs9p/src/srv.rs:730-742 | splitting a stream of frames by their length fields gives the bodies in order and leaves an unfinished frame alone |
| Framing.ReadRequests | crates/rs9p/src/srv.rs:744-747 | the read loop takes one message from the front of each frame and ends at the first frame or message that cannot be read |
| Framing.RequestsOfEncodings | crates/rs9p/src/srv.rs:744-747 | a stream that starts with framed faithful messages is read as those and then as the rest is, which is as nothing exactly when it starts with no whole frame or one that cannot be decoded |
| Framing.RestOfFrameIgnored | crates/rs9p/src/srv.rs:744-747 | bytes after the message in its frame are ignored |
| FidTable.LookupBound | crates/rs9p/src/srv.rs:668-669 | lookups succeed exactly when every fid is bound and return the bindings in order; otherwise `EBADF` |
| FidTable.LookupAgreement | crates/rs9p/src/srv.rs:668-702 | except for `TAttach`, the handler runs exactly when all of `fids()` are bound; the new fid is never missing, so no lookup ends in `EPROTO` |
| FidTable.FileHandlersGet | crates/rs9p/src/srv.rs:673-679 | the objects that each handler gets, in order, or `EBADF`: file messages |
| FidTable.AttrHandlersGet | crates/rs9p/src/srv.rs:680-685 | the same for attribute and directory messages |
| FidTable.LinkHandlersGet | crates/rs9p/src/srv.rs:686-691 | the same for locks and links: `TLink` and `TRenameAt` get the directory, or the old one, first |
| FidTable.SessionHandlersGet | crates/rs9p/src/srv.rs:692-695 | session messages get nothing from the table |
| FidTable.IoHandlersGet | crates/rs9p/src/srv.rs:696-701 | the same for walks, reads, writes, clunks and removes |
| FidTable.ProcessIs | crates/rs9p/src/srv.rs:667-718 | what each request does to the table: a walk, an attribute walk, an authentication or an attach that succeeds binds its new fid to its own object, a clunk unbinds its fid, and nothing else changes |
| FidTable.WalkKeepsSource | crates/rs9p/src/fcall.rs:985-993 | a walk to another fid binds that one and leaves its source bound as it was |
| FidTable.Server.Lookups | crates/rs9p/src/srv.rs:672-702 | for every message, the objects that its handler gets or the error that takes its place |
| FidTable.Server.DispatchOnce | crates/rs9p/src/srv.rs:652-719 | one request alone: what it looks up, what becomes of it, and the new table: a clunked fid removed or a new one bound after success, unchanged after failure |
| Safety.InvStep | crates/rs9p/src/srv.rs:652-785 | every step keeps the locks exclusive, the snapshots current, the table the fold of its log, and the wire a sequence of frames |
| Safety.InvRun | crates/rs9p/src/srv.rs:652-785 | so does every run |
| Runs.TableIsCommitLog | crates/rs9p/src/srv.rs:704-718 | in every reachable state the table is its commit log applied in order; the log has one entry for each successful request that changes the table and no other; every binding was made by one such request |
| Runs.CommitPrecedesReply | crates/rs9p/src/srv.rs:707-718 | when the reply of a successful request is on the wire its change is in the log, and the table shows it unless a later entry concerns the same fid |
| Runs.LaterRequestsSeeChange | crates/rs9p/src/srv.rs:707-718 | a request received after that reply looks up the object that was bound, or gets `EBADF` after a clunk, unless another change to that fid was made in between, before its lookup |
| Runs.SnapshotSafety | crates/rs9p/src/srv.rs:667-705 | from any state in which a task is in its handler, over any steps until it returns, the table does not change and what it looked up is what the table says |
| Runs.WireIntegrity | crates/rs9p/src/srv.rs:768-781 | without write failures the output is whole frames, one per reply in the order sent, and a part of one more; splitting it by length gives exactly the encodings of the replies |
| Runs.ClientReadsReplies | crates/rs9p/src/srv.rs:768-781 | a client that splits and decodes the output gets each reply, exactly when that reply is faithful |
| Replies.RepliesTell | crates/rs9p/src/srv.rs:751-765 | in every run without write failures the reply to a request, decoded from its frame, is the error its handler returned, the message its handler returned, `RlError` 9 if a fid it looked up was not bound then, or `RlError` 95 if it was no request |
| Replies.GivenUp | crates/rs9p/src/srv.rs:761-781 | a finished request is dropped without a reply exactly when its handler returned a message that is no reply or that no frame can hold |
| Replies.NothingAfterClose | crates/rs9p/src/srv.rs:744-747 | once the input has ended nothing more is received |
| Runs.Conservation | crates/rs9p/src/srv.rs:744-785 | as multisets, the tags of requests are those of replies, of requests in flight and of requests given up; no request is answered twice and each reply has its request's tag |
| Runs.TagsByPhase | crates/rs9p/src/srv.rs:744-785 | those multisets, by the phases that requests are in |
| Runs.AllTagsCounts | crates/rs9p/src/srv.rs:744-785 | and the tags of some messages are the multiset of the sequence of their tags |
| Progress.NeverStuck | crates/rs9p/src/srv.rs:652-785 | while a request is unfinished, a step that serves one is enabled, whatever its handler returns and without a write failure |
| Progress.StepCountsDown | crates/rs9p/src/srv.rs:652-785 | every step that serves a request lowers a measure |
| Progress.CanFinish | crates/rs9p/src/srv.rs:652-785 | from every reachable state all requests received can be brought to an end |
| Progress.OneReplyForEach | crates/rs9p/src/srv.rs:744-785 | with handlers that return replies or errors and a writer that works, a run that cannot go on has answered every request once, with its tag |
| Progress.InputToOutput | crates/rs9p/src/srv.rs:744-785 | from bytes to bytes: if the requests received are those that begin the input, the output of such a run splits into whole frames that carry the tags of those requests, once each |
| Serializability.ConditionalSerializability | crates/rs9p/src/srv.rs:652-719 | with fixed handler outcomes and a client that sends nothing that conflicts with a request it has no answer to, every interleaving gives each request the lookups and the result, and in the end the table, of serving the requests one at a time in arrival order |
| Conflicts.ConflictIsSeen | crates/rs9p/src/srv.rs:707-716 | for any two conflicting requests and any results of theirs that succeed, there is a run from the start, by a client disciplined but for sending the second while the first is unanswered, whose lookups, results or table are not those of serving in arrival order |
| Conflicts.DisciplineIsExact | crates/rs9p/src/srv.rs:652-719 | a client may send one request while another is unanswered and see its requests served in arrival order in every run, exactly when the two do not conflict |
| Conflicts.ConflictsAreExact | crates/rs9p/src/srv.rs:707-716 | two requests, each served on its own, can be served in either order on any table and with any handler results, exactly when neither creates or removes a fid that the other uses, creates or removes |
| Conflicts.ClunksMayBothSucceed | crates/rs9p/src/srv.rs:704-710 | from the start, a client that attaches a fid and clunks it twice without waiting can see both clunks succeed, although in arrival order the second always fails |
| Walk.WalkOutcome | crates/unpfs/src/main.rs:90-149 | exactly what a walk gives: the whole path with all qids; `ELOOP` when the first name that stops it goes too deep; the error of a missing first name; or success up to and including a later missing name. With no names it clones path and depth |
| Walk.StepByBytes | crates/unpfs/src/main.rs:107-121 | a walk of one name that is found, by its bytes: two dots lower the depth, not below zero, one dot keeps it, any other name raises it by one, or fails with 40 at the limit |
| Walk.QIdsInOrder | crates/unpfs/src/main.rs:123-140 | the qids of a walk are those of its longer and longer paths, in order |
| Walk.WalkComposition | crates/unpfs/src/main.rs:90-149 | two walks give the path, depth, qids and errors of one walk over both exactly when one is empty, or the first goes too deep or misses its first name, or finds all its names and the second goes too deep or finds its first name |
| Walk.DepthIsDeepestSuffix | crates/unpfs/src/main.rs:109-121 | after any chain of whole or partial walks from the root, the stored depth is the largest net descent of any suffix of the names on the path, so the limit bounds every suffix |
| Walk.DeepestSnoc | crates/unpfs/src/main.rs:110-121 | one more name moves that closed form exactly as it moves the saturating counter |
| Walk.LargestLimitWraps | crates/unpfs/src/main.rs:109-121 | with the limit at the largest 64-bit value, after walks from the root of one plain name each that is found, the depth is their number modulo 2^64, and the deepest suffix exactly when there are fewer than 2^64 |
| Walk.LimitIsExact | crates/unpfs/src/main.rs:109-121 | the depth after every chain of walks from the root is that of its deepest suffix exactly when the limit is not the largest 64-bit value |
| Unpfs.FileServer.RAttach | crates/unpfs/src/main.rs:68-88 | puts the fid at the root at depth zero, even when the root cannot be found |
| Unpfs.FileServer.RWalk | crates/unpfs/src/main.rs:90-149 | the loop gives what the specification of a walk gives; the new fid is updated on success only |
| Unpfs.FileServer.RlCreate | crates/unpfs/src/main.rs:287-314 | moves the fid to the created file with that file open, leaves its depth, and changes nothing on failure |
| Unpfs.FileServer.RReadDir | crates/unpfs/src/main.rs:237-264 | the loop gives the specified page or error |
| Unpfs.FileServer.RRead | crates/unpfs/src/main.rs:316-329 | answers the bytes of the file from the requested offset on, at most `count`, leaves the contents alone and the cursor after the bytes read; `EINVAL` without an open file |
| Unpfs.FileServer.RWrite | crates/unpfs/src/main.rs:331-340 | puts what the system takes of the data at the requested offset, changes no other byte but for zeros in a gap, and answers how much |
| ReadDir.PageIsGreedy | crates/unpfs/src/main.rs:237-264 | a page is `.` and `..` if it is the first, then the entries after the offset for as long as they fit by their true sizes, exactly when it ends at the end of the directory or the true size with the next entry exceeds `count` modulo 2^32 too |
| ReadDir.PageFits | crates/unpfs/src/main.rs:253-261 | under exactly that condition a page takes at most `count` bytes, or 51 if it is the first and that is more, and the whole frame 11 bytes more, which is within the room kept for its header |
| ReadDir.NoticedBelowSpan | crates/unpfs/src/main.rs:256-258 | for entries of less than 2^32 - 51 bytes the condition is that the page with the first entry that does not fit has less than 2^32 bytes |
| ReadDir.SmallDirectoriesFit | crates/unpfs/src/main.rs:253-261 | it is met, whatever the count, when less than 2^32 bytes are left to list |
| ReadDir.PageAdvances | crates/unpfs/src/main.rs:240-261 | the offset of the last entry of a page is past the offset asked for and within the directory, whatever the count |
| ReadDir.PageFails | crates/unpfs/src/main.rs:240-253 | which error a page is: that of `.`, of `..`, of opening the directory, or of the entry that ends it |
| ReadDir.EntriesAt | crates/unpfs/src/main.rs:252-260 | the entries of a page have the names and qids that the directory lists, offsets from 2 on, and type 0 |
| ReadDir.PagingIsExact | crates/unpfs/src/main.rs:237-264 | when every request has room for the largest entry, whatever its 32-bit sums do, the pages together are `.`, `..` and every entry of the directory once, in order, with its name, its qid and its offset; and then a page is empty |
| ReadDir.PagingStopsAtTooBig | crates/unpfs/src/main.rs:253-261 | with one count, paging gives the entries before the first that is larger, unless a 32-bit sum lets that one through, and is complete exactly when there is none |
| ReadDir.SumsMayWrap | crates/unpfs/src/main.rs:256-258 | where the paging result ends: sizes, larger than any system lists, for which the 32-bit sum wraps and a page takes an entry larger than its count |
| ReadDir.LargestCountNeverStops | crates/unpfs/src/main.rs:256-258 | with the largest count the 32-bit test never ends a page, however large |
| ReadDir.LargestCountOverruns | crates/unpfs/src/main.rs:256-258 | so that page is all that is left, and over its budget exactly when that is 2^32 bytes or more |
| ReadDir.OverBudget | crates/unpfs/src/main.rs:256-258 | a directory of 2^27 names of eight bytes whose first page takes 2^32 + 51 bytes for a count of 2^32 - 1 |
| FileIo.ReadBack | crates/unpfs/src/main.rs:316-340 | reading as many bytes as were written, from the offset they were written at, gives those bytes |
| FileIo.WritesCommute | crates/unpfs/src/main.rs:331-340 | writes to bytes that do not overlap can be made in either order |
| FileIo.PositionalHistory | crates/unpfs/src/main.rs:316-340 | over every interleaving of reads and writes the contents and all answers are those of the operations alone, one after the other in the order in which they took the mutex |
| FileIo.ReadsAreSlices | crates/unpfs/src/main.rs:316-329 | every read that succeeds answers, byte by byte from its own offset and no more than its count, the contents that the writes before it made |
| FileIo.WritesLand | crates/unpfs/src/main.rs:331-340 | every write that succeeds has put as many of its first bytes as it answers at its own offset, and changed no other byte but for zeros in a gap |
| UnpfsRuns.DepthLimit | crates/unpfs/src/main.rs:68-149 | in every state that any interleaving of handlers and connection reaches, every bound fid is at most `max_depth` deep, and no walk about to be made wraps its counter at a name it can get to |
| Walk.NextDoesNotWrap | crates/unpfs/src/main.rs:109-121 | while no name goes too deep the counter is within the limit and the next increment is exact |
| UnpfsRuns.SourceIsBound | crates/rs9p/src/srv.rs:667-716 | the object a handler works from is the one bound to its fid at that moment, made by a request that has succeeded |
| UnpfsRuns.HandlersCanRead | crates/unpfs/src/main.rs:96-104 | so a handler that needs an object never lacks it |
| UnpfsRuns.BoundFidsArePlaced | crates/unpfs/src/main.rs:68-149 | in every state that any interleaving without file creation reaches, every bound fid lies under the root at the depth of its deepest suffix, although path and depth are read and stored one at a time; a fid bound by an attach is at the root |
| Creation.CreationKeepsDepth | crates/unpfs/src/main.rs:287-314 | a run in which a fid is attached and a file created in it, at whose end the fid is not at the depth of its deepest suffix |
| UnpfsWalks.WalksStartAtTheirSource | crates/unpfs/src/main.rs:90-149 | in such a state a walk that has succeeded has made an object with the path, depth and qids that walking from its source gives in the file system that its own search met, and the source is another object, still as it was |
| UnpfsWalks.StableWalks | crates/unpfs/src/main.rs:90-149 | over a file system that does not change, these are the path, depth and qids of walking from the source in it |
| UnpfsWalks.FailedWalks | crates/unpfs/src/main.rs:90-149 | a walk that has failed in its handler has failed with the error that walking from its source gives in the file system that its own search met |
| UnpfsWalks.SelfWalkRebinds | crates/rs9p/src/srv.rs:661-716 | a walk of a fid onto itself binds the fid to the new object once it has succeeded, and changes no binding when it fails |

## Left out

- Sockets, listeners, logging, command-line handling and the string tables of errors: no property of their own.
- tokio's `RwLock` and `Mutex`: taken as guards on steps, without fairness; `LengthDelimitedCodec`: only the configured frame layout and the 32-bit length, not its limit on frame sizes.
- The generic `Encodable`, `Decodable`, `<<` and `>>`: written out for the types that messages use; a writer in memory never fails.
- Allocation: a `read_exact` of a large count, or `vec![0; count]`, always succeeds.
- Debug builds: 32-bit and 64-bit sums wrap as they do in release builds.
- Strings are UTF-8 bytes, flag sets are their bits, and every mask of defined flags is a run of low bits, so truncating to it is a modulus.
- System calls: a function from paths to qids or directories, or a parameter that says how a call turned out; `rgetattr`, `rsetattr`, `rmkdir`, `runlinkat`, `rrenameat`, `rlopen` and `rstatfs` are sequences of such calls.
- `PathBuf`: a path is the list of names pushed; names with slashes and absolute names are not distinguished.
- tokio's buffering of file writes and errors that it reports late; other writers of the same file.
- Authentication and flush: the code passes no `afid` and no flushed request to its handlers.
- The older 9P2000 types, `parse_proto`, and the conversions from `Metadata` and `Statvfs`.
- Runs.WireIntegrity: says nothing after a write has failed, because what reached the wire is then unknown.
- UnpfsRuns.BoundFidsArePlaced: excludes file creation, because `rlcreate` moves a fid and keeps its depth (`Creation.CreationKeepsDepth`); `UnpfsRuns.DepthLimit` includes it.
- UnpfsWalks.WalksStartAtTheirSource: excludes file creation, which may move the source after the walk.
- UnpfsWalks.StableWalks: excludes file creation too.
- UnpfsWalks.FailedWalks: excludes file creation too.
