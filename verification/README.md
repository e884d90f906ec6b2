# A verified model of the client's work storage, clock, cruncher control and codecs

The distributed.net client, in the variant that also reads and writes the
files of the Moo! Wrapper, moves work records between files, memory and cruncher
threads.  This project models the parts of `dnetc-client-base/common` in which a
mistake would lose, duplicate or garble work, and proves what they promise.

* **Records and files** (`Words`, `Moo521`, `WorkRecords`, `Slots`,
  `BufferFiles`, `BufferDisk`, `BufferRuns`, `FileSteps`).  A file is a sequence
  of 32-bit words; every structure the client stores is a whole number of them.
  Two formats are modelled to the word: stock files, slots of 42 words of which
  the all-zero ones are free, and Moo files, a header of 8 words and enciphered
  packets of 44.  The class `BufferDisk` holds the files and the sticky flag that
  makes new files Moo files once one was seen.
* **Buffers** (`BufferNames`, `MemBuffer`, `Routing`, `BufferStore`, `Walk`,
  `CrossSave`, `MemoryRuns`).  Stacks in memory or files on disk, two for each of seven
  contests, and the routing of records by contest and result, including the
  cross-saving of misplaced ones and how far a search for a record goes.
* **Transfers** (`Transfers`, `Import`, `AliasedImport`, `Fetch`, `Flush`,
  `Checkpoint`).  Import, fetch, flush and recovery from a checkpoint after a
  crash.  Their accounts are kept over all fourteen buffers and the other file.
* **Clock** (`Times`, `Clock`, `WrapCounter`).  The conversion of a wrapping tick counter,
  and the wrap counter under its spinlock in every interleaving of threads.
* **Crunchers** (`Timeslice`, `SlidingAverage`, `Crunchers`, `Handshake`).  The
  timeslice controllers in 32-bit arithmetic, and the suspend and exit protocol
  in every interleaving.
* **Codecs** (`Base64`, `Base64Decoder`, `TimeString`; `Characters` for the
  character classes).

`dafny verify dfyconfig.toml` checks everything.

## How to read the contracts

I/O errors and failed allocations are choices of the environment.  They are
counted (`faults`), so that a contract can say what holds without
them and what holds anyway.  An exit request may come at every test for one.

`Records(f)` are the live records of a file in order, `Readable(f)` the same as a
reader gets them: reading a Moo packet forces its result to "working".
`Homogeneous(f)` says that a file is empty, a whole number of stock slots, or a
Moo header and exactly as many packets as it announces.  `Adds(before, r, after)`
says that `after` is `before` with `r` at one more place.

The buffers are a class, `BufferStore`; what a method does is a predicate over
two values of the datatype `Status`, which holds all that the buffers are: the
records each would hand out, the files, the flags, the number of faults and the
capacity of the in-buffer's stack.  So the contract of a method reads `TakenFrom(old(s.Now()), .., s.Now())`, and what that
means is proved in lemmas about such pairs.

`Accounted(before, after, dropped, handed, forgot)` is conservation, exact to the
word in memory and on disk: the bag of all records before is the bag of all
records after, those handed out, those listed as dropped and those listed as
forgotten, except that the forgotten ones are still there with their result
forced to "working".  That happens to finished records that land in a Moo file and
to nothing else, and every contract that has a `forgot` says when it is empty.

`TakenOut(mem, held, left)` is what was taken, in the order in which it was, from a
buffer that held `held` and has `left` records left: a stack gives from its top, a
file from its head.  `AtHomeIn(s, j)` are the records of `s` that belong in buffer
j, in order, and `Strays(s, i)` those that do not belong in i.  `Gains` says that a
buffer has what it had and those that came in, a stack behind what it had and in
order, a file as a bag in which forgotten results have the form in which they
landed; `Spread` and `Spreads` say so of all buffers but those that take no part.

The transfers return a ghost `Toll(dropped, forgot, fits)`.  `fits` says that each
record could be stored without breaking the format of its file, and it is
derived, not assumed, from a condition on the state before the call: `Tame`,
`Fetchable`, `Flushable` and `Restorable` say that files have a single format,
that keys are real RC5-72 keys (72 bits, so the first word is below 256) and that
enough packet numbers are left below the limit of 0xFFFFFF.

## What is not as the code or its comments suggest

* A Moo file is truncated by the next read, packets and all, exactly if its header
  counts none of its live packets (`TruncatesLiveExactly`); so if the header does
  not parse, or after the file grew past 0xFFFFFF packets (`BadHeaderLosesPackets`,
  `PutWithoutRoom`).
* The check for identical prefixes compares them before white space and defaults
  are dealt with, so clients pass it whose in- and out-buffers are the same files,
  and two equal blank prefixes do not although they name different ones
  (`CheckExactly`, `CheckIsFooled`).
* The Moo flag is sticky and not per contest; a record survives storage in an
  empty file if and only if it suits the format the flag selects
  (`StickyModeDecides`).
  Results stored in a Moo out-buffer are never flushed, because they are read
  back as unfinished: a flush makes fresh work of them in the in-buffer
  (`FlushFile`).  A result that a flush cannot deliver is forgotten on its way back
  exactly if the flag is on, the remote file is a non-empty stock file that is
  refused, and taking the result truncates the out-buffer; `FlushFile` says so of
  the state before the flush, `AResultIsForgotten` of a concrete one.
* Recovery of a checkpoint works exactly if the checkpoint was written as a Moo
  file or this build accepts stock files as remote buffers, and the prefixes of the
  buffers differ.  It does not accept them, and a stock checkpoint, refused by the
  import, is then truncated: the saved work is lost (`CrashAndRecover`).
* Importing the client's own Moo in-buffer never ends if it holds one record,
  loses one if it holds more, and ends well exactly if it is empty
  (`OneRecordNeverEnds`, `MoreRecordsLoseOne`, `EndsWellIfEmpty`).
* A Moo file that cannot be opened for writing reads as one without records
  (`GetMooRecord`).  An import that has imported something treats any failure to
  read on as the end of its source and truncates it, with the records still in it;
  they are listed as dropped (`ImportFileRecords`).
* The growth guard of a fetch also stops a fetch that is not looping: exactly
  when its first five transfers went into packets that were blank before
  (`FetchFile`).  The shrink guard of a flush fires only when the remote file is
  the out-buffer itself, and then exactly at the fifth transfer; a build that
  refuses stock files never gets that far (`FlushFile`).
* A file's count is per contest, so a search of a file stops at the last record of
  a contest and reports nothing although wanted records follow (`GetsIfInSight`
  says exactly when; `TwoHideTheThird` is a file where the head is not the one
  that hides).  For the same reason a flush leaves an out-buffer on disk empty if
  and only if all its records have one contest (`EndsEmptyExactly`).
* How much a fetch asks for is wrong for some buffers exactly if a hundred times the
  limit does not fit a word and what is left of it is below the threshold
  (`AskedExactly`).  A transfer without stats units into a buffer with some, or the
  other way round, is counted for what it does not add (`YieldIsGain`).
* A memory buffer that once grew to its largest capacity counts as full for a
  fetch for ever, whatever it holds (`IsBufferFull`, `FullForEver`), and a run
  exists that leaves it empty and full (`EmptyAndFull`).
* The wrap counter's lock is initialised by whoever finds the count unset, so two
  first callers can both be between lock and unlock (`RaceBreaksIn`); from any sane
  state mutual exclusion holds exactly if there is no second thread or nobody will
  set the lock up any more (`ExcludesExactly`).
* `CliClock` is exact for a base taken at wrap 0.  A later base can give a
  negative `tv_usec`; `LateBase` says exactly when.
* A run longer than 2^32 microseconds but shorter than 4295 seconds passes the
  comparison with 4294 seconds and wraps: it looks like a very fast one (`Shown`,
  `LongRunLooksFast`).
* The check whether all crunchers are suspended keeps a cruncher out of its next
  run exactly if that one is not already past its look at the flag
  (`CheckExcludes`).
* A clock that went back by almost 2^32 seconds, but not in its microseconds,
  shows as a short run (`RunTime`); the yield time added to a run time can wrap it
  (`AddYield`).
* With a hint, rounding makes a fast run shorten the slice exactly if it is above
  the rounded maximum, as the maximum itself is under a hint of 100
  (`RespondsRounded`, `RoundingShortens`).  A slow run can lengthen it too.
* A time string with the last hour that passes the check can be so long that the
  seconds wrap to a negative number (`ParsedIsTotal`).

## Model

| member | source | states |
|---|---|---|
| Words.XorTwice | dnetc-client-base/common/moo521.cpp:72 | exclusive or with the same word twice is the identity on 32-bit words, the reason the cipher can be undone |
| Words.XorIsBitwise | dnetc-client-base/common/moo521.cpp:72 | a bit of the exclusive or is set if and only if it is set in one of the two words and not in the other |
| Words.ComplementIsBitwise | dnetc-client-base/common/moo521.cpp:114 | the complement inverts each of the 32 bits |
| Words.ByteSwapReverses | dnetc-client-base/common/moo521.cpp:23-26 | swapping a word made of four bytes gives the word of the same bytes in reverse |
| Words.ByteSwapTwice | dnetc-client-base/common/moo521.cpp:23-26 | swapping the bytes of a word twice gives it back |
| Moo521.Checksum | dnetc-client-base/common/moo521.cpp:66-78 | the eight passes over the buffer compute the checksum of its contents |
| Moo521.Encipher | dnetc-client-base/common/moo521.cpp:105-119 | the in-place loop enciphers each of 43 words with its own key of the schedule and leaves the seed |
| Moo521.Encode | dnetc-client-base/common/moo521.cpp:100-120 | the packet written is the encoding of the record under the seed, checksum and seed included |
| Moo521.Decode | dnetc-client-base/common/moo521.cpp:80-98 | the record written is the decoding of the packet |
| Moo521.DecodeEncode | dnetc-client-base/common/moo521.cpp:80-120 | decoding an encoded record gives it back, for every record and seed, and seed and checksum can be read off the packet |
| Moo521.EncodeDecode | dnetc-client-base/common/moo521.cpp:80-120 | re-encoding a decoded packet under its own seed gives the packet back if and only if its stored checksum is right |
| Moo521.NeverBlank | dnetc-client-base/common/moo521.cpp:100-120 | with a seed other than 0 no record encodes to a blank packet |
| Moo521.CapturedPacket | test/moo521_codec_test.cpp:45-57 | the packet captured in the field has the seed EC9BF932, and the words where its work has zeros are decoded to zeros |
| Moo521.ChecksumStarts | dnetc-client-base/common/moo521.cpp:66-78 | after a first word of zero the checksum is B7E15163 less 61C88647 |
| Moo521.HeaderBytes | dnetc-client-base/common/moo521.cpp:39-64 | a header by its bytes: 83 B6 34 1A, 00 00 00 48 and the count with its highest byte first; that count is read if and only if these are there and its highest byte is 0, and such a header is written, with zeros behind |
| Moo521.HeaderRoundTrip | dnetc-client-base/common/moo521.cpp:39-64 | a written header is recognised, and its count is read back if and only if it is at most 0xFFFFFF |
| WorkRecords.SwitchByteOrder | dnetc-client-base/common/buffpub.cpp:382-452 | in place or not, the copy has its id cut short and its work words swapped, or contest 0xff if unsupported |
| WorkRecords.StoredBytes | dnetc-client-base/common/buffpub.cpp:402-413 | byte by byte: the twenty words of the work of an RC5-72 record are stored with their bytes reversed, the last byte of the id is cleared, and every other word is stored as it is |
| WorkRecords.SwitchTwice | dnetc-client-base/common/buffpub.cpp:402-405 | to disk and back is the identity up to the id terminator and the 0xff of unsupported contests |
| WorkRecords.StockRoundTrip | dnetc-client-base/common/buffpub.cpp:382-452 | a record survives to disk and back unchanged if and only if its id is terminated and its contest is RC5-72 or already 0xff |
| WorkRecords.StoredNotBlank | dnetc-client-base/common/buffpub.cpp:511-519 | no stored record can be mistaken for a blank slot |
| WorkRecords.RealKeyIsNoMagic | dnetc-client-base/common/buffpub.cpp:178-189 | a stored RC5-72 record with a key of 72 bits cannot be mistaken for a Moo header |
| WorkRecords.MooKeepsRecord | dnetc-client-base/common/buffpub.cpp:296-316 | a Moo packet preserves an RC5-72 record up to the id terminator, result included |
| WorkRecords.MooReadShape | dnetc-client-base/common/buffpub.cpp:263-281 | whatever a packet holds, what is read from it is RC5-72 work with a terminated id and result "working" |
| WorkRecords.MooReadBack | dnetc-client-base/common/buffpub.cpp:250-316 | writing and reading a packet gives the record with its id cut short and its result forced |
| WorkRecords.MooRoundTrip | dnetc-client-base/common/buffpub.cpp:250-316 | a record survives a Moo file unchanged if and only if it is terminated, RC5-72 and unfinished |
| WorkRecords.MooImageNotBlank | dnetc-client-base/common/buffpub.cpp:315-316 | no packet written can be mistaken for a blank one; each has FFFFFFFF for its last word |
| WorkRecords.UnitsOfKeys | dnetc-client-base/common/problem.cpp:2320-2326 | an RC5-72 record has one stats unit for each 2^32 keys of its 64-bit count, in hundredths and modulo 2^32 |
| Slots.WrittenWords | dnetc-client-base/common/buffpub.cpp:511-519 | a write at a position changes the words written and no other; beyond the old end the words before it are zero |
| BufferFiles.WritesWhere | dnetc-client-base/common/buffpub.cpp:490-510 | a stock Put writes a blank slot, the last one if a count is wanted and else the first, or behind all slots if none is blank |
| BufferFiles.StockPutAdds | dnetc-client-base/common/buffpub.cpp:485-530 | a stock Put adds exactly one record, keeps all others, and reports the number of live records |
| BufferFiles.StockPutOverwritesNothing | dnetc-client-base/common/buffpub.cpp:497-519 | a stock Put leaves every live slot as it was |
| BufferFiles.StockGetLowest | dnetc-client-base/common/buffpub.cpp:586-627 | a stock Get takes exactly the first live record; truncation when all is blank loses nothing; "no records" exactly for files without one |
| BufferFiles.MooPutAdds | dnetc-client-base/common/buffpub.cpp:296-357 | a Moo Put keeps the format, with a right count in the header, if and only if there is a blank packet or a number left, and then adds exactly one record |
| BufferFiles.MooPutCount | dnetc-client-base/common/buffpub.cpp:318-357 | what a Moo Put reports as count grows only if no packet was blank, else a blank one is used up |
| BufferFiles.MooGetLowest | dnetc-client-base/common/buffpub.cpp:534-584 | a Moo Get takes exactly the first live packet and keeps the header and the other packets; "no records" exactly for files without one |
| BufferFiles.MooGetBlanks | dnetc-client-base/common/buffpub.cpp:283-288 | a Moo Get leaves one more blank packet |
| BufferFiles.PutHomogeneous | dnetc-client-base/common/buffpub.cpp:457-530 | a Put into a file of one format keeps that format if and only if a stated guard holds: packet numbers left, or no stock record posing as a Moo header in front |
| BufferFiles.GetHomogeneous | dnetc-client-base/common/buffpub.cpp:534-627 | a Get keeps the format of a file, never finds it unreadable, and truncates only a file without records |
| BufferFiles.TruncatesLiveExactly | dnetc-client-base/common/buffpub.cpp:545-563 | a Get truncates a Moo file that holds live packets if and only if the header counts fewer packets than come before the first live one or just as many |
| BufferFiles.BadHeaderLosesPackets | dnetc-client-base/common/buffpub.cpp:545-563 | a Moo file whose header does not parse is truncated by the next Get whatever packets it holds |
| BufferFiles.PutWithoutRoom | dnetc-client-base/common/buffpub.cpp:332-343 | the Put after 0xFFFFFF live packets makes all of them unreachable, and the next Get truncates them |
| BufferDisk.ScanForBlankPacket | dnetc-client-base/common/buffpub.cpp:318-334 | the scan finds the first blank packet that can be read, or says to append |
| BufferDisk.ScanForBlankRecord | dnetc-client-base/common/buffpub.cpp:490-510 | the scan finds the slot to write, the first blank one or, when it counts to the end, the last, and the number of live slots |
| BufferDisk.ScanForRecord | dnetc-client-base/common/buffpub.cpp:591-615 | the scan finds the first live slot |
| BufferDisk.ScanForPacket | dnetc-client-base/common/buffpub.cpp:551-558 | the scan finds the first live packet that can be read, or that there is none, or that the file is too short for its header |
| BufferDisk.CountRecords | dnetc-client-base/common/buffpub.cpp:662-694 | the loop counts the live records of the contest and sums their stats units |
| BufferDisk.MooCountRecords | dnetc-client-base/common/buffpub.cpp:211-244 | the loop counts the live packets of the contest and sums their stats units |
| BufferDisk.BufferDisk.MooFileDetect | dnetc-client-base/common/buffpub.cpp:178-190 | answers whether the file starts with the magic, and if so switches the sticky flag on, and changes nothing else |
| BufferDisk.BufferDisk.MooFileMissing | dnetc-client-base/common/buffpub.cpp:196-204 | true exactly for files that are absent or empty |
| BufferDisk.BufferDisk.OpenStock | dnetc-client-base/common/buffpub.cpp:73-154 | opening creates a missing file, changes no other, and without an I/O error fails exactly for a refused remote flag or a broken length |
| BufferDisk.BufferDisk.ZapFileRecords | dnetc-client-base/common/buffpub.cpp:50-68 | truncates an existing file and creates none |
| BufferDisk.BufferDisk.MooWriteOneRecord | dnetc-client-base/common/buffpub.cpp:296-357 | writes the file and reports the count that the specification gives, header updated only when appending |
| BufferDisk.BufferDisk.PutFileRecord | dnetc-client-base/common/buffpub.cpp:457-530 | on success the file is the specified one and no other changed; on failure no record changed; failure without I/O error exactly if the file does not accept the record |
| BufferDisk.BufferDisk.PutMooRecord | dnetc-client-base/common/buffpub.cpp:460-483 | the Moo branch: on success exactly the specified file and count, on an I/O error nothing changed |
| BufferDisk.BufferDisk.PutStockRecord | dnetc-client-base/common/buffpub.cpp:485-530 | the stock branch: on success exactly the specified file and count, refused without an I/O error exactly for the remote flag or a broken length |
| BufferDisk.BufferDisk.GetMooRecord | dnetc-client-base/common/buffpub.cpp:538-564 | hands out and blanks the specified packet, or truncates, or leaves everything as it was; a file that cannot be opened for writing seems to have no records and is left as it was |
| BufferDisk.BufferDisk.GetStockRecord | dnetc-client-base/common/buffpub.cpp:586-619 | hands out and blanks the specified record, or truncates, or leaves all records as they were |
| BufferDisk.BufferDisk.GetFileRecord | dnetc-client-base/common/buffpub.cpp:534-627 | the specified outcome of the file's format and the count of records left of the same contest, all other files untouched |
| BufferDisk.BufferDisk.MooRecount | dnetc-client-base/common/buffpub.cpp:565-583 | the recount after a Get from a Moo file is the number of RC5-72 records left, or 0 if the file could not be read |
| BufferDisk.BufferDisk.StockRecount | dnetc-client-base/common/buffpub.cpp:620-625 | the recount after a Get from a stock file is the number of records left of the same contest, or 0 if the file could not be read |
| BufferDisk.BufferDisk.CountFileRecords | dnetc-client-base/common/buffpub.cpp:631-702 | packets and units of the contest among the live records of either format, without changing a record |
| BufferRuns.PutReadable | dnetc-client-base/common/buffpub.cpp:457-530 | a Put in either format makes exactly one more record readable, the one it was to be read back as |
| BufferRuns.GetReadable | dnetc-client-base/common/buffpub.cpp:534-627 | a Get in either format hands out the head of what is readable and leaves the tail |
| BufferRuns.RunConserves | dnetc-client-base/common/buffpub.cpp:457-702 | over every run of Puts, Gets and Counts on any files, each file keeps a single format, and what is readable plus all taken equals what was readable plus all given |
| BufferRuns.RealWorkFits | dnetc-client-base/common/buffpub.cpp:457-483 | every run that puts RC5-72 work with real keys meets the guards of RunConserves while packet numbers last |
| BufferRuns.TruncatedMooRegainsHeader | dnetc-client-base/common/buffpub.cpp:460-480 | a Moo file truncated by a Get is, after the next Put, a Moo file with one packet again |
| BufferRuns.StickyModeDecides | dnetc-client-base/common/buffpub.cpp:174-204 | a record put into an empty file is read back unchanged if and only if it suits the format the sticky flag selects |
| BufferNames.DefaultFilename | dnetc-client-base/common/buffbase.cpp:66-101 | the loops compute the trimmed and cut prefix, or the default, and the extension of the contest |
| BufferNames.DefaultNames | dnetc-client-base/common/projdata.cpp:24-34 | the names of the buffers of the seven contests for blank prefixes |
| BufferNames.NamesFit | dnetc-client-base/common/buffbase.cpp:66-104 | a name is never empty or longer than its array, and a prefix that fits is in it whole |
| BufferNames.SameName | dnetc-client-base/common/buffbase.cpp:66-101 | two names are equal if and only if contest and stem are |
| BufferNames.DistinctExactly | dnetc-client-base/common/buffbase.cpp:66-101 | the fourteen buffers are fourteen files if and only if the normalised prefixes differ |
| BufferNames.CheckExactly | dnetc-client-base/common/buffbase.cpp:229-243 | the check misses a clash exactly for prefixes that differ as given, and reports one that is none exactly for two equal blank ones |
| BufferNames.CheckIsFooled | dnetc-client-base/common/buffbase.cpp:229-243 | two pairs of prefixes pass the check and name the same files |
| MemBuffer.MemBuff.constructor | dnetc-client-base/common/buffbase.cpp:32-41 | starts as an empty stack |
| MemBuffer.MemBuff.Put | dnetc-client-base/common/buffbase.cpp:109-146 | pushes, or fails and leaves the stack, and fails without an allocation error exactly at 20000 records; slots below count are set and the rest null, capacity a multiple of 200 |
| MemBuffer.MemBuff.Get | dnetc-client-base/common/buffbase.cpp:151-176 | pops the record put last, or reports an empty stack |
| MemBuffer.MemBuff.Count | dnetc-client-base/common/buffbase.cpp:182-223 | the number of records, or of the contest's records and their units when those are wanted |
| FileSteps.GotShape | dnetc-client-base/common/buffpub.cpp:534-627 | what a file hands out has a terminated id and is RC5-72 or of a contest no buffer takes; from a Moo file it is unfinished RC5-72 work |
| FileSteps.TookFrom | dnetc-client-base/common/buffpub.cpp:534-627 | in every file that opens, damaged Moo headers included, a Get hands out the head of what is readable, "no records" means there is nothing readable, and the format stays |
| FileSteps.KeepableLands | dnetc-client-base/common/buffpub.cpp:296-530 | a record of this build lands unchanged, or in a Moo file with its result forced; it is forgotten exactly if it was finished and the file is a Moo file |
| FileSteps.Delivered | dnetc-client-base/common/buffpub.cpp:457-530 | in either format a record put into a file is among its records with result and all, its id cut short |
| FileSteps.PutAtFront | dnetc-client-base/common/buffpub.cpp:490-519 | a stock Put that does not count, into a file whose first slot is free, puts the record in front of all others |
| FileSteps.TamePut | dnetc-client-base/common/buffpub.cpp:457-530 | a file of one format with real keys and packet numbers left takes an RC5-72 record without harm and is such a file again, with one packet number less at most |
| BufferStore.BufferStore.constructor | dnetc-client-base/common/buffbase.cpp:39-41 | all buffers in memory start empty |
| BufferStore.BufferStore.PushRecord | dnetc-client-base/common/buffbase.cpp:282-303 | puts into one buffer in memory or on disk, leaving all others, and what a failure without fault means |
| BufferStore.BufferStore.PopRecord | dnetc-client-base/common/buffbase.cpp:340-372 | takes from one buffer in memory or on disk, leaving all others |
| BufferStore.BufferStore.PutBufferRecord | dnetc-client-base/common/buffbase.cpp:248-312 | a record with a known contest and state is pushed onto the buffer named by them, as the primitive of that buffer does it, and no other buffer or file changes; any other record, or clashing prefixes, is refused and nothing changes |
| BufferStore.BufferStore.GetFileRecord | dnetc-client-base/common/buffbase.cpp:612-616 | the file primitive among all buffers: the exact record and file, and for buffers in memory no change |
| BufferStore.BufferStore.PutFileRecord | dnetc-client-base/common/buffbase.cpp:830-831 | likewise for putting a record |
| Walk.ReachesExactly | dnetc-client-base/common/buffbase.cpp:338-450 | a search of a file succeeds if and only if some wanted record has before it no wanted one and none that is the last of its contest |
| Walk.LeftOverExactly | dnetc-client-base/common/buffbase.cpp:338-450 | searches repeated until one reports nothing leave nothing behind if and only if all records have one contest |
| Walk.TwoHideTheThird | dnetc-client-base/common/buffbase.cpp:338-450 | in a stock file with two foreign records and one wanted, the search ends before the wanted one although the head is not the last of its contest |
| Walk.SoughtTakes | dnetc-client-base/common/buffbase.cpp:338-450 | what a search has taken out of its buffer is the record handed out, taken last, and before it records that belong elsewhere; what is left is the rest, in order |
| Routing.KnownCodes | dnetc-client-base/common/buffbase.cpp:260-300 | a record belongs in a buffer if and only if its contest is below 7 and its result is 0, 1 or 2; result 0 names the in-buffer of its contest and the others the out-buffer, for RC5-72 buffers 10 and 11 |
| CrossSave.KnownIsKept | dnetc-client-base/common/buffbase.cpp:248-312 | without errors and with room PutBufferRecord keeps every RC5-72 record with result 0, 1 or 2: a result is in the out-buffer afterwards and work in the in-buffer, as it was but for the end of its id and, in a Moo file, its result, and no other buffer changed |
| CrossSave.Pass | dnetc-client-base/common/buffbase.cpp:338-448 | one pass takes a record that is then returned as it is, saved at home or given up for a stated reason, with the exact account of all buffers, and the source has one less |
| CrossSave.Search | dnetc-client-base/common/buffbase.cpp:338-450 | the loop ends; the record handed out is the first wanted one that the source held, unchanged; the source is left with the rest of its records in order; across all passes every record is accounted for; each record taken that belongs elsewhere is in the buffer of its own contest and result or listed as dropped, a stack has those it gained in the order in which they were taken, and other buffers are as they were |
| CrossSave.GetBufferRecord | dnetc-client-base/common/buffbase.cpp:321-451 | the same for the buffer of the requested contest and direction; clashing prefixes or an unknown contest give -1 and change nothing; formats hold by themselves for real keys while packet numbers last |
| CrossSave.EachGoesHome | dnetc-client-base/common/buffbase.cpp:338-450 | a buffer gains exactly the records taken that belong there, on top of a stack in order, into a file as a bag with forgotten results in the form in which they landed, if none of its records was dropped |
| CrossSave.GetsWhatWasAsked | dnetc-client-base/common/buffbase.cpp:338-450 | what is returned is a record the buffer held, of the requested contest and state, and nothing new is in the buffer |
| CrossSave.GetsIfInSight | dnetc-client-base/common/buffbase.cpp:338-450 | without errors and exit requests it is -1 if and only if no wanted record is there, for a stack, or none is in sight, for a file |
| CrossSave.GetConserves | dnetc-client-base/common/buffbase.cpp:338-450 | every record is still in some buffer, word for word, or handed out, or dropped for having no home or a full one, so never with a contest below 7 and result 0, 1 or 2 unless its stack holds 20000, or had its result forgotten in a Moo out-buffer |
| MemoryRuns.PutIsPush | dnetc-client-base/common/buffbase.cpp:109-146 | on stacks where all records are at home a Put pushes onto the stack of the record, or fails for a bad record, a full stack or a failed allocation, and all records are at home after it |
| MemoryRuns.GetIsPop | dnetc-client-base/common/buffbase.cpp:151-451 | and a Get pops the stack it names, or finds it empty |
| MemoryRuns.StacksKeepAll | dnetc-client-base/common/buffbase.cpp:109-451 | over every run of Puts and Gets from empty stacks, every record is at home, no stack exceeds its bound, and what is in the stacks plus all taken is all put |
| MemoryRuns.FullForEver | dnetc-client-base/common/buffbase.cpp:109-146 | over every run, once there were more than 19800 records the stack has its largest capacity in every later state, whatever it holds |
| MemoryRuns.FullOnlyThen | dnetc-client-base/common/buffbase.cpp:109-146 | and it has it only if some call found 19800 records there |
| MemoryRuns.EmptyAndFull | dnetc-client-base/common/buffbase.cpp:508-537 | a run exists after which all stacks are empty and the in-buffer counts as full |
| Transfers.GetMeansTook | dnetc-client-base/common/buffbase.cpp:612-616 | taking a record from the other file is exact in the accounts of all buffers and that file, wherever it is |
| Transfers.PutMeansGave | dnetc-client-base/common/buffbase.cpp:830-831 | putting a record there adds it, or its forced form if it is forgotten; without errors it is refused exactly for a stock file in a build that refuses those |
| Transfers.StoredMeans | dnetc-client-base/common/buffbase.cpp:629-632 | PutBufferRecord in the accounts of all buffers and the other file, exact on stacks and files |
| Transfers.SaveOrReturn | dnetc-client-base/common/buffbase.cpp:629-650 | a record is saved in its own buffer, else put back where it came from, else lost, and lost without faults only if that file refuses it |
| Transfers.MoveBalanced | dnetc-client-base/common/buffbase.cpp:612-650 | a record taken from the other file and so dealt with leaves the accounts in balance |
| Import.ImportPass | dnetc-client-base/common/buffbase.cpp:607-651 | one pass moves the first record of any source home, or returns it, or ends, every record accounted for; on the own Moo in-buffer it is a pass of AliasedImport |
| Import.PassSpreads | dnetc-client-base/common/buffbase.cpp:629-632 | the record a pass imports arrives in the buffer of its own contest and result and in no other, on top of its stack or once more in its file |
| Import.ProgressStep | dnetc-client-base/common/buffbase.cpp:617-632 | the source loses its first record, and the remaining count strictly falls, so the alarm is never false for a file of RC5-72 records without I/O errors |
| Import.ProgressEnd | dnetc-client-base/common/buffbase.cpp:607-663 | a source that opens and whose records the buffers can all take is imported completely and in order, and left empty |
| Import.ZapSource | dnetc-client-base/common/buffbase.cpp:652-658 | truncating the source empties it and changes no other file or buffer |
| Import.ImportFileRecords | dnetc-client-base/common/buffbase.cpp:590-664 | from any source that is not read back into itself the import ends; every record is in a buffer, in the source or listed as lost, and each buffer gains exactly the imported records that belong there, a stack in their order; without I/O errors none is lost from a file of RC5-72 records, and all arrive if all are welcome; work is never forgotten; a refused source is untouched; the result is the number of records imported |
| AliasedImport.PassKeepsAll | dnetc-client-base/common/buffbase.cpp:607-651 | a pass of an import from the client's own Moo in-buffer keeps the bag of its records and one less remaining than there are |
| AliasedImport.OneRecordNeverEnds | dnetc-client-base/common/buffbase.cpp:607-651 | with one record such an import is still running after any number of passes |
| AliasedImport.MoreRecordsLoseOne | dnetc-client-base/common/buffbase.cpp:617-627 | with two or more it stops on its second pass and has lost exactly one record |
| AliasedImport.EndsWellIfEmpty | dnetc-client-base/common/buffbase.cpp:607-658 | such an import ends without loss if and only if there is nothing to import |
| Fetch.IsBufferFull | dnetc-client-base/common/buffbase.cpp:508-537 | not full means room on the stack, or fewer packets in the file than the limit, and no fault; full means a stack that grew to its largest capacity, or a file at the limit or unreadable |
| Fetch.GetBufferCount | dnetc-client-base/common/buffbase.cpp:541-584 | packets and units of the contest in the in-buffer, or -1 |
| Fetch.ReComputeUnitsToFetch | dnetc-client-base/common/buffbase.cpp:671-713 | without faults the answer is nothing if the in-buffer is full or unreadable; else nothing if and only if its units reach the threshold or a hundred times the limit and it has a packet for each cruncher, what is missing to the lesser of the two, or else a hundred for each packet missing, if the limit fits; a positive one implies room; no record changes |
| Fetch.AskedExactly | dnetc-client-base/common/buffbase.cpp:684-710 | these answers are right for all that a buffer can hold if and only if a hundred times the limit fits a word or what is left of it reaches the threshold |
| Fetch.AskedWhileWanting | dnetc-client-base/common/buffbase.cpp:684-710 | more is asked for exactly while the in-buffer is below both the threshold and the limit or has fewer packets than crunchers, and in a paced fetch each record was moved while that was so |
| Fetch.YieldIsGain | dnetc-client-base/common/buffbase.cpp:869-884 | what a transfer is counted for is what it adds to the in-buffer if and only if that was empty, or it and the record both have stats units or both have none |
| Fetch.PutGrows | dnetc-client-base/common/buffpub.cpp:457-530 | in either format the count a Put reports grows by one exactly if it did not reuse a blank packet |
| Fetch.GetThenPut | dnetc-client-base/common/buffpub.cpp:296-357 | taking a record from a Moo file and putting one back reports the same count as before, which is what makes a loop visible |
| Fetch.BackToItself | dnetc-client-base/common/buffbase.cpp:800-867 | taking a record that is at home in the same file and putting it back turns a stock file into a Moo file, or leaves its count and the number of misplaced records as they were |
| Fetch.SteadyCount | dnetc-client-base/common/buffbase.cpp:850-867 | in a format that was kept, the count of an aliased transfer is what it was, so the guard sees the loop |
| Fetch.FetchPass | dnetc-client-base/common/buffbase.cpp:800-886 | one pass conserves the records of both sides through both put-back branches, wherever the remote file is, and relates the count it sees to the slots and blanks of the in-buffer |
| Fetch.GuardStep | dnetc-client-base/common/buffbase.cpp:850-867 | the guard fires exactly at the fifth transfer, and exactly for an alias or five blank packets at the start |
| Fetch.RoomToSave | dnetc-client-base/common/buffbase.cpp:800-845 | after a positive recompute, saving unfinished RC5-72 work fails only by an I/O error or a failed allocation |
| Fetch.FileStock | dnetc-client-base/common/buffbase.cpp:541-584 | work put into a file of either format adds one packet and its stats units to what the counts report |
| Fetch.PaceStep | dnetc-client-base/common/buffbase.cpp:792-886 | a transfer that was asked for leaves the in-buffer with exactly what it had and what was moved |
| Fetch.LastTransfer | dnetc-client-base/common/buffbase.cpp:875-883 | the loop stops after a transfer only if it brought all that was asked for or the last record of the contest |
| Fetch.FetchRound | dnetc-client-base/common/buffbase.cpp:792-886 | recompute and pass together: what is left to fetch is what the recompute answers, and either nothing is and nothing changed, or one record moved, or the fetch ends for a stated reason |
| Fetch.FetchFile | dnetc-client-base/common/buffbase.cpp:762-936 | for any remote file the loop ends; the records of both sides are conserved word for word; what moved is at home and in the order of the remote file, and each buffer gained exactly what belongs there; each was asked for when it was moved and none but the last was enough; a fetch that is satisfied has nothing more asked for, or enough with its last record, or no record of the contest left; without errors only a refused stock file is unreadable, and then nothing is fetched; nothing is lost without an I/O error and no work is forgotten; the guard stops the fetch after five transfers exactly for an alias or five blank packets |
| Fetch.FetchedIsHere | dnetc-client-base/common/buffbase.cpp:792-909 | what was fetched is in the in-buffer, each record once and as it was read, the remote file has lost exactly that, and no other buffer changed |
| Flush.TakeResult | dnetc-client-base/common/buffbase.cpp:979-981 | a finished RC5-72 record that the out-buffer held leaves it unchanged in every word; none does if the out-buffer is a Moo file |
| Flush.SendResult | dnetc-client-base/common/buffbase.cpp:986-992 | sending delivers the record or leaves everything |
| Flush.PutBack | dnetc-client-base/common/buffbase.cpp:989 | a record that could not be sent is stored as PutBufferRecord stores it, or lost |
| Flush.ForgottenOnReturn | dnetc-client-base/common/buffbase.cpp:989 | its result is forgotten then if and only if the out-buffer is to be a Moo file |
| Flush.AResultIsForgotten | dnetc-client-base/common/buffbase.cpp:979-992 | from a stated state with one result and a stock remote file, every flush without errors and exit forgets the result |
| Flush.SentToFront | dnetc-client-base/common/buffbase.cpp:986-992 | a result sent into the stock out-buffer it came from is at its head again |
| Flush.RefusedIsLast | dnetc-client-base/common/buffbase.cpp:979-1011 | where stock files are refused, a result sent into the out-buffer itself was its last record |
| Flush.FlushPass | dnetc-client-base/common/buffbase.cpp:974-992 | one pass conserves all records with their results, the failure branch included, and says what is left of the out-buffer; the strays taken before the result are in the in-buffer or dropped |
| Flush.FlushFile | dnetc-client-base/common/buffbase.cpp:940-1049 | for any remote file the loop ends; every record of the buffers is still there or was sent, word for word, but for those listed as dropped or forgotten, and the remote file has gained exactly what was sent; without errors what was sent is exactly the results taken out of the out-buffer, in the order in which they were taken, but for one that could not be sent and was stored again, and the records that belong elsewhere and were taken with them are in their own buffers; what is left in the out-buffer is exactly what its counts hide; with a result at the head of the out-buffer, sending fails if and only if the remote file is refused, and the result is forgotten if and only if moreover the flag is on and taking it truncates the file; the shrink guard fires exactly at the fifth transfer into the out-buffer itself, and a build that accepts stock files always gets there with a result at the head and more of its contest behind it; what a Moo out-buffer holds becomes work in the in-buffer |
| Flush.EndsEmptyExactly | dnetc-client-base/common/buffbase.cpp:972-1026 | a flush that ends by itself without errors leaves the out-buffer empty if and only if it is in memory or all its records have one contest |
| Flush.OnlyWorkStrays | dnetc-client-base/common/buffbase.cpp:972-1026 | of the buffers on disk only the in-buffer gains from a flush without errors, and exactly the unfinished work that was taken out of the out-buffer; the others are as they were |
| Flush.FlushConserves | dnetc-client-base/common/buffbase.cpp:972-1026 | the exact account over the fourteen buffers with the results sent handed out; nothing is forgotten unless sending failed, and without errors nothing is dropped from stacks, and from files no record with a contest below 7 and result 0, 1 or 2 |
| Checkpoint.Trim | dnetc-client-base/common/checkpt.cpp:43-51 | removes exactly the blanks at both ends of the name |
| Checkpoint.RecordIsState | dnetc-client-base/common/checkpt.cpp:96-109 | the record saved for a problem is its state in every word but the contest, the result, which is "working", and the end of the id |
| Checkpoint.SavedInOrder | dnetc-client-base/common/checkpt.cpp:86-100 | one record for each running problem with a contest below 7 and for no other, in the order of the table |
| Checkpoint.WorkRecovered | dnetc-client-base/common/checkpt.cpp:58-123 | after a recovery the in-buffer holds, for every RC5-72 problem that ran, an unfinished record with its twenty words of work |
| Checkpoint.SaveProblems | dnetc-client-base/common/checkpt.cpp:86-121 | the problems that can be saved are in the checkpoint, all of them unless an I/O error happened, and no other file changes |
| Checkpoint.Open | dnetc-client-base/common/checkpt.cpp:58-78 | after recovery the checkpoint is empty and every record is accounted for; all that the buffers can take is imported, and counted; a refused stock checkpoint is thrown away unread |
| Checkpoint.OpenRecovers | dnetc-client-base/common/checkpt.cpp:58-78 | opening a checkpoint just written makes the in-buffer the old one and the saved work, as multisets of records with results, or leaves it as it was if the checkpoint is refused or the prefixes are equal |
| Checkpoint.Checkpoints.Prepare | dnetc-client-base/common/checkpt.cpp:39-56 | checkpoints are enabled exactly for disk buffers and a trimmed name that is neither empty nor "none" |
| Checkpoint.Checkpoints.Close | dnetc-client-base/common/checkpt.cpp:74-78 | empties the checkpoint and nothing else |
| Checkpoint.Checkpoints.Refresh | dnetc-client-base/common/checkpt.cpp:74-123 | the checkpoint holds exactly the current work, in the format the sticky flag selects, and no buffer changes |
| Checkpoint.CrashAndRecover | dnetc-client-base/common/checkpt.cpp:58-123 | after REFRESH, a crash and OPEN the in-buffer is the old one and all saved work, with the words of work of every RC5-72 problem, if the prefixes differ and the checkpoint was a Moo file or stock files are accepted, else the old one only; the number recovered is that of the saved records, or 0; the checkpoint is empty and all other buffers are as they were |
| Clock.ConvertedExactly | dnetc-client-base/common/clitime.cpp:331-345 | without overflow the conversion is exact, for every rate that is a multiple of 10 and divides a million |
| Clock.WordsOrNot | dnetc-client-base/common/clitime.cpp:331-345 | in 32-bit words the conversion is exact if and only if neither the wrap product nor the seconds overflow |
| Clock.Clks2Tv | dnetc-client-base/common/clitime.cpp:331-345 | the method, step by step, meets both |
| Clock.AcrossTurn | dnetc-client-base/common/clitime.cpp:335-343 | from the last tick of a turn to the first of the next the converted time goes forward |
| Clock.Increasing | dnetc-client-base/common/clitime.cpp:331-345 | converted times are strictly increasing in wrap count and ticks although microseconds are not normalised |
| Clock.CliClock.Read | dnetc-client-base/common/clitime.cpp:280-320 | the first call sets the base; later ones fail exactly before it and otherwise subtract exactly |
| Clock.GoodBase | dnetc-client-base/common/clitime.cpp:306-317 | with a base taken at wrap 0 there is never a false step backward, the difference is exact and both fields are not negative |
| Clock.LateBase | dnetc-client-base/common/clitime.cpp:311-317 | with a base taken at a later wrap microseconds are never negative if and only if the residues of the two wraps allow it |
| Clock.MillisecondBase | dnetc-client-base/common/clitime.cpp:523 | at the millisecond rate a base at wrap 27 does give negative microseconds at wrap 28 |
| Clock.TimerAdd | dnetc-client-base/common/clitime.cpp:881-904 | the sum is exact and normalised even if the summands were not |
| Clock.TimerDiff | dnetc-client-base/common/clitime.cpp:910-944 | the difference of normalised times is their exact distance, normalised, in either order |
| WrapCounter.RunsExclusive | dnetc-client-base/common/clitime.cpp:510-522 | from a state in which the count is set and nobody is about to set up the lock, in every interleaving of any number of threads at most one is between lock and unlock |
| WrapCounter.FirstCallSetsUp | dnetc-client-base/common/clitime.cpp:510-514 | one undisturbed first call leads to such a state |
| WrapCounter.RaceBreaksIn | dnetc-client-base/common/clitime.cpp:510-514 | two threads that both find the count unset can both be between lock and unlock |
| WrapCounter.ExcludesExactly | dnetc-client-base/common/clitime.cpp:510-522 | from every state in which the lock is taken exactly by who is inside, all continuations exclude if and only if there is at most one thread, or nobody is about to set up the lock and the count is set or everybody is about to set it |
| WrapCounter.StartExcludes | dnetc-client-base/common/clitime.cpp:510-522 | mutual exclusion in all runs from the start holds if and only if there is at most one thread |
| WrapCounter.RunsKeepTime | dnetc-client-base/common/clitime.cpp:516-522 | in every run values returned in lock order never go back, and they differ from true time by a constant if and only if consecutive reads are less than a wrap apart |
| WrapCounter.RunsReturnReadings | dnetc-client-base/common/clitime.cpp:516-523 | in every run what a thread goes on to convert is the ticks and the wrap count of a reading made under the lock |
| WrapCounter.StartReturns | dnetc-client-base/common/clitime.cpp:510-523 | so it is in every run from the start |
| WrapCounter.FirstCallLogs | dnetc-client-base/common/clitime.cpp:510-522 | the state after one undisturbed first call also meets the condition on logged readings |
| Timeslice.RunTime | dnetc-client-base/common/clirun.cpp:489-509 | the elapsed time of a run in microseconds; "bad" for an invalid run and for a clock that went back, unless it went back so far that the seconds wrap to a short time |
| Timeslice.AddYield | dnetc-client-base/common/clirun.cpp:543-544 | the time spent yielding is added to a valid run time only, and exactly if and only if the sum fits a word |
| Timeslice.Shown | dnetc-client-base/common/clirun.cpp:507-508 | the elapsed time is right if and only if it fits 32 bits; up to 4295 seconds beyond that it shows as less than 33 milliseconds |
| Timeslice.Slice.Tune | dnetc-client-base/common/clirun.cpp:599-653 | the step-by-step tuning in 32-bit words never overflows and keeps the slice within its bounds |
| Timeslice.RunsInBounds | dnetc-client-base/common/clirun.cpp:599-651 | over any sequence of runs the slice stays between minimum and maximum, or with a hint stays a multiple of it |
| Timeslice.OneRun | dnetc-client-base/common/clirun.cpp:642-651 | with a hint the slice is a positive multiple of it, within half of it from the clamped value or equal to it |
| Timeslice.Responds | dnetc-client-base/common/clirun.cpp:604-641 | before rounding, fast runs never shorten a slice within the bounds and without a hint double it up to the maximum, slow ones take a quarter or more down to the minimum; a slice of usual size is left alone if and only if the run was near the target or a bound is in the way |
| Timeslice.GpuBump | dnetc-client-base/common/clirun.cpp:620-626 | a GPU client whose run took a quarter of the target or less gets the largest slice that fits the target at the rate of that run, or the maximum |
| Timeslice.RespondsRounded | dnetc-client-base/common/clirun.cpp:604-651 | with a hint, a fast run leaves the slice no shorter if and only if it was at most the rounded maximum; a slow one no longer if and only if it was at least the rounded minimum and not one short of twice an even hint, unless the cruncher is non-preemptive; others leave exactly the multiples as they are |
| Timeslice.MultiplesHaveRoom | dnetc-client-base/common/clirun.cpp:604-651 | a multiple of the hint within the bounds is at most the rounded maximum, so a fast run never shortens it |
| Timeslice.RoundingShortens | dnetc-client-base/common/clirun.cpp:52-61 | with the bounds of the RC5-72 row and a hint of 100 a fast run takes the maximum slice down by 48 |
| Timeslice.RunsAbove | dnetc-client-base/common/clirun.cpp:599-651 | over any sequence of runs with a hint the slice is at least the hint and at most half a hint below the minimum |
| Timeslice.FastRunsDouble | dnetc-client-base/common/clirun.cpp:604-632 | n fast runs in a row grow a slice by at least 2 to the n, up to the maximum |
| Timeslice.SlowRunsShrink | dnetc-client-base/common/clirun.cpp:634-641 | n slow runs in a row bring the slice to the minimum or down by (3/4) to the n |
| Timeslice.LongRunLooksFast | dnetc-client-base/common/clirun.cpp:507-509 | a run of more than 2^32 microseconds and under 4295 seconds counts as a fast one |
| SlidingAverage.SlideFits | dnetc-client-base/common/clirun.cpp:572-573 | the average is exact if and only if the sum fits a word, and stays at most 2^27 if both parts are |
| SlidingAverage.SlideMoves | dnetc-client-base/common/clirun.cpp:564-573 | the average is stationary exactly from T - 15 to T and otherwise moves towards T, not past it |
| SlidingAverage.SlideSettles | dnetc-client-base/common/clirun.cpp:564-568 | with a constant T it reaches a stable point in that range after finitely many runs and stays there |
| SlidingAverage.SlideMonotone | dnetc-client-base/common/clirun.cpp:572-573 | on the way it never turns back |
| SlidingAverage.MulDivIs | dnetc-client-base/common/clirun.cpp:579-585 | the slice at the average rate is the exact quotient if and only if that fits a word |
| SlidingAverage.OgrSlice.Tune | dnetc-client-base/common/clirun.cpp:569-595 | the slice becomes the one the average rate asks for, truncated to a word and clamped, so that it and the average stay in bounds |
| Crunchers.FlagAll | dnetc-client-base/common/clirun.cpp:1290-1314 | flags every thread and no other field, or reports whether all are suspended |
| Crunchers.CheckClearIfRefillNeeded | dnetc-client-base/common/clirun.cpp:1317-1330 | the number of threads that asked, and clears the question exactly on demand |
| Handshake.OneMoreRun | dnetc-client-base/common/clirun.cpp:410-454 | once told to suspend a cruncher starts at most one more run, and only if it was past its check |
| Handshake.RunsOnlyLoaded | dnetc-client-base/common/clirun.cpp:410-454 | in every continuation a thread is on its way into a run or inside only if its last look at the problem table found a loaded problem and no suspension |
| Handshake.StartedRunsOnlyLoaded | dnetc-client-base/common/clirun.cpp:406-454 | so from its start a thread never runs without such a look |
| Handshake.RunsAreEntries | dnetc-client-base/common/clirun.cpp:452 | the number of runs grows by exactly the number of entries into ProblemRun |
| Handshake.NothingToRun | dnetc-client-base/common/clirun.cpp:415-432 | a thread whose looks find nothing loaded starts no run but the one it is already committed to, and that one exactly if it gets that far |
| Handshake.KeepsRunning | dnetc-client-base/common/clirun.cpp:410-456 | a thread that finds work at every look, with no flag set, starts a run on every sixth step of its own |
| Handshake.Resumes | dnetc-client-base/common/clirun.cpp:410-456 | a thread that finds work starts another run within six steps of its own once a suspension is lifted |
| Handshake.StaysConsistent | dnetc-client-base/common/clirun.cpp:406-456 | is_suspended is clear only around a run and hasexited set only at the end, in every continuation of every consistent state |
| Handshake.ReachableConsistent | dnetc-client-base/common/clirun.cpp:406-456 | every state a thread can reach from its start is consistent |
| Handshake.ReReadSuspends | dnetc-client-base/common/clirun.cpp:415-422 | a thread that reads the flag after it was set sleeps and shows as suspended |
| Handshake.StaysSuspended | dnetc-client-base/common/clirun.cpp:406-456 | such a thread shows as suspended and does not run in any continuation until the suspension is lifted |
| Handshake.SuspendsInTime | dnetc-client-base/common/clirun.cpp:410-456 | while the suspension lasts a thread shows as suspended and is not about to run after at most four steps of its own |
| Handshake.AllSuspend | dnetc-client-base/common/clirun.cpp:2050-2059 | so the loop that waits for all threads ends once each has had four steps |
| Handshake.CheckExcludes | dnetc-client-base/common/clirun.cpp:2055-2059 | a thread that shows as suspended stays out of its run if and only if it was not past its check |
| Handshake.CheckCanBeEarly | dnetc-client-base/common/clirun.cpp:2050-2065 | a state in which the check passes and a run still follows can be reached |
| Handshake.OneMoreRunBeforeExit | dnetc-client-base/common/clirun.cpp:410-454 | once told to exit a cruncher starts at most one more run |
| Handshake.ExitsInTime | dnetc-client-base/common/clirun.cpp:410-727 | once told to exit a real thread has left its loop and said so after at most seven steps of its own |
| Handshake.EachOnItsOwn | dnetc-client-base/common/clirun.cpp:406-456 | what holds of one thread in its runs holds of each in every interleaving |
| Handshake.AllExit | dnetc-client-base/common/clirun.cpp:2074-2075 | after the exit flag all threads exit, each with at most one more run |
| Base64.BuildDecoder | dnetc-client-base/common/base64.cpp:76-83 | the table built maps each letter to its value plus one and all else to 0 |
| Base64.Encode | dnetc-client-base/common/base64.cpp:25-69 | fails exactly without room for four characters per three bytes begun, else writes the encoding and a terminator if there is room |
| Base64.EncodeRest | dnetc-client-base/common/base64.cpp:45-60 | the last octet or two complete the encoding of the whole input and nothing behind it is touched |
| Base64.EncodedIsRfc | dnetc-client-base/common/base64.cpp:25-69 | the encoding is that of section 4 of RFC 4648: the bits in groups of six, zero bits added at the end, padded to fours |
| Base64.RfcVectors | dnetc-client-base/common/base64.cpp:25-69 | three test vectors of section 10 of RFC 4648 |
| Base64Decoder.Decode | dnetc-client-base/common/base64.cpp:72-144 | separate or in place, the output is the decoding of the original input if there is room for it and -1 otherwise; nothing beyond the buffer is written |
| Base64Decoder.DecodeEncode | dnetc-client-base/common/base64.cpp:25-144 | decoding the encoding of any bytes gives them back |
| Base64Decoder.EncodeDecode | dnetc-client-base/common/base64.cpp:25-144 | a text is decoded and re-encoded to itself if and only if it is canonical |
| Base64Decoder.EncodedIsCanonical | dnetc-client-base/common/base64.cpp:25-69 | every encoding is canonical |
| Base64Decoder.JunkIsSkipped | dnetc-client-base/common/base64.cpp:116-134 | characters that are neither letters nor padding do not change the result, as in section 6.8 of RFC 2045 |
| TimeString.ScanFields | dnetc-client-base/common/confrwv.cpp:486-503 | the digit loop reads the leading fields and no field can overflow |
| TimeString.ParseTimestring | dnetc-client-base/common/confrwv.cpp:477-533 | the moving-pointer parser computes the specified value for every string, in both styles |
| TimeString.RunReadsFields | dnetc-client-base/common/confrwv.cpp:486-503 | the digit loop reads the text between the colons as decimal numbers and refuses exactly more than three fields or fields that are too long |
| TimeString.ParsedIsTotal | dnetc-client-base/common/confrwv.cpp:477-533 | for every text in the current style: the value is 60 times the minutes, or hours, minutes and seconds in range, of its fields; it is -1 for anything else, and totals beyond an int come out negative |
| TimeString.DecimalExactly | dnetc-client-base/common/confrwv.cpp:504-532 | in the historical style exactly an empty fraction, a zero, or two digits and any zeros are accepted behind the point, and their value is stated; in the current style a point is an error |
| TimeString.DecimalHours | dnetc-client-base/common/confrwv.cpp:504-517 | such hours are read to the full minute, less than a minute below the exact value |
| TimeString.ParsedPrinted | dnetc-client-base/common/confrwv.cpp:477-575 | a printed time is parsed to its seconds, or refused from 596524 hours on |
| TimeString.TruncatesToZero | dnetc-client-base/common/confrwv.cpp:571 | minutes are rounded towards zero |
| TimeString.RoundTrip | dnetc-client-base/common/confrwv.cpp:537-575 | printing minutes and reading them back gives the same if and only if they are at most 35791393 |

## Left out

- Contests other than RC5-72 in files: the model is the CUDA build, whose byte order switch handles RC5-72 only; the other contests' branches are not part of this model.
- The loops of fetch and flush over all contests: RC5-72 is the only one whose records files can hold here.
- Network update, the decision when to update, logging, progress percentages and events.
- Real file I/O: an I/O error changes no record in the model; a write that stops half way is not modelled.
- Files whose length in bytes is not a multiple of four: the client writes none, and opens a stock one only to refuse it.
- The memory allocator: a failed allocation is a choice of the environment.
- Thresholds, the stats units of a record, cruncher counts and exit requests: parameters or choices of the environment. The core a record is wanted for is not modelled, since the code ignores it.
- Import.ImportFileRecords: not for the own Moo in-buffer as source, where the loop need not end; AliasedImport follows that loop for no errors, and `ImportPass` covers its passes in every case. In builds that accept stock files as remote buffers no other local file as source either.
- Checkpoint.Open: it imports the checkpoint and is stated for the same sources, so not for one that is the client's own Moo in-buffer.
- CrossSave.GetConserves: for files the account is stated where `fits` holds; `GetBufferRecord` derives it for real RC5-72 keys while packet numbers last, and the contracts of import, fetch and flush derive it likewise.
- BufferNames.DistinctExactly: the rest of the model is about clients whose fourteen file names are distinct, or whose prefixes the check finds identical; what happens to one that passes the check with clashing names is not modelled.
- Clock: `unsigned long` and `time_t` have 32 bits, as on Win32; rates that are not a multiple of 10 or do not divide a million have no exactness to prove.
- Clock.TimerDiff: for times that are normalised; a missing argument is replaced by the current time in the source.
- WrapCounter: the exchange is one atomic step on sequentially consistent memory, the Win32 branch is the only one, and runs end before the wrap count itself could reach its "unset" value.
- Timeslice.Slice.Tune: for hints up to 2^30 and a table with a sensible minimum and maximum; the remembered optimal slice of a finished problem is not modelled.
- SlidingAverage.OgrSlice.Tune: the products are taken modulo 2^32; in the source `usecs*15` is a product of signed numbers, so beyond 2^31 the language promises nothing.
- Handshake: non-real threads, thread priorities and the refresh of the problem pointer.
- Crunchers: the linked list of blocks is a sequence of distinct ones.
- Base64Decoder.Decode: input bytes are below 128, in and out are the same array from the same start or different arrays; a partial overlap is not modelled, nor what an encoding error leaves in the output.
- TimeString.RoundTrip: without the subtraction of time already elapsed.
