# Kernel protocols, crypto framework and accounting: a verified model

This project models parts of a Linux 2.6 kernel tree in Dafny and proves what they are for. Nothing was executed.

**Asynchronous I/O** (`fs/aio.c`). `AioModel` is a machine of atomic steps: a step is a stretch of code under
`ctx_lock`, or one access without it, and a run is any sequence of steps, so all interleavings of submitters, retry
threads, wake-ups, completions, cancellers, readers, the fput routine and destroyers are covered, for any number of
requests and threads. A thread in the middle of an operation is recorded by what it still has to do, down to the
accesses it makes to a context or a request it holds no reference on; a thread in `__aio_run_iocbs` holds `ctx_lock`
whenever it is outside `aio_run_iocb`. The last put takes effect in `flush_workqueue`, once no handler but its own is in
`__aio_run_iocbs`: what is put on the work queue later finds the context freed. A `BUG()`, freeing something still held
and touching something freed are the outcome `Bug`. `AioInv` holds the invariant of the completion ring, the two
reference counts, the run-list link and the lists; `AioRing` and `AioSteps` prove that every step keeps it, and which
steps are a `Bug`; `AioThreads` adds that the lock has one holder and that whatever is queued has somebody to take it
up, and `AioOrder` that the run lists are queues; `AioEnabled` says when each step can be taken, and `AioFlags` what it
decides about a request, without looking at the steps; `Aio`, `AioEvents` and `AioCap` state what holds in every run;
and `AioDrive` and `AioProgress` what can still become of a request: it can be completed exactly as long as
`aio_run_iocb` has not run out of retries for it.

The code is not free of `Bug`s. `aio_kick_handler` holds no reference on the context and may be the one that frees it; a
completer that is not the last user, a thread that has just queued a request, and a handler that queues itself again go
on to the context without a reference; and a wake-up holds none on its request, which may be completed and freed before
it arrives. `AioHazards` gives a run for each, and one to the `BUG_ON` of line 732, built from the single steps of
`AioViews`. `AioCareful` names the steps to blame: a completion while a wait queue entry or a wake-up leads to the
request, and a put that drops the last reference while a handler is at work or a thread is on its way to the context.
Runs without them never go wrong; and after any of them, `AioExact` shows, the run goes wrong or can be made to by
steps that are not to blame. `AioExit` shows that a handler at work is no danger to a context that is ended by
`exit_aio` and not by `io_destroy`.

**The crypto framework.** `ScatterWalk` is the two-level cursor over a scatterlist in paged memory, `BlockModes` the
flat ECB and CBC modes, and `Cipher` the loop of `cipher.c` that has to compute them through pages, scratch blocks and
blocks encrypted where they lie. `Gf8`, `AesSpec`, `AesTables` and `Aes` lead from arithmetic in GF(2^8) and the
definitions of FIPS 197 to the tables `gen_tabs` builds and the code that uses them; `AesModes` puts AES under the
modes. `Streaming` is the one-shot definition of a hash over padded blocks that the buffered digests (`Md5`, `Sha1`,
`Sha256`, `Michael`, `Wp512`) refine for every way of cutting the message into updates; `Sha1Transform` is the
compression of SHA-1. `Digest` and `Hmac` are the layers on top, over any hash function. `Tea` is TEA and XTEA, the code
on bits and the ciphers on numbers (`WordValues`). `AesVector`, `Sha1Vector` and `TeaVectors`, and two lemmas of
`Michael`, prove the known answers that `tcrypt.h` has for the definitions the rest is proved against.

**Accounting.** `BlockDev` and `BlockClaim` are the open counts and the exclusive claims of a disk and its partitions,
`CharDev` the registry of character device regions with its rollback, `BioSplit` a bio ended in two halves (again a machine
of interleaved steps), `ElfCore` the two passes of the ELF core dumper.

`Arithmetic`, `Words`, `ByteValues`, `WordValues` and `Wrappers` hold what the others share: division, 32-bit words and
their bytes, the numbers bytes and words stand for, and values that may be missing.

Conventions: integers are unbounded, and wrap-around is written out where the code relies on it (`% TWO32`, `Wrap64`,
`Wrap256`) or left to bit-vectors. Memory of the crypto code is one array of whole pages. Lists and arrays of structures
that the code updates in place are sequences that methods reassign. Failures of the environment (allocation, writes, the
driver's open, the retry method's result) are parameters or free choices of a run.

## Model

| member | source | states |
|---|---|---|
| `AioCareful.NeverBug` | `kernel/fs/aio.c:364-1025` | no run of careful steps (a request is completed only when no wait queue entry and no wake-up leads to it; the last reference on the context is dropped only when no `aio_kick_handler` is in `__aio_run_iocbs` and no thread is on its way to the context without a reference, to `ctx->wait` (line 1020) or to put the handler on the work queue (lines 872 and 894)) reaches a `BUG()` (lines 369, 501 and 732 among them), frees what is held or on a list, or touches what has been freed |
| `AioExact.CarefulRunsExact` | `kernel/fs/aio.c:364-1025` | that condition is exact: after any careful run an enabled step is careful if and only if it does not go wrong and does not lead to a state from which careful steps alone do |
| `AioExact.CarefulIsExact` | `kernel/fs/aio.c:364-1025` | the same for one step from any state with the invariants to which no stray wake-up leads |
| `AioExact.OrphanDoomed` | `kernel/fs/aio.c:494-520` | a request that is complete while a wake-up leads to it can be freed under that wake-up by careful steps alone, whoever else holds it, whichever thread is in `__aio_run_iocbs`, and even while its submitter drains the run list |
| `AioHazards.HandlerBreaks` | `kernel/fs/aio.c:780-796` | a run in which `io_destroy` cancels during the handler's retry and drops its last reference when the handler has freed the request, so that `aio_kick_handler` frees the context with its `put_ioctx` at line 790 and then reads `ctx->run_list` at line 794 |
| `AioHazards.RequeueBreaks` | `kernel/fs/aio.c:855-873` | a run in which `aio_kick_handler`, with a request left on the run list, gives the lock up at line 866 and comes to `queue_work` at line 872 when the request has been drained and the last put of the context is in `flush_workqueue`, which does not wait for what is queued after it began |
| `AioHazards.CompleterBreaks` | `kernel/fs/aio.c:1014-1021` | a run in which `aio_complete`, not the last user of its request, looks at `ctx->wait` after the context has been freed |
| `AioHazards.KickerBreaks` | `kernel/fs/aio.c:881-896` | a run in which `queue_kicked_iocb` calls `aio_queue_work` on a context that has been freed |
| `AioHazards.WakeUpBreaks` | `kernel/fs/aio.c:728-735` | a run in which a retry method returns a result while a wake-up is past `list_del_init`: the check at line 732 passes, the request is freed, and the wake-up arrives at it |
| `AioHazards.QueuedEntryBreaks` | `kernel/fs/aio.c:732` | a run to the `BUG_ON`: a retry method returns a result with its wait entry still queued |
| `AioExit.ExitWaits` | `kernel/fs/aio.c:334-357` | in a run without `io_destroy`, whichever put frees the context, no `aio_kick_handler` is at work then |
| `Aio.RingSafe` | `kernel/fs/aio.c:928-1069` | in every reachable state requests still to complete plus unread events are at most `nr - 1`, every unread event stands unharmed in its slot between head and tail, and the events returned by readers are, in order and each once, the first of those completed |
| `AioEvents.EventsBelong` | `kernel/fs/aio.c:984-992` | in every reachable state each event completed is that of one admitted request and carries its iocb address and data; no request has two events, and none with an event is still to complete |
| `AioEvents.EventsReport` | `kernel/fs/aio.c:984-992` | after any run every event completed carries the two results that `aio_complete` was given for its request |
| `AioProgress.CompletedExactly` | `kernel/fs/aio.c:653-1025` | after any run a request can still be completed if and only if it is not waiting for a retry with its retries used up; then by careful steps alone and, if it has been queued and not cancelled, with any result, which its event carries; otherwise it never is |
| `AioProgress.SpentForever` | `kernel/fs/aio.c:653-764` | a request that waits for a retry when `ki_retried` is past the cap is never completed, whatever happens |
| `AioDrive.ThreadOut` | `kernel/fs/aio.c:773-873` | from any state a thread in `__aio_run_iocbs` can come to the end of its lists and leave by careful steps, and what was on its list has been handed over or completed then, unless its retries were used up |
| `Aio.RefsConserved` | `kernel/fs/aio.c:451-556` | in every reachable state `ctx->users` = list reference + lookups + `reqs_active` + puts still to be made, by threads in `__aio_run_iocbs` and by others, `reqs_active` is the number of live requests, `ki_users` the number of submit/I-O/run/cancel holders; the context is freed exactly at zero, and then no request and no holder is left and no handler is on the work queue (though one may be put there, which is a `Bug`); a freed request never comes back |
| `Aio.OneRetry` | `kernel/fs/aio.c:653-797` | in every reachable state a request whose retry runs is on no run list, and a request is on at most one run list and there once: one retry instance at a time |
| `Aio.NoLostKick` | `kernel/fs/aio.c:618-764` | below the retry cap every submitted, incomplete request that is neither being retried nor handed off is queued, has a wait queue entry, or has a wake-up on its way to `__queue_kicked_iocb` |
| `Aio.StuckForever` | `kernel/fs/aio.c:659-663` | past the cap the property fails for good: whatever happens, the request is never queued, retried or completed again |
| `AioCap.CapReached` | `kernel/fs/aio.c:653-663` | the cap is reached: a retry method that always asks to be called again leads to such a stuck request, so the cap is the exact limit of `NoLostKick` |
| `Aio.RunKeeps` | `kernel/fs/aio.c:393-1069` | every run from a state with the invariant that does not go wrong ends in one |
| `AioSteps.StepKeeps` | `kernel/fs/aio.c:364-1069` | every step that is taken keeps the invariant of ring, counts, links, lists and threads, and a step goes wrong if and only if it is one of five kinds: the handler going on with a context it has freed; a completer (line 1020), or a thread about to put the handler on the work queue (lines 872 and 894), coming to a freed context; a wake-up arriving at a freed request; or the `BUG_ON` of line 732 |
| `AioOrder.OrderKept` | `kernel/fs/aio.c:618-797` | every step keeps the order of a run list: of two requests on a list the one behind stays on a list, and the one ahead stays ahead, until it is retried |
| `AioOrder.QueuedLast` | `kernel/fs/aio.c:618-629` | a request that comes onto a list is the last of the run list, behind all that were there |
| `AioOrder.FirstStarted` | `kernel/fs/aio.c:773-790` | a thread takes up the first request of its list, and no other request changes |
| `AioThreads.RunListServed` | `kernel/fs/aio.c:773-896` | in every reachable state a non-empty run list has a thread in `__aio_run_iocbs`, one about to put the handler on the work queue, or the handler there; a local list has its thread; and so below the retry cap every submitted, incomplete request is being retried, has been handed off, waits or has a wake-up on its way, or is on a list that somebody is there to drain |
| `AioThreads.OneLockHolder` | `kernel/fs/aio.c:653-797` | in every reachable state at most one thread in `__aio_run_iocbs` is outside `aio_run_iocb`, and none while an event is being written: `ctx_lock` has one holder |
| `AioThreads.StepOrderly` | `kernel/fs/aio.c:773-896` | every step keeps that, and that every thread with a retry, a local list or a put of the context to make is in `__aio_run_iocbs` |
| `AioInv.PutKeeps` | `kernel/fs/aio.c:494-520` | `__aio_put_req` by a holder that gives up its place: the count does not go negative, the last put finds the request out of everyone's reach, both counts agree again, also on the deferred fput path |
| `AioSteps.AdmitKeeps` | `kernel/fs/aio.c:393-434` | `__aio_get_req` keeps the invariant: an admitted request has room for its event beside the unread ones and those still to come |
| `AioEnabled.AdmittedExactly` | `kernel/fs/aio.c:417-426` | a request is admitted if and only if live requests and unread events together are less than `nr - 1` |
| `AioEnabled.RoomForAll` | `kernel/fs/aio.c:393-434` | for every n up to `nr - 1` there is a run to a state with n live requests |
| `AioEnabled.ReachableExactly` | `kernel/fs/aio.c:364-1557` | in every reachable state a step is taken, and does not go wrong, if and only if the code could take it: who may look up, admit, queue, cancel, complete, retry, wake, read and put, told from references, lock, lists and unread events, and not from the steps |
| `AioEnabled.ReadExactly` | `kernel/fs/aio.c:1035-1069` | there is something to read if and only if an event has been completed and not read, and a reader gets the first such |
| `AioFlags.StepDecides` | `kernel/fs/aio.c:267-1557` | every step decides about a request exactly what it is for and nothing else: its I/O ends by an abort, a completion without an event or the publishing of its event; it is queued by its submitter, handed over by its retry method, cancelled by a canceller; a wait queue entry comes and goes by the retry method, or goes by a wake-up |
| `AioFlags.CancelDecides` | `kernel/fs/aio.c:267-289` | `aio_cancel_all` takes the request off the list of active ones, `sys_io_cancel` leaves it there |
| `AioFlags.StepCounts` | `kernel/fs/aio.c:855-1021` | a thread is on its way to `ctx->wait` exactly from the completion of a request that others still hold until it gets there, and to the work queue from the queueing of a request, or from a handler that leaves requests behind, until it gets there |
| `AioSteps.SubmitKeeps` | `kernel/fs/aio.c:1480-1557` | queueing a request and going on to drain the run list, dropping the submitter's references on success and failure, and cancelling keep the invariant |
| `AioSteps.SpliceKeeps` | `kernel/fs/aio.c:773-778` | moving the run list to a thread's local list keeps every request on exactly one list |
| `AioSteps.StartKeeps` | `kernel/fs/aio.c:780-788` | a request taken off a local list is being retried by no other thread, and its link is cleared while its retry runs |
| `AioSteps.LocalKeeps` | `kernel/fs/aio.c:696-743` | the steps of the retry method, the check of the wait entry and the steps of a wake-up keep a pending kick on record |
| `AioSteps.FinishKeeps` | `kernel/fs/aio.c:745-763` | when a retry ends, a kick that came in the meantime puts the request back on the run list |
| `AioSteps.QueueKickedKeeps` | `kernel/fs/aio.c:618-629` | `__queue_kicked_iocb` queues a request only if it is on no list and no retry of it runs |
| `AioSteps.CompleteKeeps` | `kernel/fs/aio.c:728-992` | `aio_complete` writes its event over no unread one; a cancelled request gets no event and only drops its reference; completing from a retry is a `BUG` exactly when the wait entry is still queued |
| `AioSteps.PublishStepKeeps` | `kernel/fs/aio.c:1000-1018` | publishing the tail makes the event the last of those completed and drops the reference of the I/O |
| `AioSteps.ReadKeeps` | `kernel/fs/aio.c:1035-1069` | `aio_read_evt` copies the oldest unread event and moves the head past it |
| `AioSteps.FputFinishKeeps` | `kernel/fs/aio.c:467-489` | the deferred fput frees each request once and leaves its put of the context owed |
| `AioSteps.ContextKeeps` | `kernel/fs/aio.c:364-380` | lookups, `io_destroy`, `exit_aio` and the puts of threads in `__aio_run_iocbs` keep the context's count, and the put that frees finds no active request |
| `AioSteps.PutIoctxKeeps` | `kernel/fs/aio.c:364-380` | `put_ioctx` by whoever has given up a reference: the count agrees again, and line 369 is not reached |
| `AioSteps.CrewKeeps` | `kernel/fs/aio.c:773-870` | entering `__aio_run_iocbs` never goes wrong, leaving it only for a handler, when the context has been freed; a system call in it keeps its lookup, and a handler that leaves requests behind has still to queue itself |
| `AioSteps.TouchKeeps` | `kernel/fs/aio.c:881-1021` | the accesses made without a reference go wrong exactly when what they touch has been freed; the one made by a request's own retry never does |
| `AioRing.AvailIsRoom` | `kernel/include/linux/aio.h:114` | `aio_ring_avail` is the number of slots without an unread event, less one |
| `AioRing.WriteKeeps` | `kernel/fs/aio.c:984-992` | the slot at the tail holds no unread event when a completion is pending |
| `AioRing.PublishKeeps` | `kernel/fs/aio.c:1000-1003` | after the tail moves, the ring holds the unread events and the new one, in order |
| `AioRing.AdvanceKeeps` | `kernel/fs/aio.c:1052-1058` | after the head moves, the ring holds the unread events but the first, and the events read are one more of those completed |
| `Cipher.Crypt` | `kernel/crypto/cipher.c:47-96` | for any segments and pages, in place or not, the destination bytes and no others become the flat ECB or CBC of the source bytes, and `iv` the last block of the ciphertext (of what was written when encrypting, of what was read when decrypting; unchanged in ECB); a length that is no multiple of the block is refused before anything is touched |
| `Cipher.EncryptThenDecrypt` | `kernel/crypto/cipher.c:141-198` | decrypting what was encrypted, with the ciphertext cut differently and any of the lists reused, gives the message back |
| `Cipher.Process` | `kernel/crypto/cipher.c:98-127` | one block: the destination gets the mode's output of the source block and the chaining value moves on, also when both are the same bytes |
| `Cipher.CryptBlock` | `kernel/crypto/cipher.c:68-89` | one turn of the loop processes the block at the source addresses into the block at the destination addresses and advances both walks past it |
| `Cipher.SameBuf` | `kernel/crypto/scatterwalk.h:36-43` | `scatterwalk_samebuf` says in place exactly when the two blocks used in their pages are the same bytes |
| `Cipher.XorWords` | `kernel/crypto/cipher.c:27-39` | `xor_64` and `xor_128`, word by word, are the byte-wise exclusive or |
| `BlockModes.FlatRoundTrip` | `kernel/crypto/cipher.c:98-121` | flat CBC (and ECB) decryption undoes encryption for every message, initialisation vector and block permutation, and both leave the same chaining value |
| `BlockModes.FlatBlocks` | `kernel/crypto/cipher.c:98-127` | the flat modes satisfy the block equations of sections 6.1 and 6.2 of NIST SP 800-38A |
| `BlockModes.FlatIvIsLast` | `kernel/crypto/cipher.c:98-121` | what CBC leaves in `iv` is the last block of the ciphertext |
| `AesModes.AesMessageRoundTrip` | `kernel/crypto/cipher.c:141-198` | AES in ECB or CBC mode recovers every message under every key |
| `ScatterWalk.Walk.constructor` | `kernel/crypto/scatterwalk.c:49-61` | a walk starts at the first byte of the list, with all its addresses to come |
| `ScatterWalk.Walk.Start` | `kernel/crypto/scatterwalk.c:49-61` | the walk stands at the start of segment k, with the addresses from there on to come |
| `ScatterWalk.Walk.PageDone` | `kernel/crypto/scatterwalk.c:68-90` | stepping to the next page or segment drops exactly the bytes of the page just used |
| `ScatterWalk.Walk.Done` | `kernel/crypto/scatterwalk.c:92-97` | ending a block loses and repeats no address |
| `ScatterWalk.Walk.CopyChunks` | `kernel/crypto/scatterwalk.c:103-124` | the next n bytes of the list are gathered into or scattered from the buffer, across pages and zero-length segments, or stepped over when used in place; nothing else changes |
| `Cipher.WhichBuf` | `kernel/crypto/scatterwalk.c:31-39` | a block used in its page is the stretch of memory that the walk's next addresses name |
| `Aes.AesRoundTrip` | `kernel/crypto/aes.c:341-431` | for every key and block, decryption undoes encryption and encryption undoes decryption |
| `Aes.EncryptDecrypt` | `kernel/crypto/aes.c:272-431` | after `aes_set_key` with a 16-, 24- or 32-byte key, `aes_decrypt` turns back what `aes_encrypt` made of a block; other keys are refused |
| `Aes.AesCtx.Encrypt` | `kernel/crypto/aes.c:341-377` | `aes_encrypt` computes Cipher of FIPS 197 under the expanded key |
| `Aes.AesCtx.Decrypt` | `kernel/crypto/aes.c:394-431` | `aes_decrypt`, with transformed round keys and fused inverse tables, computes InvCipher of FIPS 197 (the equivalent inverse cipher of section 5.3.5) |
| `Aes.AesCtx.SetKey` | `kernel/crypto/aes.c:272-324` | keys of 16, 24 and 32 bytes and no others are accepted; E holds the key expansion of section 5.2 of FIPS 197, D its round keys, all but the outer two through InvMixColumns |
| `Aes.AesCtx.ExpandBlock` | `kernel/crypto/aes.c:241-270` | `loop4`, `loop6` and `loop8` produce the next block of the key expansion |
| `Aes.ConstantWords` | `kernel/crypto/aes.c:241-270` | the first word of each block of the expansion is the word Nk places back, SubWord of the rotated word before, and 0x01, 0x02, 0x04, 0x08, 0x10, 0x20, 0x40, 0x80, 0x1b or 0x36 |
| `AesVector.Fips197Vector` | `kernel/crypto/tcrypt.h:1612-1623` | the known answer of appendix C.1 of FIPS 197: key, block and ciphertext |
| `Aes.AesCtx.InvertKeys` | `kernel/crypto/aes.c:314-321` | D is E with InvMixColumns applied to the inner round keys |
| `Aes.ImixColIsInverse` | `kernel/crypto/aes.c:227-237` | `imix_col` is InvMixColumns on one column |
| `Aes.ForwardRound` | `kernel/crypto/aes.c:126-130` | `f_rn` is SubBytes, ShiftRows, MixColumns and AddRoundKey on one column |
| `Aes.InverseRound` | `kernel/crypto/aes.c:132-136` | `i_rn` is InvShiftRows, InvSubBytes and InvMixColumns on one column, plus the key word |
| `Aes.LsBox` | `kernel/crypto/aes.c:138-142` | `ls_box` is SubWord |
| `Aes.ForwardLast` | `kernel/crypto/aes.c:144-148` | `f_rl` is the last round on one column |
| `Aes.InverseLast` | `kernel/crypto/aes.c:150-154` | `i_rl` is the last inverse round on one column |
| `Aes.AesCtx.ForwardNRound` | `kernel/crypto/aes.c:328-333` | `f_nround` takes the state one round of the cipher on |
| `Aes.AesCtx.InverseNRound` | `kernel/crypto/aes.c:381-386` | `i_nround` takes the state one round of the equivalent inverse cipher on |
| `AesSpec.CipherInverse` | `kernel/crypto/aes.c:341-431` | InvCipher and Cipher of FIPS 197 are inverse for every key schedule and state |
| `AesSpec.MixInverse` | `kernel/crypto/aes.c:198-223` | MixColumns and InvMixColumns are inverse |
| `AesSpec.SBoxInverse` | `kernel/crypto/aes.c:181-187` | the S-box and its inverse are inverse |
| `AesTables.Tables.GenTabs` | `kernel/crypto/aes.c:156-225` | `gen_tabs` fills the round tables with MixColumns of the S-box and InvMixColumns of its inverse, and the round constants are 0x01 to 0x80, 0x1b and 0x36 |
| `AesTables.Tables.GenPowers` | `kernel/crypto/aes.c:166-173` | the antilog table holds the powers of 3 and the log table their exponents |
| `AesTables.Tables.GenSbox` | `kernel/crypto/aes.c:181-187` | `sbx_tab` is the S-box of FIPS 197 and `isb_tab` its inverse |
| `AesTables.Tables.FMult` | `kernel/crypto/aes.c:116-122` | adding logarithms with the carry added back multiplies in GF(2^8) |
| `AesTables.Tables.FFMult` | `kernel/crypto/aes.c:124` | `ff_mult` multiplies all pairs of bytes |
| `Gf8.PowInjective` | `kernel/crypto/aes.c:162-171` | 3 generates the field: its first 255 powers are all different |
| `BlockDev.Gendisk.DoOpen` | `kernel/fs/block_dev.c:547-647` | an open succeeds exactly when everything it needs does; it keeps `bd_part_count` = sum of the partitions' `bd_openers`, whole `bd_openers` = direct opens + open partitions, one gendisk and module reference per open device; a failed open returns -ENXIO, -ENOMEM or the driver's own error, each exactly when the code does, restores everything and gives the caller's reference back |
| `BlockDev.Gendisk.BlkdevPut` | `kernel/fs/block_dev.c:700-741` | a close leaves every field of every device as stated, the references on the devices among them; the last close of a partition closes the whole device too, and the bookkeeping holds |
| `BlockDev.CloseUndoesOpen` | `kernel/fs/block_dev.c:547-741` | what a close makes of what an open made of the devices is what they were, less the reference the opener came with |
| `BlockDev.OpenAndClose` | `kernel/fs/block_dev.c:547-741` | an open, whatever it meets, and the close of it if it succeeds leave all devices and the gendisk and module references as they were |
| `BlockDev.Gendisk.OpenPart` | `kernel/fs/block_dev.c:580-622` | opening a partition opens the whole device the first time only |
| `BlockDev.Gendisk.FirstOpen` | `kernel/fs/block_dev.c:580-607` | the first open of a partition fails without a trace, and with the error that belongs to it, at each of its failure points |
| `BlockDev.Gendisk.OpenWhole` | `kernel/fs/block_dev.c:547-580` | opening the whole device, for itself or for a partition being opened |
| `BlockDev.Gendisk.PutPart` | `kernel/fs/block_dev.c:700-741` | closing a partition: its last close clears it and closes the whole device, and every close gives back the reference on it |
| `BlockDev.Gendisk.PutWhole` | `kernel/fs/block_dev.c:700-741` | closing the whole device |
| `BlockDev.RunOps` | `kernel/fs/block_dev.c:547-741` | opens and closes in any order, any open failing, keep the bookkeeping, and every count is determined by the opens that succeeded and are not closed |
| `BlockClaim.ClaimedDisk.Claim` | `kernel/fs/block_dev.c:433-466` | a claim is granted, and recorded for its holder, exactly when the outstanding claims stay exclusive with it (one holder per device, no disk together with its partition), and refused with `-EBUSY` and without a trace otherwise |
| `BlockClaim.ClaimedDisk.Release` | `kernel/fs/block_dev.c:470-478` | releasing takes out one claim of its holder, who stays while there are further ones |
| `BlockClaim.ClaimedDisk.ClaimsExclusive` | `kernel/fs/block_dev.c:433-478` | in every state all outstanding claims on a device are of one holder, a disk and its partition are never claimed together, `bd_holders` is the number of claims (of a whole disk twice its own plus those of its partitions), and `bd_holder` is NULL exactly when it is 0 |
| `BlockClaim.RunClaims` | `kernel/fs/block_dev.c:433-478` | of the specification that `RunDisk` ties the code to, and which refuses what would not be exclusive: releases in between never make the claims anything else |
| `BlockClaim.RunDisk` | `kernel/fs/block_dev.c:433-478` | the code, over any sequence of claims and releases by any holders, grants and releases exactly what the specification does, so that each device has one holder and a disk and its partition are never claimed together |
| `Md5.Md5Ctx.Update` | `kernel/crypto/md5.c:160-188` | after any sequence of updates the context stands for the concatenation of the data |
| `Md5.Md5Ctx.Final` | `kernel/crypto/md5.c:190-214` | the digest is the fold of the compression over the message padded as sections 3.1 and 3.2 of RFC 1321 say |
| `Md5.LengthWords` | `kernel/crypto/md5.c:207-208` | the two length words are the 64-bit bit count |
| `Md5.InitialBytes` | `kernel/crypto/md5.c:153-156` | hashing begins with the bytes 01 23 .. ef and back (section 3.3 of RFC 1321) |
| `Sha1.Sha1Ctx.Update` | `kernel/crypto/sha1.c:119-137` | after any sequence of updates the context stands for the concatenation of the data; its bit count stays right if and only if no call is of 2^29 bytes or more |
| `Sha1.Sha1Ctx.Final` | `kernel/crypto/sha1.c:141-178` | the digest is SHA-1 of the whole message (RFC 3174), or, if its length has been miscounted, the same with the length that was counted |
| `Sha1Transform.Transform` | `kernel/crypto/sha1.c:59-105` | the 16-word circular schedule and rotated register names compute, for every state and block, what the 80-word schedule of section 6.1 of RFC 3174 computes |
| `Sha1Transform.Blk` | `kernel/crypto/sha1.c:37-40` | `blk` computes word i of the 80-word schedule in the place of word i - 16 |
| `Sha1Transform.Round` | `kernel/crypto/sha1.c:43-50` | R0 to R4 are step d of section 6.1 with the registers renamed |
| `Sha1Vector.AbcVector` | `kernel/crypto/tcrypt.h:157-163` | the known answer for "abc" |
| `Sha256.Sha256Ctx.Update` | `kernel/crypto/sha256.c:260-290` | after any sequence of updates the context stands for the concatenation of the data; the two-word counter stays its bit count if and only if every call is of less than 2^29 bytes or makes the low word overflow |
| `Sha256.Sha256Ctx.Final` | `kernel/crypto/sha256.c:292-331` | the digest is the fold of the compression over the message padded as section 5.1.1 of FIPS 180-2 says, with the length that was counted |
| `Sha256.CountedExactly` | `kernel/crypto/sha256.c:268-272` | for calls of any length the counter is exact if and only if the call is of less than 2^29 bytes or the low word overflows |
| `Sha256.InitialRoots` | `kernel/crypto/sha256.c:55-62` | hashing begins with the first 32 fractional bits of the square roots of the first eight primes (section 5.3.2 of FIPS 180-2) |
| `Streaming.AddBits` | `kernel/crypto/sha1.c:124-125` | `len << 3` in 32 bits counts a call exactly if and only if it is of less than 2^29 bytes |
| `Streaming.IndexAfter` | `kernel/crypto/sha1.c:124-125` | whatever the length of a call, the counter tells how much of a block is buffered |
| `Streaming.Overrun` | `kernel/crypto/sha1.c:127-136` | when the buffered bytes and a call come to 2^32 bytes or more together, the 32-bit sum of position and length looks like one that fits the buffer, and the loop over blocks does not stop at the end of the data |
| `Streaming.Continue` | `kernel/crypto/md5.c:160-188` | folding a message in two parts, from what the first leaves over, is folding it at once |
| `Michael.MichaelCtx.Update` | `kernel/crypto/michael_mic.c:80-112` | after any sequence of updates the context stands for the concatenation of the data |
| `Michael.MichaelCtx.Final` | `kernel/crypto/michael_mic.c:115-142` | the code is the fold of the word step over the message, 0x5a and four to seven zero bytes |
| `Michael.MichaelCtx.SetKey` | `kernel/crypto/michael_mic.c:145-157` | a key has eight bytes, which become the state; any other length is refused |
| `Michael.LastWordIs` | `kernel/crypto/michael_mic.c:120-137` | the four cases of the switch are the last word of the padded message |
| `Michael.SwappedBytes` | `kernel/crypto/michael_mic.c:39-42` | `xswap` exchanges the bytes of each half |
| `Michael.NameVector` | `kernel/crypto/tcrypt.h:2304-2310` | the known answer for "Michael" |
| `Michael.EmptyVector` | `kernel/crypto/tcrypt.h:2269-2275` | the known answer for the empty message |
| `Digest.DigestTfm.Update` | `kernel/crypto/digest.c:26-53` | the digest is fed exactly the bytes the list names, whatever its segments and pages, with no call that leaves the page that is mapped |
| `Digest.DigestTfm.Digest` | `kernel/crypto/digest.c:69-84` | init, update and final in one: the hash of the bytes of the list is written out |
| `Digest.DigestTfm.Final` | `kernel/crypto/digest.c:55-58` | the digest of what has been fed since init is written out, and the context is spent until the next init |
| `Hmac.Hmac` | `kernel/crypto/hmac.c:122-128` | `crypto_hmac` is H(K0 xor opad, H(K0 xor ipad, text)) of section 2 of RFC 2104 for every list and key length, with the result buffer reused as input |
| `Hmac.HmacInit` | `kernel/crypto/hmac.c:56-79` | a key longer than a block is replaced in place by its digest, once; the digest has been fed the prepared key with ipad |
| `Hmac.HmacFinal` | `kernel/crypto/hmac.c:87-120` | the result is the outer hash over the inner one; with a key longer than a block, which it hashes again first, the inner one is not of the text but of what that has left of the context |
| `Hmac.HashKey` | `kernel/crypto/hmac.c:24-33` | the key is overwritten by its digest |
| `Hmac.PadKey` | `kernel/crypto/hmac.c:66-70` | the block holds the key, filled up with zeros, with the pad added; nothing else changes |
| `Wp512.Wp512Ctx.Update` | `kernel/crypto/wp512.c:1003-1062` | after any sequence of updates the context stands for the concatenation of the data, less whole multiples of 2^29 bytes of each call (so all of it if and only if calls are of less than that), the next buffer byte is zero, and `bitLength` is the bit count as a 256-bit big-endian number |
| `Wp512.Wp512Ctx.Final` | `kernel/crypto/wp512.c:1064-1104` | the digest is the fold of the compression over message, 1 bit, zeros to an odd multiple of 256 bits, and the 256-bit length |
| `Wp512.CountBits` | `kernel/crypto/wp512.c:1018-1024` | the carry loop adds to the 256-bit counter, modulo 2^256, although it stops early |
| `Wp512.WordOfBytes` | `kernel/crypto/wp512.c:1091-1101` | the eight bytes put out for a word are that word, most significant first |
| `Wp512.Wp512Ctx.PutByte` | `kernel/crypto/wp512.c:1025-1038` | one turn of the loop appends one byte, processing the buffer when it is full |
| `Tea.TeaRoundTrip` | `kernel/crypto/tea.c:66-186` | TEA and XTEA decryption and encryption undo each other for every key and block |
| `Tea.TeaCtx.TeaEncrypt` | `kernel/crypto/tea.c:66-91` | `tea_encrypt` applies the 32 rounds of TEA, which are defined on numbers |
| `Tea.TeaTermIs` | `kernel/crypto/tea.c:85-86` | what the code adds is, in numbers, the exclusive or of 16 v + ka, v + sum and v / 32 + kb, each modulo 2^32 |
| `Tea.XteaTermIs` | `kernel/crypto/tea.c:156-158` | what the code adds is, in numbers, (16 v xor v / 32) + (v xor sum) + k modulo 2^32 |
| `TeaVectors.TeaZeroVector` | `kernel/crypto/tcrypt.h:1892-1900` | the known answer for key and block of zeros |
| `TeaVectors.TeaVector` | `kernel/crypto/tcrypt.h:1900-1908` | the known answer for "test me." |
| `TeaVectors.XteaVector` | `kernel/crypto/tcrypt.h:1994-2002` | the known answer of XTEA for "test me." |
| `Tea.TeaCtx.TeaDecrypt` | `kernel/crypto/tea.c:93-121` | `tea_decrypt` takes them back, last to first |
| `Tea.TeaCtx.XteaEncrypt` | `kernel/crypto/tea.c:144-164` | the loop on `sum` terminates, after exactly 32 rounds of XTEA |
| `Tea.TeaCtx.XteaDecrypt` | `kernel/crypto/tea.c:166-186` | the loop on `sum` terminates, having taken back exactly 32 rounds |
| `Tea.SumsDiffer` | `kernel/crypto/tea.c:144-186` | because delta is odd, the sums of 2^32 consecutive rounds are all different |
| `Tea.TeaCtx.SetKey` | `kernel/crypto/tea.c:45-64` | a key has sixteen bytes, which are four words, least significant byte first; any other length is refused without a trace |
| `ElfCore.CoreDump.Dump` | `kernel/fs/binfmt_elf.c:1448-1555` | a dump that runs to its end has written the headers, the notes and the pages and nothing else, each piece after the one before; an area has contents if and only if it is readable, not I/O, and writable or growing, and exactly the pages present in such areas are in the file, each where its area's header says; the note segment is where and as long as its header says, before the areas; the areas' headers cover the rest of the file one after the other, and the position equals `offset`, so the check at 1551 never fires; without failures and with limit enough it runs to its end |
| `ElfCore.FileInOrder` | `kernel/fs/binfmt_elf.c:1448-1555` | no piece of the file overlaps another |
| `ElfCore.CoreDump.WriteNote` | `kernel/fs/binfmt_elf.c:1103-1119` | `writenote` advances the file by exactly `notesize`, from a multiple of four, and writes header, name and, from the next multiple of four, data |
| `ElfCore.CoreDump.WritePhdrs` | `kernel/fs/binfmt_elf.c:1470-1490` | the headers describe the areas and stretches of the file that follow each other without gap or overlap, and are written one after the other |
| `ElfCore.CoreDump.WritePages` | `kernel/fs/binfmt_elf.c:1517-1546` | an area takes its size in the file, and every present page is written at its offset from the area's |
| `ElfCore.CoreDump.WriteHeaders` | `kernel/fs/binfmt_elf.c:1448-1490` | the headers end where the note header says the notes begin |
| `BioSplit.EndedOnce` | `kernel/fs/bio.c:834-909` | under any interleaving of partial completions of both halves and the splitter's release the master is ended exactly once, after all three, with all its bytes, and with an error exactly when a half reported one; the pair is not touched after it is freed |
| `BioSplit.HalvesPartition` | `kernel/fs/bio.c:876-909` | the first half is the sectors asked for, and every byte and sector of the master belongs to exactly one half |
| `BioSplit.BytesFollowSectors` | `kernel/fs/bio.c:890-897` | each half keeps its bytes with their sectors: a byte is as far into the master's vector as it is into its sectors |
| `BioSplit.WhatIsLeft` | `kernel/fs/bio.c:816-834` | in every interleaving what is left of a half is its size less the bytes reported done for it, and, where these are whole sectors, the end of its sectors |
| `BioSplit.CanBeEnded` | `kernel/fs/bio.c:816-870` | from wherever a run has got to the rest can be reported and the master ended |
| `BioSplit.StepKeeps` | `kernel/fs/bio.c:816-870` | every step keeps the count of parties still to release and the record of errors |
| `CharDev.Registry.RegisterRange` | `kernel/fs/char_dev.c:156-179` | for all device numbers and counts of 32 bits: every part of the range is registered, exactly when none is busy and memory suffices, or else every chain is as before, if and only if the call is sound (nothing asked for; or majors from 1 to 4094; or a range of no more than 32 bits that is refused by the first allocation or because something is in its way, and for one from major 0 also in that of every dynamic major); a range from another major than 0 that ends in major 4095 always fails, and restores the chains if and only if something up to the end of that major was in the way |
| `CharDev.RegisterLastMajor` | `kernel/fs/char_dev.c:156-179` | `register_chrdev_region(MKDEV(4095, 0), 1)` on an empty registry fails and leaves regions behind |
| `CharDev.WrapTurn` | `kernel/fs/char_dev.c:162-170` | past the last major the device number wraps to 0 and the loop goes on from there |
| `CharDev.LostTurn` | `kernel/fs/char_dev.c:162-170` | from then on the loop cannot pass what it has registered, which stays |
| `CharDev.Registry.RegisterRegion` | `kernel/fs/char_dev.c:79-134` | a static request is refused as busy exactly when a region of the major starts in the range; a dynamic one gets the highest index whose chain is empty; chains stay strictly sorted if and only if the request is refused or its key is new, as it is whenever it has minors |
| `CharDev.Registry.UnregisterRegion` | `kernel/fs/char_dev.c:136-154` | takes out the region with exactly these numbers, if there is one, and no other |
| `CharDev.Registry.RollBack` | `kernel/fs/char_dev.c:171-177` | the fail loop takes out exactly what was put in, unless the number has wrapped, and leaves the majors from where it stops on alone |
| `CharDev.BusyIsNext` | `kernel/fs/char_dev.c:115-125` | looking at the successor alone decides whether any region of the major starts in the range |
| `CharDev.Canonical` | `kernel/fs/char_dev.c:115-130` | two registries with the same regions have the same chains |

## Left out

- AioCareful.NeverBug: cancel callbacks are taken to drop the reference that was taken for them, and a handler to run only when it has been put on the work queue.
- AioExact.CarefulRunsExact: a system call may drop its lookup whenever it is in neither `__aio_run_iocbs` nor `aio_read_evt`; that `io_destroy` cancels and waits before it does is kept in the runs of AioHazards but is not a rule of the machine.
- Aio.RefsConserved: contexts are destroyed through `sys_io_destroy` and `exit_aio`; the failure path of `sys_io_setup`, which calls `io_destroy` without a lookup reference, is not modelled.
- AioThreads.RunListServed: that the threads and the work queue it names go on is not stated.
- AioModel and BioSplit give their steps as functions from state to state, because what is proved is about all interleavings; that the fields are updated in place is not captured there.
- Synchronous kiocbs, the pread/pwrite retry methods, timeouts of `read_events`, work queue scheduling, and user space writing to the ring header.
- Memory barriers: steps are sequentially consistent, in the order the code writes them.
- Cipher.Crypt: without an initialisation vector `cbc_process` does nothing, and of the destination only the frame is stated then.
- Cipher.Crypt: cipher functions are taken to read their source block before they write the destination; kmap, cache flushes and yielding are not modelled.
- Aes.AesCtx.SetKey: the error is a boolean; `CRYPTO_TFM_RES_BAD_KEY_LEN` is not stored. The arrays E and D are the two halves of one array of 120 words, so that the four words `loop8` writes past the end of E for a 32-byte key land in D, which is filled afterwards.
- Sha1.Sha1Ctx.Update: the buffered bytes and the call are less than 2^32 bytes together; otherwise the code leaves its buffers (`Streaming.Overrun`).
- Sha256.Sha256Ctx.Update: the same.
- Md5.Md5Ctx.Final: the compression functions of MD5, SHA-256 and Whirlpool are parameters; that the contexts are wiped is not stated of the single digests.
- Sha1Transform.Transform: the 80 unrolled steps are rolled into groups of five, after which the registers have their names again.
- Hmac.HmacFinal: what a digest makes of a context that has not been initialised since its last final is a parameter.
- Digest.DigestTfm.Digest: a segment that crosses a page is taken to be contiguous where it is mapped.
- BlockDev.Gendisk.DoOpen: one call runs at a time (the big kernel lock and `bd_sem`); sizes, backing device info and partition rescans are not modelled.
- BlockDev and BlockClaim keep the devices of a disk as a sequence, so sharing of `struct block_device` objects is by index.
- ElfCore.CoreDump.Dump: header sizes are multiples of four, areas whole pages, no architecture-specific extra headers; file offsets do not overflow.
- CharDev.Registry.RegisterRange: disjointness of minor ranges is not promised, since only the successor is looked at; whether an allocation succeeds is a function of the device number.
- BioSplit.HalvesPartition: for a bio of one vector, which `bio_split` demands.
- Table-driven and Feistel ciphers other than AES, TEA and XTEA, md4, sha384 and sha512, tgr192, deflate, crc32c, algorithm registration.
- Loading of binaries, the rest of bio.c, block_dev.c and char_dev.c: memory management and VFS plumbing, or easy list facts.
