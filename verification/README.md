# A verified model of pkgexec

pkgexec is a small privileged helper that carries out apt operations approved elsewhere. An
operation is described by a plan; the plan is written as one canonical byte string and hashed; the
hash is bound to a one-time receipt; and the helper touches the host only after a broker has
redeemed that receipt for exactly the plan the helper computed itself, under the package lock.

This project models that helper in Dafny and proves what its design rests on:

* **The bytes determine the plan.** Two plans have equal canonical bytes exactly when their verbs
  agree and their multisets of normalised records agree, within and across the four encoders
  (`Invariance.EqualBytesIffSamePlan`). Decoding gives the normalised records back
  (`Invariance.DecodeInvertsPlan`). Each encoder accepts exactly its stated domain: no intermediate
  string limit refuses anything the limit on the whole plan would not
  (`Encoder.DigestPkgTxn` and its three siblings).
* **What is redeemed is what is committed.** In every run, with other apt frontends interleaved at
  every step, a change of the host happens only after hygiene and after the single call to the
  broker drew the strict reply for the request's correlation id; dpkg starts with the frontend lock
  held and the database lock released, on the very state whose records were digested and redeemed
  (`Entrypoint.Run`, `Story.ToldIsSafe`, `Story.CommitIsWhatWasRedeemed`).
* **A binary performs its own verb.** Each of the nine builds asks the broker for its own operation on
  the request's packages, with the request's receipt and on behalf of the uid pkexec vouches for,
  starts only its own kind of work, and marks or writes nothing but the packages of the request
  (`Entrypoint.Run`).
* **The helper does what it may.** In a run in which no call fails, a request that parses is parsed,
  the plan step is reached unless the state read rules the request out, and a redeemed plan is
  carried through to the end of the script (`Story.Progressed`, `Story.Reaches`, ensured by every
  effector). What is then reported is exactly what the child, the locks and the look back say.
* **What was shown is what is redeemed.** The unprivileged preview reports ok with a resource and a
  hash exactly when the privileged plan step goes on to redeem that same verb, resource and hash; if
  the broker accepts only a previewed binding and the hash is injective, then what a run commits has
  the records the preview showed (`Preview.PreviewMatchesPlanStep`, `Preview.CommittedIsShown`).
* **The byte loops are right and end.** The framed transport and the stdin reader work against
  arbitrary short transfers, interruptions and clock readings: nothing but a prefix of one frame
  leaves the process, nothing moves before the peer is known or after the deadline, every socket is
  closed exactly once, success means the whole body, and the loops terminate. Failure is exact too:
  without a failed call or an expired clock there is none, except by what the peer says.

## How it is organised

Strings are sequences of non-NUL bytes (`Bytes.Str`); a C pointer that may be NULL is an option.
`Order`, `Utf8`, `Buffer` and `Lists` are the codec's parts, `Canon` its meaning as a function,
`Schema` that meaning written out with the literals of schema 1, `Encoder` the encoders as they run
(arrays sorted in place, one growable buffer object), `Decode` the preview's decoder, `Invariance` the
laws between them, `Golden` some of the published test vectors.
`Names` has the hand-written scanners, `Request` the strict parsers over a JSON tree.
`Deadline`, `Kernel`, `Transport` and `StdinReader` are the deadline-bounded loops; `Kernel.Os` is an
operating system whose every answer comes from an oracle, watched by a monitor.
`Policy`, `Builders` and `Selections` lead from the package cache to plan records and, for holds, to
the lines dpkg reads. `Host.Machine` is the host: two locks, package state, other frontends acting
between any two calls, a ghost trace of everything that matters. `Redeem`, `PlanStep`, `Status`,
`Spawn`, `Story`, `Telling`, `Commits`, `Effectors` and `Entrypoint` are one helper run on that host;
`Ownership` and `SourceBinding` say what the policies and the source records guarantee; `Preview` is the
preview and its agreement with the run. `Witness` exhibits one run that is shown, redeemed and
committed in full, so that the premises of the whole-run theorems are known to be satisfiable.

A ghost `Story` is returned by every effector. It says which events the run added to the trace:
always the beginning of one fixed script, `Story.Told`. Whole-run theorems are proved about told
stories and then hold for every run.

## Where the code and its documentation disagree

The model follows the code.

* `src/apt_status.h:25` says that the status operation-failed means dpkg ran. For hold and configure
  the code also reports it when no child was started. For a redeemed run the effectors are proved to
  keep the documented meaning exactly when every call from the release of the inner lock to
  posix_spawn succeeds, six for hold and four for configure (`Story.ChildFate`, part of `Story.Runs`,
  which `Effectors.HoldEffect` and `Effectors.ConfigureEffect` ensure). `Witness.HoldRun` and
  `Witness.ConfigureRun` are whole runs that fail that way. The `effect_issued` flag is exact.
* `src/apt_status.h:26` says that the status broken, too, means dpkg ran. A configure that finds a
  package half-installed reports it before it spends the receipt (`Witness.HalfInstalledRun`). Over
  all runs of hold and configure the two statuses mean what is documented exactly if no such package
  was found and, once the receipt is spent, every call up to posix_spawn succeeds:
  `Telling.FailureMeansRanIff`. For transactions they always mean it, and for update the status
  operation-failed always means that the refresh was started: `effect_issued` is set.
* `src/apt_status.h:63` says that a confirmed hold or unhold means every changed target reads back in
  the intended state. The code compares held with not held. So it is true, whatever is read back,
  exactly for a hold and for an unhold that changes nothing: `Selections.MatchIsIntendedIff`.
  `Selections.UnholdAcceptsDeinstall` gives a state that is accepted and not intended.
* `src/plan.c:127-128` says that a rapt-owned package is never held or unheld. The code applies the
  predicate to the target as requested, and a name with an architecture, `r-cran-foo:amd64`, does not
  match it (`Ownership.QualifiedNameSlipsThrough`, and a whole run in `Witness.OwnedPackageIsHeld`).
  A started hold changes a rapt-owned package exactly when some target it toggles is such a name with
  an architecture: `Ownership.StartedHoldIsClean`. Transactions and configure look at the package's
  own name and keep the promise: `Ownership.StartedTransactionIsClean`,
  `Ownership.StartedConfigureIsClean`.
* `src/apt_effect.hh:46` allows a nonempty resource token for update. The code refuses it before
  doing anything: `Effectors.UpdateEffect`.
* The encoding writes an empty component list and the list of one empty component the same way:
  `Invariance.LoneEmptyComponentIsInvisible`, exactly bounded by
  `Invariance.ComponentsCompareExactly`. The source builder never produces an empty component:
  `Builders.ComponentsNonempty`.
* A source record writes architectures as one text, separated by spaces, and an inline signing key
  as a token. So every source with two or more architectures, or with one whose name is spelled like
  a listing of two, is written like a source with other architectures; for all others the text
  determines the set (`SourceBinding.ArchitecturesAreBoundIff`). Among names without spaces it always
  does (`SourceBinding.ArchitecturesAreBound`). A source signed by the literal text of a token is
  written like one signed by the key it is the token of: `SourceBinding.TokenImitates`,
  `SourceBinding.SpelledTokenCollides`, exactly bounded by `SourceBinding.SigningIsBound`. Everything
  else a record writes is compared exactly: `SourceBinding.RecordBindsSource`.
* Decoding the bytes of a plan without records yields one spurious empty record:
  `Invariance.DecodeInvertsPlan` is an equivalence. The preview reports an empty plan before decoding.

## Assumptions stated in the model

* Other apt frontends change package state only while they hold the frontend lock
  (`Host.Machine.Interleave`).
* A failed call is one whose answer the source itself treats as a failure; `Host.Machine.Try` and
  `Kernel.Fails` say which. Progress is claimed for runs without them.
* A run of interrupted system calls is finite (`Host.Machine.Patient`); the monotonic clock is well
  formed and advances by at least a nanosecond every so many readings (`Deadline.Progressing`).
* Looking up a target name finds the package named before the colon (`Ownership.FindsByName`). Only
  `Ownership.StartedHoldIsClean` uses it, to compare the name of the package with the text of the target.
* Injectivity of the hash and a broker that accepts only the previewed binding are explicit
  hypotheses of the lemmas in `Preview` that need them, and of nothing else.
* dpkg applies the lines it reads one after the other (`Selections.Apply`); this is used only for the
  lemmas about the state after a hold, never for the safety of a run.

## Model

| member | source | states |
|---|---|---|
| `Order.CmpBytewise` | src/digest.c:141-152 | the comparison loop decides the strict lexicographic order on unsigned bytes, a prefix being smaller, and 0 means equal |
| `Order.QSort` | src/digest.c:197 | sorting in place leaves a sorted permutation of the array, equal to the one sorted list with those elements |
| `Order.SortedPermutationIsUnique` | src/digest.c:141-152 | a bytewise-sorted list is determined by its multiset, so the sort order leaves nothing open |
| `Order.SortEqualIffSameMultiset` | src/digest.c:295-320 | sorted lists agree exactly when the multisets agree |
| `Order.SortEqualIffSameSet` | src/digest.c:180-222 | for lists without duplicates, sorted lists agree exactly when the sets agree |
| `Utf8.Utf8Valid` | src/digest.c:88-125 | the scanner accepts exactly the valid strings; every byte it reads is at or before the terminator |
| `Utf8.ValidIffEncodedScalars` | src/digest.c:88-125 | valid means: a concatenation of encodings of Unicode scalar values as sections 3 and 4 of RFC 3629 define them (no overlong form, surrogate, or value above U+10FFFF) |
| `Utf8.AcceptedIsEncoding` | src/digest.c:96-121 | one accepted sequence is the one encoding of the scalar value it accumulates |
| `Utf8.EncodingIsAccepted` | src/digest.c:96-121 | the encoding of every scalar value is accepted as one sequence, whatever follows |
| `Utf8.EncodeAllInjective` | src/digest.c:88-125 | different scalar sequences have different encodings |
| `Utf8.MasksAreDivisions` | src/digest.c:91-107 | the bit masks and shifts of the scanner are the divisions and remainders of the model, for every byte |
| `Buffer.Buf.Reserve` | src/digest.c:48-70 | growth is refused by the 4 MiB cap alone, refusal changes nothing, growing keeps every byte, capacity stays 0 or 64 times a power of two within the cap, and bytes moved stay below the capacity |
| `Buffer.Buf.Add` | src/digest.c:72-79 | a chunk is appended whole or, past the cap, not at all |
| `Buffer.Buf.Addc` | src/digest.c:81 | the same for one byte |
| `Buffer.AppendsConcatenate` | src/digest.c:43-81 | after any run of appends the contents are the concatenation of the accepted chunks, and nothing is refused that fits |
| `Buffer.DoublingStaysBelowCap` | src/digest.c:55-63 | doubling while below a need within the cap never passes the cap |
| `Lists.SplitOn` | tools/preview.cc:94-107 | the splitting loop yields exactly the pieces between delimiters, none for the empty string |
| `Lists.PiecesOfJoin` | tools/preview.cc:94-107 | splitting undoes joining for nonempty lists whose items avoid the delimiter |
| `Lists.SplitOfJoin` | tools/preview.cc:114-120 | the preview's split undoes joining except where it cannot: for the lone empty item |
| `Lists.JoinOfPieces` | tools/preview.cc:94-107 | joining undoes splitting for every string |
| `Encoder.CheckField` | src/digest.c:129-139 | a field passes exactly if it is strict UTF-8 without separator, comma or equals sign; NULL passes |
| `Encoder.InSet` | src/digest.c:32-39 | the domain search decides membership |
| `Encoder.JoinSorted` | src/digest.c:180-222 | a list is refused exactly for a bad field, a value outside the domain or a duplicate; otherwise the sorted comma list is built if it fits with its terminator |
| `Encoder.JoinSortedKv` | src/digest.c:226-283 | the same for key=value options: known keys, no key twice, good fields |
| `Encoder.AddField` | src/digest.c:285-291 | a field is appended exactly if it is a field and fits |
| `Encoder.PkgTxnRecord` | src/digest.c:336-358 | a transaction record is built exactly if it is in the domain and its text fits, and then is that text |
| `Encoder.CfgRecordString` | src/digest.c:386-402 | the same for a configure record |
| `Encoder.HoldRecordString` | src/digest.c:414-432 | the same for a hold record |
| `Encoder.SrcRecordString` | src/digest.c:445-473 | the same for a source record |
| `Encoder.RecordFitsInPlan` | src/digest.c:48-53 | every record string with its terminator fits whenever the plan does: the limit on pieces never refuses more than the limit on the plan |
| `Encoder.Finalize` | src/digest.c:295-325 | sorting, joining, capping and hashing the record strings yields the assembled bytes and their hash, exactly if the verb is a field, they fit and the hash succeeds |
| `Encoder.DigestPkgTxn` | src/digest.c:360-379 | exact acceptance: succeeds iff verb and records are in the domain, the canonical bytes fit in 4194304 and the hash succeeds; returns those bytes and their hash |
| `Encoder.DigestConfigure` | src/digest.c:381-407 | exact acceptance for configure plans |
| `Encoder.DigestHold` | src/digest.c:409-438 | exact acceptance for hold and unhold plans |
| `Encoder.DigestUpdate` | src/digest.c:440-479 | exact acceptance for update plans |
| `Encoder.Resource` | src/digest.c:481-489 | the resource exists exactly for distinct field-safe targets that fit, and is their sorted comma list |
| `Schema.FieldIsWritten` | src/digest.c:127-139 | a field is strict UTF-8 without the bytes 0x1e, 0x1f, comma and equals sign |
| `Schema.PlanIsWritten` | src/digest.c:295-325 | the verbs of each encoder, the cap of 4194304 bytes, and the frame: 1, verb and the sorted records, each behind a 0x1e |
| `Schema.TxnRecordIsWritten` | src/digest.c:336-358 | the domain of a transaction record, its five actions and four flags, and its text field by field |
| `Schema.CfgRecordIsWritten` | src/digest.c:386-402 | the same for a configure record and its five states |
| `Schema.HoldRecordIsWritten` | src/digest.c:414-432 | the same for a hold record and its two states |
| `Schema.SrcRecordIsWritten` | src/digest.c:445-473 | the same for a source record and its three option keys |
| `Canon.FieldsAvoidSeparators` | src/digest.c:129-139 | no field of a valid record, sub-lists included, contains a record or unit separator |
| `Canon.RecordStringsShape` | src/digest.c:336-473 | valid record texts are nonempty and free of the record separator |
| `Decode.CsvArray` | tools/preview.cc:114-120 | the array is the split of the field |
| `Decode.OptionsObject` | tools/preview.cc:124-133 | the object maps each key to the text behind its first equals sign |
| `Decode.DecodeRecords` | tools/preview.cc:138-176 | the decoder yields one record per piece behind tag and verb, field by field |
| `Invariance.EqualBytesIffSamePlan` | src/digest.c:295-479 | equal canonical bytes iff same verb and same multiset of normalised records, for any two plans of any encoders in the domain |
| `Invariance.RecordTextIffView` | src/digest.c:336-473 | record texts agree exactly when the normal forms agree |
| `Invariance.FlagsCompareAsSets` | src/digest.c:336-358 | normal forms of transactions agree exactly when the scalar fields agree with NULL as empty and the flags agree as sets |
| `Invariance.ComponentsCompareExactly` | src/digest.c:440-479 | normal forms of sources agree exactly when scalars and option maps agree and the components agree as sets, or one list is empty and the other the lone empty string |
| `Invariance.LoneEmptyComponentIsInvisible` | src/digest.c:440-479 | the concrete pair of records with different components and equal bytes |
| `Invariance.OptionsIgnoreOrder` | tools/preview.cc:124-133 | with distinct keys the decoded object does not depend on the order of the pairs |
| `Invariance.DecodeInvertsRecord` | tools/preview.cc:138-176 | decoding the text of any valid record gives its normal form, empty fields and lists included |
| `Invariance.DecodedFields` | tools/preview.cc:138-176 | what is shown of an encoded record, field by field: each text under its own name, flags and components in order, every option under its key and no other |
| `Invariance.DecodeInvertsPlan` | tools/preview.cc:94-176 | decoding a plan's bytes gives its normalised records in sorted order iff it has a record |
| `Invariance.CanonicalPieces` | src/digest.c:295-320 | the separator-delimited pieces of the bytes are tag, verb and the sorted record texts |
| `Invariance.MultisetTransfer` | src/digest.c:295-320 | if one image determines another, equal multisets of the one give equal multisets of the other (duplicates count) |
| `Golden.InstallMulti` | tests/fixtures/plan-digest/vectors.json:19-27 | the published bytes of the two-record install vector |
| `Golden.HoldSingle` | tests/fixtures/plan-digest/vectors.json:76-83 | the published field order of a hold |
| `Golden.ConfigureSingle` | tests/fixtures/plan-digest/vectors.json:68-75 | the published field order of a configure |
| `Golden.UpdateSingle` | tests/fixtures/plan-digest/vectors.json:92-99 | the published bytes of the update vector: components given out of order, and a signing option |
| `Names.NameOk` | src/request.c:52-87 | accepts exactly a package name with an optional architecture, within the length limit |
| `Names.TargetNameIsField` | src/request.c:52-87 | what the name scanner accepts is a digest field and one word of one line |
| `Names.CidValid` | src/request.c:28-47 | accepts exactly twenty digits, a dash, sixteen lower-case hex digits |
| `Names.IsRaptOwned` | src/policy.c:8-29 | accepts exactly `^r-[a-z]+-[a-z0-9.]+$` |
| `Names.LastOccurrence` | src/digest.c:498-508 | the scan finds the last footer, overlapping ones included |
| `Names.FooterIsLast` | src/digest.c:498-518 | a footer with only whitespace behind it is the last one, so looking at the last one decides whether there is any |
| `Names.SignedByInlineToken` | src/digest.c:491-525 | the original is kept exactly when the value is not an armored key block; otherwise the token is the prefix and the hash of the exact bytes |
| `Names.TokenIsField` | src/digest.c:129-139 | the token is always a field, 78 bytes long |
| `Request.ParseRequest` | src/request.c:258-354 | accepts exactly the trees of the stated shape and returns what they say; a verb is unknown exactly outside the nine; exactly install, remove, purge, hold and unhold take packages, and for them every nonempty list of at most 256 distinct well-formed names in an otherwise valid tree parses, as the empty list does for the other four |
| `Request.ParsePreviewRequest` | src/request.c:384-466 | the same for preview requests, whose verb is in the tree |
| `Request.WrittenParses` | src/request.c:258-354 | every valid receipt, correlation id, timeout and package list, written as a document, parses back for every verb of fitting arity |
| `Request.DepthIsNesting` | src/request.c:103-130 | the recursive depth is the length of the longest chain of nested containers |
| `Request.ParsePackages` | src/request.c:314-344 | the package loop accepts exactly lists of distinct well-formed names of the right number |
| `Request.ParseIsUnique` | src/request.c:258-354 | a tree parses to at most one request |
| `Request.TargetListHasResource` | src/digest.c:481-489 | every parsed target list has a resource |
| `Request.ResourceNamesTheTargets` | src/digest.c:481-489 | resources of parsed lists agree exactly when the sets of names agree |
| `Deadline.DeadlineIsExact` | src/transport.c:17-26 | the deadline is now plus ms to the nanosecond, normalised |
| `Deadline.MsLeftIsSound` | src/transport.c:30-37 | the remainder is within a millisecond of the true one and positive only if time remains |
| `Deadline.ReadingsAreBounded` | src/transport.c:70-131 | under a progressing clock every reading from a computed number on is past the deadline |
| `Kernel.SocketsBalance` | src/transport.c:136-282 | a run the monitor passes has closed every socket it opened, exactly once |
| `Kernel.TransfersAreInTime` | src/transport.c:70-131 | in such a run each transfer directly follows a clock reading before the deadline |
| `Kernel.TransfersAreAuthenticated` | src/transport.c:213-229 | in such a run each transfer comes after the peer of the open socket was seen to be the required user |
| `Kernel.TransfersAreConnected` | src/transport.c:150-172 | ... and after the connection of that socket was made: by connect itself, or by a clean SO_ERROR where it had been left in progress |
| `Transport.DecodeInvertsEncode` | src/transport.c:231-255 | the length read from a header is the length written to it |
| `Transport.EncodeInvertsDecode` | src/transport.c:231-255 | a header of this version is the one written for the length read from it |
| `Transport.WaitFd` | src/transport.c:41-63 | waits within the deadline whatever poll does, terminates, and gives up only on a failed poll or an expired clock |
| `Transport.WriteFull` | src/transport.c:70-98 | sends a prefix of the data, all of it exactly on success, each piece in time |
| `Transport.ReadFull` | src/transport.c:104-131 | stores the next n bytes of the peer on success and terminates |
| `Transport.ConnectDeadline` | src/transport.c:136-188 | on success exactly one socket is open, on failure none; it fails only for the path, a failed call or the deadline |
| `Transport.ReceiveHeader` | src/transport.c:245-260 | five bytes are read: byte 0 has to be 1, bytes 1 to 4 are the length with the highest byte first, and it is at most 65536; a version or length error says that the peer sent otherwise |
| `Transport.TransportTx` | src/transport.c:190-282 | what leaves the process is, byte for byte, a prefix of 1, the big-endian length and the request; success means all of it, and a reply of the same form whose body is returned; every error has its cause: a foreign peer, a hung-up peer, a wrong version, a length above 65536, less than a millisecond left, or a failed call, before or after the whole request had left; the deadline is the timeout, or 5000 ms, after the first clock reading; all sockets are closed, and the clock is read boundedly often |
| `StdinReader.ReadStdin` | src/request.c:156-237 | success returns the whole stream of at most 65536 bytes; a longer one is never returned; too-large is only said of a longer one, io only for a failed call, and deadline only if a poll said the time was up, which is taken at its word, or the last clock reading was past the deadline to the millisecond |
| `StdinReader.ReadLoop` | src/request.c:176-229 | every read has room, the terminator lands inside the allocation, and the loop ends under a progressing clock |
| `Policy.PolicyCheck` | src/policy.c:45-71 | ownership of any record before any hold flag before the removal of anything essential or protected, with the first record that earned the verdict |
| `Policy.EqualBytesSameVerdict` | src/policy.c:45-71 | plans with equal bytes get equal verdicts |
| `Policy.VerdictFromView` | src/policy.c:31-71 | the policy depends on a record only through its normal form |
| `Builders.MapTxn` | src/apt_common.cc:39-98 | one record per changing package, in cache order and one to one: its name and architecture, the action of its mark (purge apart from remove, install, upgrade, downgrade), from the current version to the target, the empty string for none, and its flags |
| `Builders.HolderOf` | src/apt_common.cc:43-83 | package, architecture, action, from and to text of one package; nothing exactly for an unchanged one |
| `Golden.InstallIsRecorded` | tests/fixtures/plan-digest/vectors.json:19-27 | a plan to install a package that is not there lists exactly the published record: from the empty string to the target version |
| `Builders.RecordsAreTheChanges` | src/apt_common.cc:39-98 | a record is present exactly if a changing package has it |
| `Builders.TxnRecordDomain` | src/apt_common.cc:44-79 | only package, architecture and version text can make the encoder refuse a built record |
| `Builders.PolicyOfResolved` | src/apt_common.cc:62-79 | a plan is allowed exactly when no changing package is rapt-owned or held and no removed one essential or protected |
| `Builders.MapConfigure` | src/apt_common.cc:265-297 | one record per pending package, in cache order and one to one, with the state word of its dpkg state, or the first half-installed package |
| `Builders.CfgRecordsArePending` | src/apt_common.cc:276-286 | a configure record is present exactly if a pending package has it |
| `Builders.CfgRecordDomain` | src/apt_common.cc:119-132 | only text can make the encoder refuse a configure record |
| `Builders.MapSources` | src/apt_common.cc:134-219 | one record per present source, in list order and one to one, each describing its source |
| `Builders.DescriptionIsWritten` | src/apt_common.cc:134-219 | a description has the uri, the suite, the distinct nonempty components in order, the signing identity, the distinct architectures in order separated by spaces, and trusted=yes or trusted=no exactly where trust is explicit |
| `Builders.TxnPlanDomain` | src/apt_common.cc:39-98 | a built transaction is in the domain exactly if the text of every changing package is |
| `Builders.CfgPlanDomain` | src/apt_common.cc:265-297 | a built configure plan is in the domain exactly if the text of every pending package is |
| `Builders.SrcPlanDomain` | src/apt_common.cc:134-219 | a built update plan is in the domain exactly if the text of every source is |
| `SourceBinding.DescriptionIsUnique` | src/apt_common.cc:134-219 | a source has one record, field by field |
| `SourceBinding.SameListSameRedemption` | tools/preview.cc:343-365 | whoever maps one source list gets the same settlement and the same redemption request |
| `SourceBinding.RecordBindsSource` | src/apt_common.cc:134-219 | normal forms agree exactly when uri, suite, components, signing identity, explicit trust and written architectures do |
| `SourceBinding.ArchitecturesAreBound` | src/apt_common.cc:174-184 | among sources whose architecture names have no space, the written architectures agree exactly when the sets do |
| `SourceBinding.ArchitecturesAreBoundIff` | src/apt_common.cc:174-184 | for every source: any source written with the same architectures has the same set, exactly if it has at most one architecture and that one is not spelled like a listing of two |
| `SourceBinding.SpacedArchitecturesCollide` | src/apt_common.cc:174-184 | a concrete pair: two architectures, and one whose name is their listing, with one text |
| `SourceBinding.SigningIsBound` | src/apt_common.cc:158-173 | exactly when two signing values are written alike |
| `SourceBinding.TokenImitates` | src/apt_common.cc:158-173 | for every inline key that hashes, its token as a literal signing value is a different value written the same way |
| `SourceBinding.SpelledTokenCollides` | src/apt_common.cc:158-173 | two concrete different signing values with one written form |
| `Builders.SignedByValue` | src/apt_common.cc:158-173 | an inline key is replaced by its token, anything else and any hash failure keeps the original |
| `Builders.SrcRecordDomain` | src/apt_common.cc:144-196 | a built source record is in the domain exactly if uri, suite, components and option values are fields |
| `Builders.ComponentsNonempty` | src/apt_common.cc:144-157 | a built source record has no empty component |
| `Builders.InlineKeyIsField` | src/apt_common.cc:158-173 | an inline key that hashes never makes a source unencodable |
| `Selections.MapHold` | src/apt_common.cc:221-263 | the targets in the other state, in order and one to one, with records from install to hold or back; or the first unknown target, or one selected neither for install nor for hold |
| `Selections.ChangesAreToggled` | src/apt_common.cc:227-254 | a change is present exactly for a target in the opposite selection |
| `Selections.HoldRecordsEncodable` | src/apt_common.cc:255-261 | every hold record of parsed targets is in the encoder's domain |
| `Selections.HoldPlanEncodable` | src/digest.c:409-438 | every hold plan of a parsed target list is encodable outright: verb, records and size |
| `Ownership.HoldFailsOnlyToHash` | src/plan.c:137-150 | for a parsed hold request the plan step ends in an internal error only when hashing fails |
| `Selections.BuildPayload` | src/apt_hold.cc:164-170 | the payload is one line per change |
| `Selections.PayloadRoundTrip` | src/apt_hold.cc:164-170 | the lines read back as exactly the package and target state of the digested records, in order |
| `Selections.PayloadWords` | src/apt_hold.cc:164-170 | every line of the payload names a requested package, with the word hold for a hold and install for an unhold |
| `Selections.ApplySelections` | src/apt_hold.cc:51-78 | applying assignments that agree on the word sets exactly the packages some name finds, aliases included |
| `Selections.TargetsEndAsIntended` | src/apt_hold.cc:80-105 | after the write every target is in the intended selection |
| `Selections.OthersStay` | src/apt_hold.cc:80-105 | no package that no target names is changed |
| `Selections.RepeatIsNoOp` | src/apt_common.cc:245-247 | asking again finds nothing to change |
| `Selections.SelectionsMatch` | src/apt_hold.cc:84-105 | the read-back loop decides whether every change shows its held or not-held state; no cache means no |
| `Selections.WriteIsConfirmed` | src/apt_hold.cc:84-105 | a write that was carried out is confirmed |
| `Selections.MatchMeans` | src/apt_hold.cc:92-100 | what a confirmed read-back proves, exactly |
| `Selections.MatchIsIntendedIff` | src/apt_hold.cc:92-100 | a confirmed read-back means the intended selection, whatever is read back, exactly for a hold or when nothing changes |
| `Selections.UnholdAcceptsDeinstall` | src/apt_hold.cc:92-100 | a state that confirms an unhold without being the intended one |
| `Host.Machine.Interleave` | src/apt_txn.cc:159-166 | while this process holds the frontend lock, other frontends change neither lock nor package state |
| `Redeem.Classify` | src/redeem.c:96-139 | ok exactly on the strict reply for the cid, refused exactly on an error of the closed set, mismatch exactly on an ok reply for another cid, else a protocol or transport fault |
| `Redeem.RepliesAreExclusive` | src/redeem.c:104-139 | no reply is taken two ways |
| `Redeem.StrictReplyIsExact` | src/redeem.c:109-116 | without duplicate keys the strict reply has exactly the keys ok, correlation_id and persisted, and they say true, the cid, true |
| `Redeem.RefusalIsExact` | src/redeem.c:126-139 | ... and a refusal exactly ok, error and message |
| `Redeem.WrittenReplies` | src/redeem.c:104-139 | the two replies as a broker writes them are taken as strict ok and as refusal, for every cid of full length and every code of the closed set |
| `Redeem.KnownError` | src/redeem.c:19-26 | the search decides membership in the closed set of codes |
| `Redeem.Spend` | src/redeem.c:77-144 | at most one call; the cid is taken over only on the strict reply |
| `Redeem.CidEcho` | src/redeem.c:150-156 | the expected cid if it has full length, else the empty one |
| `PlanStep.RedeemTail` | src/plan.c:12-46 | ok exactly on the strict reply; the cid is echoed after a refusal and cleared after anything unknown |
| `PlanStep.PlanAndRedeemTxn` | src/plan.c:48-93 | empty, policy with its offender, resource, digest, redemption, in that order; the redemption asks for exactly this plan's verb, resource and hash |
| `PlanStep.PlanAndRedeemUpdate` | src/plan.c:95-114 | the same without policy, for the whole source list |
| `PlanStep.PlanAndRedeemHold` | src/plan.c:116-150 | the same with the ownership policy |
| `PlanStep.PlanAndRedeemConfigure` | src/plan.c:152-181 | the same with the ownership policy and the fixed resource |
| `PlanStep.FindOwned` | src/plan.c:129-135 | the loop finds the first rapt-owned record, if there is one |
| `PlanStep.OkMeansRedeemed` | src/plan.c:12-93 | a plan step ends ok exactly when its one call, for this very binding, drew the strict reply |
| `PlanStep.SettledMakesNoCall` | src/plan.c:48-181 | no call is made for an empty plan, a refused policy, a bad resource or a failed digest |
| `PlanStep.CidDiscipline` | src/plan.c:28-45 | with a valid cid seeded, it is cleared exactly when redemption was reached without a definite answer |
| `Status.Gate` | src/effect.c:9-34 | commits exactly on an ok plan with a committer and a valid cid |
| `Status.TxnClassify` | src/apt_status.c:4-27 | which statuses mean that execution began, and what ok and broken need |
| `Status.UpdateClassify` | src/apt_status.c:29-41 | ok exactly on a good refresh whose indexes read back |
| `Status.HoldClassify` | src/apt_status.c:43-55 | ok exactly on an applied and confirmed selection |
| `Status.HandoffIsHonest` | src/apt_status.c:57-68 | through hand-off and classifier: ok needs unlock, completion, relock and no breakage; not-applied exactly without hand-off |
| `Spawn.BuildChildEnv` | src/spawn.c:20-42 | the array is the extra entries, the inherited ones, and NULL |
| `Spawn.ExtraWins` | src/spawn.c:14-19 | an extra entry hides any inherited one of its name and nothing else |
| `Spawn.Deliver` | src/spawn.c:129-143 | what the calls of write() took is a prefix of the input, as long as the loop says, and the loop terminates |
| `Spawn.Wait` | src/spawn.c:157-164 | waiting ends with the first answer of waitpid that is no interruption, and reports that one |
| `Spawn.SpawnWaitEnv` | src/spawn.c:44-167 | started exactly when each call up to posix_spawn succeeds, with the given arguments and environment; success exactly when also write() took all input under the signal guard and waitpid reported exit 0 |
| `Commits.TxnCommit` | src/apt_txn.cc:58-118 | the trace of a transaction commit follows the script; dpkg is started exactly if setup, archives, fetch and the release of the inner lock succeed; success exactly when dpkg completed and the inner lock is back |
| `Commits.DpkgCommit` | src/apt_hold.cc:51-78 | the script of a dpkg child, which is told that the frontend lock is held; it exists exactly if each call from the inner lock to posix_spawn succeeds and was fed nothing but a prefix of the input; success exactly with all input, exit 0 and the inner lock back |
| `Commits.UpdateCommit` | src/apt_update.cc:46-52 | entering is starting the refresh of the retained list |
| `Commits.GroundTruthBroken` | src/apt_common.cc:299-324 | broken exactly when the state cannot be read or anything in it is incomplete |
| `Effectors.TxnEffect` | src/apt_txn.cc:127-274 | every run is a told story with an honest outcome; the status of every run is fixed: by the failed call or the state read before the plan step, by what settled the plan step, no-intent when the broker did not authorise; the resolver is asked to install or delete exactly the targets as found, purging exactly for purge, or to upgrade everything, removing packages exactly for dist_upgrade; a redeemed run starts dpkg exactly if setup, archives, fetch and the release of the inner lock succeed; issued exactly under ok, operation-failed or broken; once issued, broken and ok mean exactly what dpkg and the look back say; without failed calls it progresses |
| `Telling.UnreadRefusal` | src/apt_txn.cc:152-157 | a transaction refused before the lock is an upgrade or dist_upgrade with targets; and those are always refused there (`Effectors.TxnEffect`) |
| `Effectors.HoldEffect` | src/apt_hold.cc:109-222 | a told story with an honest outcome; the status of every run is fixed: by the failed call or the state read before the plan step, by what settled the plan step, no-intent when the broker did not authorise; an issued child was fed nothing but a prefix of the digested lines; ok exactly when issued, all lines delivered, exit 0, inner lock back, and the selections confirmed; once redeemed, a failure status means dpkg ran exactly when every call up to posix_spawn succeeds |
| `Effectors.ConfigureEffect` | src/apt_configure.cc:77-185 | a told story with an honest outcome; the status of every run is fixed: by the failed call or the state read before the plan step, by what settled the plan step, no-intent when the broker did not authorise; broken without redemption exactly names a half-installed package in the state read under the lock; ok exactly when issued, exit 0, inner lock back, and nothing incomplete; once redeemed, a failure status means dpkg ran exactly when every call up to posix_spawn succeeds |
| `Effectors.UpdateEffect` | src/apt_update.cc:70-181 | the same for update: the status of every run is fixed: by the failed call or the state read before the plan step, by what settled the plan step, no-intent when the broker did not authorise; issued exactly under ok or operation-failed, ok exactly on a good refresh that reads back; a subset is refused before anything is done |
| `Telling.FailureMeansRanIff` | src/apt_status.h:25-26 | over all runs of hold and configure with a valid cid: operation-failed or broken means dpkg ran, exactly if no half-installed package was found and, once redeemed, every call up to posix_spawn succeeds |
| `Commits.TxnThroughGate` | src/apt_txn.cc:242-251 | the committer is entered exactly as the gate admits, the gate's result follows the commit, the look back happens exactly when dpkg began |
| `Commits.UpdateThroughGate` | src/apt_update.cc:159-166 | the same for update |
| `Commits.HoldThroughGate` | src/apt_hold.cc:198-209 | the committer is entered exactly on an ok plan with a valid cid; a child was fed nothing but a prefix of the payload; result and read-back are exact |
| `Commits.ConfigureThroughGate` | src/apt_configure.cc:154-169 | the same for configure |
| `Witness.HoldRun` | src/apt_hold.cc:51-78 | one whole run of the hold effector: redeemed, and with dpkg not to be spawned it reports a failed operation without a child |
| `Witness.ConfigureRun` | src/apt_configure.cc:48-73 | the same for configure |
| `Witness.HalfInstalledRun` | src/apt_configure.cc:119-127 | one whole run that reports broken without redemption and without a child |
| `Witness.OwnedPackageIsHeld` | src/plan.c:127-135 | one whole run that puts a rapt-owned package on hold |
| `Story.ToldIsSafe` | src/effect.c:9-34 | in every told run: at most one call, at most one change, and a change only after hygiene and the strict reply |
| `Story.CommitIsWhatWasRedeemed` | src/apt_txn.cc:164-244 | dpkg starts with the outer lock held and the inner released, on the state opened under the lock, and the redeemed hash is that of the plan computed from this state |
| `Story.RefreshIsWhatWasRedeemed` | src/apt_update.cc:114-161 | the list that is refreshed is the list that was digested and redeemed |
| `Ownership.StartedTransactionIsClean` | src/plan.c:63-77 | a started transaction changes no rapt-owned or held package and removes no essential or protected one |
| `Ownership.StartedConfigureIsClean` | src/plan.c:161-173 | a started configure has no rapt-owned package pending |
| `Ownership.SettledStatus` | src/plan.c:48-181 | what is reported when the plan step settles a run: no-op exactly for an empty plan, not-owned, held and protected exactly for what the records hold, in that order, and internal exactly for a resource or digest that failed |
| `Ownership.HoldPolicyIsTextual` | src/plan.c:127-135 | the hold policy passes exactly when no toggled target text is rapt-owned |
| `Ownership.StartedHoldIsClean` | src/plan.c:127-135 | where a target name finds the package named before its colon, a started hold changes a rapt-owned package exactly when a toggled target qualifies such a name with an architecture |
| `Ownership.QualifiedNameSlipsThrough` | src/plan.c:127-135 | a target name that the parser and the hold policy accept although the package it names is rapt-owned |
| `Entrypoint.Run` | src/entrypoint.c:46-134 | the whole run: every call to the broker names the build's own operation, the request's receipt and packages, schema 1 and the caller's uid; every start is the build's own kind of work; an update takes no dpkg lock; a hold run writes hold or install for requested packages only; the resolver is asked for what the verb says; without a parsed request nothing happens and no cid is made up; with one, the trace and the record are sound; the emitted status has the causes the effector states, and ok and broken mean what child, locks and look back say; exit 0 only for ok or nothing to do; when no call fails, exactly the requests that parse are run, and the run progresses |
| `Entrypoint.RunParsed` | src/entrypoint.c:83-133 | the run after parsing, with its story, its outcome, what the emitted status says about the child and the look back, and that every event is the build's own |
| `Entrypoint.ToldTraceIsSound` | src/entrypoint.c:83-122 | safety and digested-is-committed over the whole trace |
| `Entrypoint.ToldTraceIsOwn` | src/entrypoint.c:97-122 | every call and every start of a told run is the build's own |
| `Entrypoint.ToldRecordIsSound` | src/entrypoint.c:97-133 | the emitted flag is exact; the cid is the request's, or empty exactly when the broker's answer is unknown or foreign; the gate never refuses a redeemed plan |
| `Entrypoint.StrictMeansAuthorised` | src/effect.c:12-27 | a strict reply for a parsed request always reaches the committer |
| `Preview.PreviewTxn` | tools/preview.cc:250-339 | the status and offender of the previewed plan, and with every hash the resource, the hash of the plan and its normalised records in order; without a plan exactly why: no resource, no cache, or the resolver, with the package it did not know |
| `Preview.PreviewUpdate` | tools/preview.cc:343-365 | the same for update |
| `Preview.PreviewHold` | tools/preview.cc:369-425 | the same for hold and unhold; without a plan exactly why: no resource, no cache, or the first unknown or unsuitable target |
| `Preview.PreviewConfigure` | tools/preview.cc:430-474 | the same for configure, the first half-installed package being reported as broken |
| `Preview.PreviewMatchesPlanStep` | tools/preview.cc:250-474 | on the same plan and subject: ok exactly when the plan step reaches redemption, with its verb, resource and hash |
| `Preview.WhereTheyDiffer` | src/plan.c:48-93 | for every plan, exactly when preview and plan step report different statuses |
| `Preview.SameHashSamePlan` | src/digest.c:295-325 | under an injective hash, hashes agree exactly when verb and multiset of normalised records agree |
| `Preview.RedeemedIsPreviewed` | src/plan.c:12-46 | with a broker that accepts only the previewed binding, a successful redemption means the previewed verb and records |
| `Preview.RedeemedTargetsArePreviewed` | src/digest.c:481-489 | ... and, for parsed requests, the previewed set of targets |
| `Preview.ParsedTargetsAreSubjects` | src/digest.c:481-489 | for a parsed request the resource can always be computed |
| `Preview.CommittedIsShown` | src/apt_txn.cc:211-244 | whenever a run starts to change the host, the plan it commits has the records that were shown |
| `Witness.CommittedRunExists` | src/apt_configure.cc:115-166 | one run that is previewed ok, redeemed with the issued binding under an injective hash, and committed in full |

## Left out

- SHA-256 is an uninterpreted function that may fail; only the shape of its hex rendering is used, and injectivity is a stated hypothesis.
- JSON text: parsing and serialising are not modelled; requests and replies are trees that may be absent. The serialised redeem request is the record of its fields, and any failure to build it is one nondeterministic failure.
- libapt and dpkg: the resolver, the fetcher, DoInstall, ListUpdate and dpkg are oracles, as is libapt's judgement of what is broken or incomplete; nothing is claimed about dependency resolution. What the resolver is asked is recorded (`Host.Ask`), what it answers is arbitrary.
- The broker: its reply is arbitrary; single use of receipts is its own affair.
- `Host.Machine.Transact` stands for the transport: a run makes one abstract exchange, whose bytes `Transport.TransportTx` treats separately, on a host of its own; that the run passes it the broker's socket path, root as the required peer and the default timeout is not part of this.
- The lock timeout of the request: parsed, but how long libapt waits for a lock is not modelled.
- The preview's main: it reads and parses as above, picks one of the four previews by verb and prints a document; only parsing and the four previews are modelled.
- The lists lock that update probes and gives back: one call that may fail, since nothing depends on holding it.
- Detail strings of effectors and the serialised result record: only status, flag and correlation id are modelled; a failed emission only shows in the exit code.
- Allocation failure: a call that may fail wherever the source checks for it, except inside the encoders, where the 4 MiB cap is the only refusal.
- Memory ownership: freeing, borrowed pointers, wiping of secrets, and the reuse of C strings by records are not modelled; records own their text.
- Process hygiene, the isolated result channel, SIGPIPE handling and the pkexec uid: steps that succeed or fail.
- The path of dpkg from the configuration: a fixed name in the argument list.
- Machine integer widths: lengths and clock values are unbounded; the lengths that matter are capped far below any width by the code itself.
- Diagnostics under tools/ other than the preview, polkit rules, packaging and build files.
