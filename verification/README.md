# Protocol-C: a model with proofs

Protocol-C signs each decision with its own secp256k1 key, destroys the key after one signature, keeps the
receipts in an append-only log and verifies three-phase trades (commit, execute, settle) from that log. This
project models that code and proves what it is for, in three parts that meet in one theorem.

* **The signer.** `NumberTheory` proves Fermat's little theorem and with it the inverse and the square root
  modulo a prime. `Curve` proves the affine formulas closed, commutative, with identity and inverses.
  `Scalars` proves the fixed-length ladder equal to repeated addition. `Ecdsa` has the deterministic nonce,
  signing, verifying and the low-s rule. `Bytes` and `Signer` add hexadecimal text, key compression and
  envelopes; `OneShot` the key that signs once.
* **The log.** `Json` and `JsonText` have canonical JSON, its reader and its lexical shape. `AuditStore` has the
  bytes of the file and the index of byte offsets, `Rotation` whole runs of appends, `Sessions` runs in which
  the log is also closed and opened again, `AuditLogFile` the object itself, `LogThreads` threads that append through it in any interleaving.
* **The chain.** `Commitment`, `Execution`, `Settlement` and `Registry` have the payloads and the checks,
  `TradeVerifier` the two verifiers, `HonestRun` exactly when a trade that was signed as planned is certified.
  `LoggedRun` joins all parts: keys, three `create_and_sign`, three appends to one log, both verifiers.

SHA-256 and HMAC are parameters (`Ecdsa.Primitives`); nothing is assumed of them but the length of their
results, except that `Settlement.FlowMerkleBinds` and `TradeVerifier.MerklePins` suppose no collision on the
two texts they compare. The facts about the curve that are hypotheses are written out in `Scalars.Domain.Sound`:
both moduli are prime, the addition is associative, and n times the generator is infinity. Closure,
commutativity, identity, inverses and the agreement of doubling with addition are proved. All results are for
every such domain; `Scalars.SECP256K1` holds the constants of SEC 2 version 2, section 2.4.1, and passes
`WellFormed`. That the hypotheses can be met is proved too: `SmallCurve` has a curve over 31 elements that meets
all of them, and `Witness` concrete trades over it, one honest and one that reuses a seed.

An exception of the source is an `Err` or a `None`. The clock, the random seed and the archive time stamp are
parameters. A `requires` of `Stops`, `Signable`, `Ends` or `LoopsEnd` says that the retry loop of the nonce ends.

A log is described by its lines (`AuditStore.Line`): each entry of the file with the line number under which it
was put into the index, or none. So an index that lacks rows has a meaning too, and the results say what a lookup
finds then.

Where documentation and code differ, the code is followed, and the exact condition is proved:

* `_rfc6979_k` names RFC 6979 but feeds the raw hash to HMAC instead of `bits2octets` of it;
  `Ecdsa.RawHashIsBits2Octets` says exactly when that makes no difference.
* `verify_trade_flow` promises that all seeds are independent, but compares the settlement's seed only with hashes
  that the settlement itself claims. A trade that reuses the commitment's seed is certified
  (`HonestRun.SeedReuseCertified`, `Witness.SeedReuseExists`); `TradeVerifier.ClaimsSeparateSeeds` says what a true
  claim is worth.
* The index is to agree with the file, but sqlite3 raises after the line is written when it cannot bind the
  measurement method, for instance a list (`Rotation.UnbindableExample`, `Rotation.UnbindableFirst`). As a first
  entry it also keeps the log from being opened again (`Sessions.UnbindableFirstBlocks`). `Sessions.SessionLookupIff`
  and `Sessions.SessionPhaseIff` say exactly which lookups are right after any run of appends, rotations and
  reopenings, `Sessions.SessionOpensIff` when opening raises, and `Rotation.RunAgreesIffBindable` when the line
  numbers of the index, which nothing reads, are right as well in a run without reopening.
* A flow is read from the live file only, so a rotation between its appends loses the certificate, and an execution
  is filed under the order id of its fill; `LoggedRun.LoggedTradeCertifiedIff`, `LoggedRun.MisfiledNotCertified`.
* The registry documents keys of 66 characters, but its pattern also accepts a line break behind them;
  `Registry.LineBreakKey`.
* The registry documents that a signer's key can never pass as a broker's. That holds exactly while no account is
  registered under the name "broker:" followed by the scope; `Registry.BrokerNamespace`.
* The settlement record documents its merkle hash over three parts; the code hashes four.
* The proof stored beside a settlement is to be that of the settlement, but names the seed hash of the execution,
  because that key is looked for first and a settlement has it; `LoggedRun.ProofsStored`.

## Model

| member | source | states |
|---|---|---|
| NumberTheory.FermatLittle | aether_protocol_c/ephemeral_signer.py:55-69 | Fermat's little theorem for every prime and every base it does not divide, on which the inverse rests |
| NumberTheory.ModInvCorrect | aether_protocol_c/ephemeral_signer.py:55-69 | for a prime modulus the inverse exists exactly for arguments not divisible by it, is reduced, and multiplies to 1 |
| NumberTheory.SqrtSquares | aether_protocol_c/ephemeral_signer.py:362-366 | modulo a prime 4k + 3 the computed root of any square squares back to it |
| NumberTheory.SameSquare | aether_protocol_c/ephemeral_signer.py:366-369 | two reduced residues with one square are equal or opposite |
| Curve.PointAddClosed | aether_protocol_c/ephemeral_signer.py:98-116 | adding two curve points raises exactly for a point with y = 0 added to itself, and otherwise gives a reduced curve point or infinity |
| Curve.PointDoubleIsPlus | aether_protocol_c/ephemeral_signer.py:119-136 | doubling never raises on the curve and is the addition of the point to itself, infinity where that raises |
| Curve.PointAddCommutes | aether_protocol_c/ephemeral_signer.py:98-116 | addition gives the same result, or the same exception, in both orders |
| Curve.PlusInverse | aether_protocol_c/ephemeral_signer.py:98-106 | infinity is the identity and the reflected point the inverse of every curve point |
| Curve.SameAbscissa | aether_protocol_c/ephemeral_signer.py:105-106 | equal x means equal or opposite points, so answering infinity there is right |
| Scalars.Secp256k1WellFormed | aether_protocol_c/ephemeral_signer.py:39-50 | the generator is on the curve, the field prime is 3 modulo 4, both moduli fit 256 bits and the order lies within Hasse's bound |
| SmallCurve.SmallIsSound | aether_protocol_c/ephemeral_signer.py:39-50 | the hypotheses on a domain can all be met: a curve of the same equation over 31 elements has an associative addition and a generator of prime order 7 |
| Scalars.PointMul | aether_protocol_c/ephemeral_signer.py:139-165 | the loop returns the ladder's value after exactly as many additions and doublings as bits, whatever the scalar |
| Scalars.LadderIsTimes | aether_protocol_c/ephemeral_signer.py:155-165 | at every round the accumulators are the multiples for k >> i and its successor, and no round raises |
| Scalars.PointMulIsTimes | aether_protocol_c/ephemeral_signer.py:139-165 | for every scalar below 2^256 and curve point the ladder is repeated addition |
| Scalars.OrderExact | aether_protocol_c/ephemeral_signer.py:41-46 | a point other than infinity killed by the prime n has order n, so nonces and keys in range never give infinity |
| Bytes.HexRoundTrip | aether_protocol_c/ephemeral_signer.py:331-357 | what format(n, "064x") prints, int(text, 16) reads back |
| Bytes.FormatHexWidth | aether_protocol_c/ephemeral_signer.py:331-332 | numbers that fit are printed with exactly the given number of digits |
| Ecdsa.Rfc6979K | aether_protocol_c/ephemeral_signer.py:188-211 | the loop returns the first candidate of the HMAC chain that lies in [1, n), which for a hash integer below a 256-bit order is the nonce of RFC 6979, section 3.2, written as a relation on the states of that section |
| Ecdsa.NonceIsGenerated | aether_protocol_c/ephemeral_signer.py:196-211 | for every hash the nonce is generated by the steps of RFC 6979, section 3.2, over the octets of the private key followed by the hash as it is |
| Ecdsa.FedIsStandardIff | aether_protocol_c/ephemeral_signer.py:196-202 | these octets are those of the standard if and only if the hash integer is below the order |
| Ecdsa.InputDetermines | aether_protocol_c/ephemeral_signer.py:196-211 | the octets that are fed determine the nonce |
| Ecdsa.KeysFeedApart | aether_protocol_c/ephemeral_signer.py:200-202 | two private keys never share the octets of the standard |
| Ecdsa.NonceIsFirst | aether_protocol_c/ephemeral_signer.py:205-211 | the nonce is the candidate of the first accepting round, whichever round that is shown to be |
| Ecdsa.RawHashIsBits2Octets | aether_protocol_c/ephemeral_signer.py:196-202 | for an order of 256 bits, the octets fed for the hash are those of RFC 6979, section 3.2, if and only if the hash integer is below the order |
| Ecdsa.EcdsaSign | aether_protocol_c/ephemeral_signer.py:216-230 | the method computes the signing equation with the deterministic nonce, with its exceptions |
| Ecdsa.SigningFailsOnZero | aether_protocol_c/ephemeral_signer.py:220-226 | signing raises exactly when r or the numerator of s is zero modulo the order, and for no other reason |
| Ecdsa.SignatureVerifies | aether_protocol_c/ephemeral_signer.py:216-244 | every signature returned has r in [1, n), s in [1, n//2] and verifies under the key's public point |
| Ecdsa.VerifiesIffExplained | aether_protocol_c/ephemeral_signer.py:233-244 | verification accepts exactly the in-range pairs for which some nonce satisfies the signing equation and has abscissa r |
| Ecdsa.VerifyTests | aether_protocol_c/ephemeral_signer.py:233-244 | for a key of the group verification never raises and tests the abscissa of u1*G + u2*Q |
| Ecdsa.LowSPreservesMeaning | aether_protocol_c/ephemeral_signer.py:227-244 | replacing s by n - s never changes the answer, for every key of the group, hash and r |
| Signer.KeyRoundTrip | aether_protocol_c/ephemeral_signer.py:310-370 | every reduced curve point, also with y = 0, is decoded again from its compressed text |
| Signer.DecodeKeyAccepts | aether_protocol_c/ephemeral_signer.py:360-370 | a readable key is rejected if and only if its abscissa belongs to no point of the curve |
| Signer.DeriveKey | aether_protocol_c/ephemeral_signer.py:268-292 | the derived private key always lies in [1, n) |
| Signer.KeysFromHmac | aether_protocol_c/ephemeral_signer.py:268-292 | the key is the HMAC of the 32 octets of the seed under the first label modulo the order, under the second label where that is zero, and 1 where both are |
| Signer.KeysApart | aether_protocol_c/ephemeral_signer.py:268-292 | two seeds share a key only where those HMAC values agree modulo the order |
| Signer.SignedManifestVerifies | aether_protocol_c/ephemeral_signer.py:317-375 | for every seed and manifest on which signing returns, the envelope passes the check that sees only manifest and envelope |
| Signer.HashBindsManifest | aether_protocol_c/ephemeral_signer.py:324-325 | unless the canonical texts of two manifests collide under SHA-256, their signed hashes are equal if and only if the manifests are |
| Signer.AcceptedIffExplained | aether_protocol_c/ephemeral_signer.py:340-375 | an envelope under a key of the group is accepted for a manifest if and only if its numbers are in range and a nonce explains them for the SHA-256 of the manifest's canonical text |
| Signer.SignatureBindsManifest | aether_protocol_c/ephemeral_signer.py:340-375 | one envelope accepted for two manifests ties the difference of their SHA-256 values to two nonces of one abscissa |
| Signer.EnvelopeFields | aether_protocol_c/ephemeral_signer.py:330-337 | the envelope has exactly its six fields, with numbers of 64 digits |
| Signer.EphemeralSigner.constructor | aether_protocol_c/ephemeral_signer.py:257-303 | the buffer holds the derived key and the public key is its multiple of the generator |
| Signer.EphemeralSigner.SignManifest | aether_protocol_c/ephemeral_signer.py:317-337 | refuses after destruction, otherwise returns the signed envelope and counts only signatures that are returned |
| Signer.EphemeralSigner.Destroy | aether_protocol_c/ephemeral_signer.py:393-412 | every byte of the private buffer is zero and the signer is destroyed |
| OneShot.QuantumEphemeralKey.Sign | aether_protocol_c/crypto.py:223-254 | one call is one step of the key's state machine |
| OneShot.QuantumEphemeralKey.PublicKeyHex | aether_protocol_c/crypto.py:212-216 | the public key text is the same before and after destruction |
| OneShot.NewKey | aether_protocol_c/crypto.py:168-205 | a key is made exactly when the seed commitment accepts its fields |
| OneShot.OneShotRun | aether_protocol_c/crypto.py:212-254 | over any sequence of sign calls at most one returns; it verifies and says sign_count 1, the buffer is zero from then on, later calls raise, the shown key never changes |
| OneShot.SignMeans | aether_protocol_c/crypto.py:168-254 | making a key and signing once returns if and only if the seed commitment is accepted and ECDSA signing returns; the envelope verifies, counts 1 and names the key of the seed |
| OneShot.SeedHashBinds | aether_protocol_c/crypto.py:186-196 | a recorded seed hash binds the octets of the seed, an integer being hashed as 32 octets, unless these collide |
| OneShot.WindowFields | aether_protocol_c/crypto.py:108-123 | a window states when the key was made, when it expires and the attack seven days later |
| Json.ReadValueOfPrint | aether_protocol_c/audit.py:434-441 | reading canonical text of any value, whatever follows it, gives the value and leaves exactly what followed |
| Json.LoadsOfPrint | aether_protocol_c/audit.py:544-545 | the JSON round trip of every value |
| Json.PlainPrinted | aether_protocol_c/audit.py:434-436 | a string stands in its literal as it is if and only if it is printable ASCII without quote and backslash |
| Json.EscapeNumbers | aether_protocol_c/audit.py:434-436 | other characters are escaped with four hexadecimal digits in lower case |
| Json.TwoKeys | aether_protocol_c/audit.py:434-436 | the smaller key comes first, and nothing but the value separates colon and comma |
| Json.AtMostMeans | aether_protocol_c/audit.py:434-436 | the order of keys is by the first character in which they differ, a prefix coming first |
| JsonText.PrintPrintable | aether_protocol_c/audit.py:434-441 | canonical text is printable ASCII, so a record is one line and offsets count bytes |
| JsonText.ObjectsPrefixFree | aether_protocol_c/settlement.py:76-81 | two canonical objects in front of the same text are equal, and so is what follows them |
| JsonText.ObjectsSuffixFree | aether_protocol_c/settlement.py:76-81 | no proper suffix of a canonical object is a canonical object |
| Settlement.MerklePreimageDecodes | aether_protocol_c/settlement.py:76-82 | the undelimited concatenation, with arbitrary broker text inside, determines all four parts up to None and {} |
| Settlement.FlowMerkleBinds | aether_protocol_c/settlement.py:45-82 | without a collision on the two texts, the merkle hashes are equal if and only if the parts are |
| Settlement.MerkleOrder | aether_protocol_c/settlement.py:76-81 | the hashed text has the commitment's envelope first, then the execution's, the acknowledgement and the broker's |
| Settlement.AttestationBinds | aether_protocol_c/settlement.py:85-100 | the hash that the broker signs binds order, acknowledgement and both envelopes, unless two texts collide |
| Settlement.AttestationFields | aether_protocol_c/settlement.py:95-100 | the broker's message has the four values under their names |
| Settlement.CreateAndSign | aether_protocol_c/settlement.py:164-249 | returns the record that links both signatures, the broker's and the merkle hash, with the one signature of the key of its seed, or exactly the exception of making that key or of signing |
| Commitment.CreateAndSign | aether_protocol_c/commitment.py:192-262 | returns the commitment to state, seed and window with the one signature of the key of its seed, or exactly the exception of making that key or of signing |
| Commitment.StateHashBinds | aether_protocol_c/state.py:50-75 | the state hash binds the whole snapshot, unless two canonical texts collide |
| Commitment.PayloadFields | aether_protocol_c/commitment.py:166-190 | the commitment states every value under its name |
| Execution.CreateAndSign | aether_protocol_c/execution.py:128-181 | returns the attestation that refers to the commitment with the one signature of the key of its own seed, or exactly the exception of making that key or of signing |
| Execution.AttestationStates | aether_protocol_c/execution.py:108-126 | the attestation states every value under its name |
| Execution.TermsMeaning | aether_protocol_c/execution.py:199-286 | terms match, for all values given or missing, exactly when symbol and side are given and equal, the fill is not negative nor above the authorised quantity, and fifty times the price gap is at most the price |
| AuditStore.LineRoundTrip | aether_protocol_c/audit.py:434-441 | a written line holds one line break, at its end, and reads back as its record |
| AuditStore.ReadLineOfEntry | aether_protocol_c/audit.py:715-721 | one seek to a stored offset and one line gives the line of that entry, whatever was written after |
| AuditStore.FileDetermines | aether_protocol_c/audit.py:434-441 | two files with the same bytes were written for the same entries |
| AuditStore.IndexIsLast | aether_protocol_c/audit.py:317-343 | the index has one row for each record id that was put into it, made from the last such entry, at its offset and under the line number it was given |
| AuditStore.RowBindsPayload | aether_protocol_c/audit.py:317-343 | a row has the phase and time of its entry and a hash that binds the payload, unless two canonical texts collide |
| AuditStore.LookupIsLast | aether_protocol_c/audit.py:694-724 | lookup by id through the index returns the last matching record among the entries put into the index, and nothing for other ids |
| AuditStore.StoppedLookup | aether_protocol_c/audit.py:217-220 | an index that lacks the rows of the last lines, which opening keeps, answers wrongly for exactly the ids of those lines, unless the last of them only repeats a known entry |
| AuditStore.FaithfulIffBindable | aether_protocol_c/audit.py:317-343 | for a file written from empty, rows, lookups, offsets and line numbers agree with the scan if and only if sqlite3 could bind every entry |
| AuditStore.RecordIdInjective | aether_protocol_c/audit.py:321 | over the four phase labels the joined id determines order and phase |
| AuditStore.LookupPhaseIsScan | aether_protocol_c/audit.py:555-620 | for every order and phase the index gives what a scan for order and phase of the entries put into it gives |
| AuditLogFile.Open | aether_protocol_c/audit.py:183-220 | opening a file with any stored index keeps an index that has rows, rebuilds one that has none, and raises if and only if that meets an entry sqlite3 cannot bind |
| Sessions.ReopenedSameIff | aether_protocol_c/audit.py:183-220 | reopening a log that any run from empty wrote changes nothing, and does not raise, if and only if every entry of its live file can be bound |
| Sessions.UnbindableFirstBlocks | aether_protocol_c/audit.py:292-343 | a first entry that sqlite3 cannot bind makes every later opening raise |
| AuditLogFile.AuditLog.RebuildIndex | aether_protocol_c/audit.py:292-315 | scanning from an empty index gives every line its row under its own number, as appending did, and raises if and only if some entry cannot be bound |
| AuditLogFile.AuditLog.CountLines | aether_protocol_c/audit.py:282-290 | the count is the number of entries |
| AuditLogFile.AuditLog.Append | aether_protocol_c/audit.py:418-446 | file, index, counter and archives stay those of the lines through an append, with rotation when due; the recursion with the marker ends; an entry that cannot be bound leaves its line without a row and raises |
| AuditLogFile.AuditLog.Rotate | aether_protocol_c/audit.py:360-400 | the live file becomes an archive and a fresh one begins with the marker that names it |
| AuditLogFile.AuditLog.AppendCommitment | aether_protocol_c/audit.py:448-473 | appends the commitment entry; raises and changes nothing when the order id is missing, raises after the write when it cannot be bound |
| AuditLogFile.AuditLog.AppendExecution | aether_protocol_c/audit.py:475-501 | the same for an execution, whose order id is inside its result |
| AuditLogFile.AuditLog.AppendSettlement | aether_protocol_c/audit.py:503-528 | the same for a settlement |
| AuditLogFile.AuditLog.ReadAll | aether_protocol_c/audit.py:532-549 | the full scan returns exactly the live entries |
| AuditLogFile.AuditLog.GetById | aether_protocol_c/audit.py:694-724 | returns the last record with the id among the entries put into the index |
| AuditLogFile.AuditLog.GetTradeFlow | aether_protocol_c/audit.py:555-620 | returns, for each phase, the last entry of the order among those put into the index |
| AuditLogFile.AuditLog.Query | aether_protocol_c/audit.py:624-692 | the returned records meet the filters by their own fields, are the latest of their ids, are all different and in the order of their own times; and each such record left out is no earlier than any returned, and is left out only when the limit is reached |
| AuditLogFile.RowMatches | aether_protocol_c/audit.py:317-343 | a row matches the filters exactly when the record it was made from does, and has its time |
| AuditLogFile.SelectIds | aether_protocol_c/audit.py:652-676 | the rows that the statement selects |
| Rotation.RunConserves | aether_protocol_c/audit.py:347-446 | closed files in rotation order and the live file, without markers, are what was there and exactly the appended entries, those of appends that raised after writing included |
| Rotation.RunChains | aether_protocol_c/audit.py:388-400 | in every run each later file begins with its only marker, which names its predecessor |
| Rotation.ArchivesKept | aether_protocol_c/audit.py:367-381 | the bytes of a closed file are still stored under its name if and only if no later file took the name or the last that did holds the same entries |
| Rotation.RotationConserves | aether_protocol_c/audit.py:347-446 | for every run from an empty log, the entries are conserved and the files form a chain; and if the clock gave the calls different stamps, every closed file is stored byte for byte with its index |
| Rotation.NamesApart | aether_protocol_c/audit.py:367-375 | archives have the same name if and only if they have the same stamp, and their names begin with that of the log |
| Rotation.MarkerFields | aether_protocol_c/audit.py:388-399 | the marker names the log and the index file that were closed |
| Sessions.SessionLookupIff | aether_protocol_c/audit.py:183-446 | after every session of appends, rotations and reopenings from an empty log, lookup by id agrees with a scan of the file if and only if the file has no entry with the id or sqlite3 can bind the last one |
| Sessions.SessionPhaseIff | aether_protocol_c/audit.py:183-620 | after every such session, a phase of get_trade_flow agrees with a scan if and only if the order has no entry in it or sqlite3 can bind the last one |
| Sessions.SessionOpensIff | aether_protocol_c/audit.py:183-343 | opening the log after a session raises if and only if its file has lines and none of them can be bound |
| Sessions.SessionConserves | aether_protocol_c/audit.py:183-446 | sessions conserve the appended entries and keep the chain of files |
| Rotation.RunAgreesIffBindable | aether_protocol_c/audit.py:292-446 | for every run from an empty log without reopening, rows, lookups and also line numbers agree with the scan in the live file and in every closed one, and the counter with the file, if and only if sqlite3 could bind every appended entry |
| Rotation.UnbindableFirst | aether_protocol_c/audit.py:328-446 | the failing input: after an entry that cannot be bound the scan finds it, the index does not, and the next entry gets a wrong line number |
| Rotation.UnbindableExample | aether_protocol_c/audit.py:326-343 | a commitment whose measurement method is a list, a dictionary or an integer beyond 64 bits is such an entry, and one with a text, a truth value or the largest integer of 64 bits is not |
| Rotation.RunShape | aether_protocol_c/audit.py:347-446 | a run stays in the live file if and only if no rotation is due during it; otherwise the live file has only markers and entries of the run |
| Rotation.StaysIffFits | aether_protocol_c/audit.py:347-358 | below a limit in bytes a run stays in the live file if and only if the file is below the limit in front of its last line |
| Rotation.ZeroLimitRotates | aether_protocol_c/audit.py:347-352 | with a limit of zero no run behind a counted row stays in the file |
| Rotation.ZeroLimit | aether_protocol_c/audit.py:347-352 | with a limit of zero a rotation is due exactly behind a counted row |
| Rotation.AppendBounded | aether_protocol_c/audit.py:347-358 | the live file stays below the limit but for its last line, or holds only marker and entry; with limit zero the latter, or nothing before was counted |
| LogThreads.ExecInv | aether_protocol_c/audit.py:206-446 | the invariant of lock, disk, history and programs holds in every state of every schedule |
| LogThreads.InterleavingIsSequential | aether_protocol_c/audit.py:425-446 | any interleaving, also of appends that raise, stores what some sequential order stores that respects each thread's own order and loses no call |
| LogThreads.Progress | aether_protocol_c/audit.py:206-446 | from every state that any schedule reaches, some continuation finishes every program, so no thread can be left waiting for ever |
| LogThreads.RowsAlwaysPoint | aether_protocol_c/audit.py:425-446 | between any two steps every row points at a complete line of its record, at its prefix-sum offset; line numbers are distinct and contiguous when every entry can be bound |
| Registry.AccountKeyRegistry.Register | aether_protocol_c/identity.py:63-82 | adds the lower-cased key, or raises and changes nothing |
| Registry.AccountKeyRegistry.Revoke | aether_protocol_c/identity.py:84-86 | removes the lower-cased key of that account only |
| Registry.AuthorizedIffLastGrants | aether_protocol_c/identity.py:63-110 | over every run a key is authorised if and only if the latest successful operation on scope and lower-cased key was a registration |
| Registry.BrokerNamespace | aether_protocol_c/identity.py:63-126 | over every run a key passes as a broker's if and only if the latest operation on it under the broker name was a registration, and some key ever passes if and only if some account was registered under that name |
| Registry.LineBreakKey | aether_protocol_c/identity.py:35-110 | after any run, a text that registers authorises its first 66 characters if and only if it is no longer or they were registered before |
| Registry.LineBreakAccepted | aether_protocol_c/identity.py:35-82 | every key registers with a line break behind it too |
| Registry.PubkeyMeans | aether_protocol_c/identity.py:35-80 | a text has the form of a key if and only if it is 02 or 03, 64 lower-case hexadecimal digits, and a line break or nothing |
| TradeVerifier.VerifyTradeFlow | aether_protocol_c/verify.py:44-275 | certifies exactly the flows with all phases present and every check passed, and gives each phase the verdict of its own checks; raises exactly when a check does |
| TradeVerifier.ScopeMeans | aether_protocol_c/verify.py:94 | the scope is the account id that is given, and the order id where none is |
| TradeVerifier.DetectTampering | aether_protocol_c/verify.py:277-432 | reports exactly the issues of the failing checks, in order; raises exactly when a check does |
| TradeVerifier.IssueMeans | aether_protocol_c/verify.py:303-432 | an issue is in the report if and only if what it says is so of a phase that is there |
| TradeVerifier.CertifiedMeans | aether_protocol_c/verify.py:108-258 | in a certified flow every envelope verifies over its payload under a registered key; later phases hold the very numbers and key of the earlier envelopes, the settlement their merkle hash and a broker's signature over the attestation; the nonce is the next one and the fill keeps the terms in whole numbers; state and seed hashes have 64 characters, the method is one of the two, commitment and execution have different seeds and closing windows, and so have the three seeds and windows that the settlement states |
| PyValues.SameMeans | aether_protocol_c/execution.py:195-197 | equality of values read from JSON: same keys and equal values, same length and equal items, numbers and truth values by size |
| TradeVerifier.ClaimsSeparateSeeds | aether_protocol_c/verify.py:54-60 | in a certified flow a true claim of the settlement about a phase separates its seed from that phase's, so reusing a seed takes a false claim about just that phase; with both claims true the three seeds are independent |
| TradeVerifier.MerklePins | aether_protocol_c/settlement.py:45-82 | without a collision on the two texts sealed, two certified flows that show the same flow merkle hash have the same commitment and execution envelopes, broker text and broker signature, whatever their payloads, scopes and registries |
| TradeVerifier.VerifiersAgree | aether_protocol_c/verify.py:108-432 | certified if and only if all phases are present, no issue is reported and the execution's own window is safe |
| TradeVerifier.CompletionAgrees | aether_protocol_c/verify.py:108-432 | the first verifier returns if and only if the second does and the execution's window can be compared |
| TradeVerifier.RegistryMonotone | aether_protocol_c/verify.py:94-221 | registering a key never takes a certificate away, revoking never gives one |
| HonestRun.DerivedKeyRegisters | aether_protocol_c/identity.py:77-82 | every derived public key has the form that the registry accepts |
| HonestRun.ChainAccepted | aether_protocol_c/settlement.py:262-304 | a settlement made from the envelopes of the trade passes the chain check, broker signature included |
| HonestRun.MadeTradeCertifiedIff | aether_protocol_c/verify.py:90-432 | both verifiers return for every trade made by the three create_and_sign; it is certified if and only if all phases are there, the four keys are registered, the nonce is the next one, the fill keeps the terms, the seeds and claimed seeds differ and no clock is at zero, and tampering is reported exactly otherwise |
| HonestRun.SeedReuseCertified | aether_protocol_c/settlement.py:306-326 | the failing family: a trade whose settlement reuses the seed of commitment or execution and is told another hash for that phase is certified without an issue |
| HonestRun.HonestSeedsIndependent | aether_protocol_c/settlement.py:306-326 | a trade whose settlement is told the true hashes is certified with three independent seeds |
| Witness.SeedReuseExists | aether_protocol_c/settlement.py:306-326 | such a trade exists |
| Witness.HonestTradeExists | aether_protocol_c/verify.py:90-275 | an honest trade exists, and is certified |
| LoggedRun.LoggedFlow | aether_protocol_c/audit.py:448-620 | after the three appends of a trade, with appends for other orders before, between and after, the log has the whole flow if no rotation was due behind the first, and else a flow without its commitment |
| LoggedRun.LoggedTradeCertifiedIff | aether_protocol_c/verify.py:90-275 | a trade that went through the log, among any appends for other orders, is certified if and only if it is proper and no append behind its commitment found a rotation due |
| LoggedRun.MisfiledNotCertified | aether_protocol_c/audit.py:488-497 | for a trade whose fill names another order, in a log without an execution of its own order, the verifiers return and do not certify it |
| LoggedRun.SignAndLog | aether_protocol_c/audit.py:448-528 | three create_and_sign, the broker's signature and three appends return if and only if every signing returns and no order id is empty, and leave the log that the three appends make |
| LoggedRun.ProofsStored | aether_protocol_c/audit.py:134-167 | the log stores with commitment and execution the hash of their own seed and their window, but with a settlement the hash it was told for the execution |
| LoggedRun.RunTrade | aether_protocol_c/verify.py:90-432 | the whole run, keys to verdicts: both verifiers return, certified if and only if the trade is proper and stays in one file, and with one file tampering is reported exactly for a trade that is not proper; a misfiled fill is not certified |

## Left out

- Primality of the two moduli, associativity of the curve addition and the order of the generator are hypotheses (`Scalars.Domain.Sound`), not proved.
- Ecdsa.Rfc6979K: termination of the retry loop is a precondition, because it rests on HMAC output.
- Bytes.HexRoundTrip: `int(text, 16)` is modelled for ASCII text; other Unicode digits and spaces are not.
- Json.LoadsOfPrint: numbers are integers and strings hold no lone surrogates; white space and other liberties that `json.loads` takes with text `json.dumps` never writes are not modelled.
- Execution.TermsMeaning: quantities and prices are integers compared over the reals; floating point, NaN, infinities and numbers given as text are not modelled.
- TradeVerifier.VerifyTradeFlow: the text of its `details` list is not modelled; ordering comparisons between two lists count as raising.
- TradeVerifier.DetectTampering: issues are symbols instead of sentences.
- AuditLogFile.AuditLog.AppendExecution: order ids that are not strings are treated as missing, here and in the other two appends.
- AuditLogFile.AuditLog.Query: timestamps are integers; the order among equal timestamps is left open, as SQL leaves it.
- AuditLogFile.Open: blank, corrupt or hand-edited lines, rows that no append wrote, several log objects on one file and readers racing a rotation are not modelled.
- Signer.EphemeralSigner.Destroy: the lifetime in the receipt is read from the clock and not modelled; copies of key material elsewhere in memory are outside the model.
- Registry.AuthorizedIffLastGrants: lower-casing is modelled on ASCII text.
- SQLite, write-ahead logging and the file system: the index is a map, the file a sequence of bytes, the directory a map of archives.
- `timestamp_authority.py`, `cli.py`, `seed.py`, `DisputeProofGenerator`, `list_archives`, `read_by_order_id`: input and output, record building or pass-through calls.
- Unforgeability, collision resistance as a proved fact, entropy, timing and the quantum-safety argument: not functional properties of this code.
