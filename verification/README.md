# The workspace's protocols, modelled and proved

This Dafny project models the protocols that the workspace's modules hide behind SQL and HTTP, and proves what
they keep. Tables are maps and sequences; each committed transaction, or each single statement where handlers can
interleave, is one step; the rail, the clock and the other installations are the environment's choice at every
step. Code that loops or updates rows is a method held to those steps, and the theorems are about every run of them.

| subject | files |
|---|---|
| Placeholders in Word templates | `WordClaims`, `WordRewrite`, `WordSubstitution`, `Placeholders` |
| Approval chains, policies and the signature ledger | `ApprovalRules`, `ApprovalLedger`, `ApprovalSafety`, `ApprovalTransactions`, `ApprovalRace`, `RegNumbers` |
| eID signature ceremonies | `EidSteps`, `EidSessions`, `EidRuns`, `EidHandlers` |
| Contracts with other parties | `PartySigning` (steps), `PartyInvariant`, `PartySafety`, `PartyOrderSteps`, `PartyOrder`, `PartyCoverageSteps`, `PartyCoverage`, `PartyMoves`, `PartyTally`, `PartyStanding`, `PartyScenes`, `PartyRuns`, `PartyHandlers`, `PartyCeremony` |
| Departments and people | `ParentGraph`, `Organisation`, `OrganisationService`, `OrganisationRaces` |
| Өртөө, the relay between installations | `RelayRules`, `RelayNumbers`, `RelayNetwork`, `RelayRollUp`, `RelayHandlers` |
| OAuth token renewal | `OAuthRenewal` (steps), `OAuthLock`, `OAuthManager` |
| Byte-level printers and cutters | `Utf8`, `Truncation`, `UrlPath`, `JsonLiterals`, `Encodings`, `Digests` |
| Small modules the others share | `Shared`: `Wrappers`, `Seqs`, `Sets`, `Decimal`, `Text`, `Hex` |

## What the proofs found

Where a promise of the code or its comments does not hold on all inputs, the model keeps the code as it is, a lemma
exhibits the input and another says exactly when the promise is met.

- CreateDocument and RouteDocument read the chain without the lock the policy and chain screens take. Raced with a
  policy change they can leave a waiting document that nobody can sign (`ApprovalRace.RacedDocumentIsStuck`); a raced
  commit is safe exactly when the condition of `ApprovalRace.CommitKeepsInvIff` holds, and a raced run exactly when
  all its commits are (`ApprovalRace.RaceIsKeptIff`). Unraced, no waiting document is ever stuck
  (`ApprovalSafety.NeverStuck`).
- A poll past the deadline that deletes no row answers COMPLETE even when another late poll removed the row
  (`EidRuns.LateCompleteCanBeFalse`, exact condition in `EidSessions.CompleteIsTrueIff`).
- A rail that says COMPLETE and later REFUSED makes the poll delete the row of a signature
  (`EidRuns.FinalityIsNeeded`). Ceremonies stay spent exactly when signed, over a whole run and whatever the
  rails answer, exactly when the unguarded DELETE meets no spent row (`EidSessions.SpentIsKeptIff`).
- The check that the bytes did not change compares a stored copy with its own hash and never fires
  (`PartySafety.BytesCheckNeverFires`), so a resend during a ceremony is recorded over bytes the signatory was not
  shown (`PartyRuns.ResendIsMiscovered`). In every run a row covers what was shown exactly when the last copy stored
  between the start's pick and the poll's read, if any, was of the same bytes (`PartyCoverage.CoversWhatWasSentIff`).
- A resend between a poll's read and its record leaves the signed party with a frozen copy that its ledger row does
  not cover (`PartyRuns.RecordIsOfAnOlderCopy`, exact condition in `PartyCoverage.FrozenCopyIsCoveredIff`).
- A send that breaks off between its copies and its mark lets parties be added, which breaks the joint signing order
  (`PartyRuns.BrokenOffSendBreaksOrder`, exact condition for a step in `PartyOrder.AddingKeepsOrderIff` and for a run
  in `PartyOrder.OrderIsKeptIff`).
- The mark at the end of a send writes SENT without a recount, so an answer that came before it, from a party whose
  copy had already gone, is not in the contract's state (`PartyStanding.EarlyAnswerIsMarkedOver`). In any run a
  contract that is out says at every point what its parties have answered exactly when no mark came after an answer
  (`PartyStanding.StandsIff`).
- The comment at modules/documents/invite.go:533-534 says that a visitor by invitation is refused when several
  signatories are registered; modules/documents/partysign.go:143-165 takes the first of them
  (`PartyRuns.PickSigner`, `PartyCeremony.Signing.StartSignature`).
- Mirror statuses of one rank overwrite each other: `RelayRules.OrdersDisagree` against `RelayRules.OrdersAgree`.
- A CLOSED branch blocks the roll-up of its task for good (`RelayRollUp.ClosedBranchBlocks`): in every run a waiting
  task can still be completed by news of its branches exactly when none of them is CLOSED
  (`RelayRollUp.CanStillCompleteIff`).
- A delegation that the status table or the schema refuses leaves its branches behind
  (`RelayRollUp.RefusedDelegationLeavesBranches`, which says exactly when).
- An office whose name holds ": " loses part of it into its own answer (`RelayRules.OneAnswerStandsIff`).
- Two concurrent moves can knot the department tree, a deletion counted too early leaves a dangling parent, two
  concurrent deactivations leave no administrator (`Organisation.ConcurrentMovesKnot`,
  `OrganisationRaces.CountedDeletionOrphans`, `OrganisationService.ConcurrentDeactivations`). The exact conditions are
  asked at the write, `OrganisationRaces.WriteIsGoodIff` and `OrganisationService.AdminStaysIff`, and hold for any
  succession of racing writes: `OrganisationRaces.TablesAreKeptIff` and `OrganisationService.AdminIsKeptIff`.
- A refused edit of a person may already have written the job title (`OrganisationService.RefusedEditIsHarmlessIff`).
- A grant is lost in exactly three ways (`OAuthRenewal.GrantIsKeptIff`), and then only reconnecting helps.
- sameDigest means to accept hexadecimal answers but tries base64 first, so a SHA-256 in hexadecimal is always
  refused (`Digests.HexSha256IsRefused`, exact condition in `HexIsAcceptedIff`).
- modules/documents/documents.go:1287 still matches a constraint that modules/documents/migrations/00002_a_contract_has_parties.sql:327-328
  replaced, so a second signature by the same citizen is refused as a failed write and not as "already signed". The
  model has one refusal for both.

Two tables the code leans on are modelled from their own text: the task status table of
domain/urtuu/wire/status.go:60-72 and the contract state trigger of
modules/documents/migrations/00007_a_contract_is_executed_by_all_of_its_parties.sql:25-57.

## Model

| member | source | states |
|---|---|---|
| WordClaims.XmlEscapeRoundTrip | modules/documents/docx.go:210-214 | a reader of the part gets the value back: escaping loses and adds nothing |
| WordClaims.EntitiesAre | modules/documents/docx.go:210-214 | five characters are written by their names, and any other as itself |
| WordClaims.XmlEscapeOpensNoTag | modules/documents/docx.go:210-214 | no escaped value opens a tag, so values never become markup |
| WordClaims.ClaimPairsSound | modules/documents/docx.go:119-148 | for every pair list with non-empty keys the claims are disjoint occurrences of their keys with escaped values, however the keys overlap |
| WordClaims.SortedDescIsSorted | modules/documents/docx.go:168-174 | the sort orders the edits by falling start and keeps exactly the same edits |
| WordClaims.SortedDescOrder | modules/documents/docx.go:153-158 | among disjoint edits so sorted, each one ends at or before the start of every earlier one |
| WordClaims.SinkEdit | modules/documents/docx.go:170-172 | the inner loop in place: one edit sinks to its place |
| WordClaims.SortEditsDesc | modules/documents/docx.go:168-174 | the insertion sort in place equals the specified ordering of the array |
| WordRewrite.RunOf | modules/documents/docx.go:110-117 | every position of the joined text lies in exactly one run |
| WordRewrite.ApplyOneMore | modules/documents/docx.go:153-158 | one more edit, left of all applied so far, made in the ORIGINAL coordinates on the already rewritten document, gives the document with all of them made at once |
| WordRewrite.ApplyEditAcrossRuns | modules/documents/docx.go:178-206 | the loop over the runs makes exactly one edit: the value once, the claimed text of every run it spans removed, everything else copied |
| WordSubstitution.SplitRuns | modules/documents/docx.go:110-117 | the segment loop gives each run its place and the joined text |
| WordSubstitution.FindEdits | modules/documents/docx.go:121-148 | the claiming loops with their array of taken positions compute the specified claims |
| WordSubstitution.ClaimOccurrences | modules/documents/docx.go:123-148 | one key: every occurrence from left to right, stepped over whole, claimed unless some unit is taken |
| WordSubstitution.RewrittenIsWoven | modules/documents/docx.go:104-159 | rewriting position by position is the same markup, byte for byte and in order, around rewritten run texts |
| WordSubstitution.RunTextsJoin | modules/documents/docx.go:104-159 | the rewritten run texts, joined, are the joined text with all edits made simultaneously |
| WordSubstitution.ApplyEdits | modules/documents/docx.go:153-158 | edits applied one by one, last first, in original coordinates equal all of them made at once |
| WordSubstitution.ApplyInOrder | modules/documents/docx.go:153-158 | sorting first makes that order right for any disjoint claims |
| WordSubstitution.SubstituteWordXml | modules/documents/docx.go:104-159 | for every document, runs and pair list: bytes outside the runs survive in place, and the run texts read as the joined text with all claimed occurrences replaced at once |
| Placeholders.TheListIsPlaceholders | modules/documents/render.go:91-115 | the actual key list consists of placeholders: they open, close and hold no opening inside |
| Placeholders.AloneRendersTo | modules/documents/render.go:84-86 | a listed key that is all of the text renders to the value of its first listing |
| Placeholders.EachFieldRenders | modules/documents/render.go:88-115 | field by field, what each of the fourteen placeholders renders to |
| Placeholders.NoOverlap | modules/documents/render.go:91-115 | in any text, two listed keys that share a unit are the same key at the same place |
| Placeholders.RefusedIsClaimed | modules/documents/docx.go:130-142 | an occurrence refused as taken was claimed at that very place |
| Placeholders.ClaimKeyAll | modules/documents/docx.go:123-148 | the pass for one key leaves no unclaimed occurrence of it |
| Placeholders.ClaimAtKey | modules/documents/docx.go:121-148 | where listed keys occur, the claim is for the first listed one, as a replacer chooses |
| Placeholders.RewriteIsScan | modules/documents/render.go:84-86 | from any boundary on, rewriting the claims is the left-to-right replacer scan |
| Placeholders.WordPathIsSubstitute | modules/documents/render.go:84-115 | pair-by-pair claiming equals one left-to-right scan on every text and every list of placeholders |
| Placeholders.WordRendersAsPlain | modules/documents/docx.go:104-159 | what the Word path renders reads exactly as the plain Substitute of the same text with escaped values, for every document and contract |
| RegNumbers.NormaliseIsIdempotent | domain/documents/chain.go:83-86 | a normalised register number normalises to itself |
| Text.UpperAlphabets | domain/documents/chain.go:83-86 | capitals of the Latin and the Mongolian Cyrillic alphabet, letter for letter |
| Text.TrimMeans | domain/documents/chain.go:83-86 | trimming takes spaces from both ends, nothing but spaces, and leaves none there |
| RegNumbers.SomebodyElse | domain/documents/chain.go:97-100 | any 56 excluded citizens leave a plausible one who is not excluded |
| ApprovalRules.FillableChain | domain/documents/chain.go:120-133 | the loop keeps order and name, and a citizen exactly at a number of 8 to 64 characters that no earlier step gives; every other step is open |
| ApprovalRules.FillableIsCompletable | domain/documents/chain.go:102-133 | whatever the stored chain, opening the steps nobody could fill leaves one that can be completed |
| ApprovalRules.CompletableIsFixed | domain/documents/chain.go:102-133 | a chain that can be completed is a fixed point of FillableChain |
| ApprovalRules.ValidateChain | domain/documents/chain.go:141-188 | the loop decides exactly as specified; an unknown type and more than ten steps are refused as such, and a step at fault is the first one and is what its fault says of it |
| ApprovalRules.FaultlessMeans | domain/documents/chain.go:141-188 | a chain is taken iff every step has a name, its texts hold no NUL, and every number given is of a plausible length and given once |
| ApprovalRules.SavedIsCompletable | domain/documents/chain.go:141-188 | what the chain screen saves is a fixed point of FillableChain |
| ApprovalRules.RefusedIffUncompletable | domain/documents/chain.go:141-188 | beyond naming and text, a chain is refused if and only if it could never be completed as stored |
| ApprovalRules.StepsCanRequireNamedSigners | domain/documents/chain.go:195-213 | accepts exactly the non-empty chains whose steps all name different citizens; otherwise names the first step at fault, which names nobody or, with the step it repeats, a citizen named before |
| ApprovalLedger.NextApprovalStep | modules/documents/workflow.go:103-143 | the loop finds the first unfilled step, counts the signatures and collects exactly the citizens later unfilled steps name |
| ApprovalSafety.UnfilledIsTheRest | modules/documents/workflow.go:103-143 | with the ledger in step order, the unfilled steps are the rest of the chain |
| ApprovalSafety.AcceptedMeans | modules/documents/documents.go:1197-1290 | a signature is accepted iff the channel is allowed, the next step takes this citizen, nobody later is named so, and the citizen has not signed |
| ApprovalSafety.OutcomeIs | modules/documents/documents.go:1177-1310 | what a signature is answered, case by case, in the policy's own fields and the document's own chain: not waiting, channel refused, no chain, reserved, open, held for later, signed before, or signed and approved exactly at the last |
| ApprovalSafety.StepNumberIsFree | modules/documents/documents.go:1255-1268 | the step number chosen is the next one and never collides |
| ApprovalSafety.SigningIs | modules/documents/documents.go:1255-1305 | an accepted signature fills the next step and approves exactly when it was the last; the count test decides the same as the unfilled-steps test |
| ApprovalSafety.InsertsWhole | modules/documents/workflow.go:51-78 | inserting a chain numbered in order meets no conflict |
| ApprovalSafety.WaitingIs | modules/documents/workflow.go:51-78 | a document starts waiting under the stored chain as it stands, whole |
| ApprovalSafety.SavePolicyKeepsInv | modules/documents/policies.go:118-219 | saving a policy keeps the joint invariant of chains, policies, documents and ledgers |
| ApprovalSafety.SaveChainKeepsInv | modules/documents/workflow.go:267-337 | saving a chain keeps it |
| ApprovalSafety.SignKeepsInv | modules/documents/documents.go:1177-1310 | signing keeps it |
| ApprovalSafety.ApplyKeepsInv | modules/documents/workflow.go:267-415 | every committed transaction keeps it |
| ApprovalSafety.RunKeepsInv | modules/documents/policies.go:118-249 | so every run from the empty system does: a type that requires named signers has a chain that names all, and every waiting document of it names everybody still to sign |
| ApprovalSafety.SomebodyCanSign | modules/documents/documents.go:977-1007 | whenever the policy does not ask for a name the next step lacks, some channel and some plausible citizen can sign |
| ApprovalSafety.StuckIff | modules/documents/documents.go:977-1007 | a waiting document is stuck iff its policy requires a named signer and its next approval names none |
| ApprovalSafety.NeverStuck | modules/documents/documents.go:977-1310 | after any sequence of transactions no waiting document is stuck |
| ApprovalSafety.CanBeFinished | modules/documents/documents.go:1292-1305 | more: signatures alone can bring every waiting document to approval |
| ApprovalSafety.ApprovalMeans | modules/documents/documents.go:1255-1305 | in every reachable state a document is approved iff it carries max(1, n) signatures in step order, by different citizens, each named step by its citizen; and never more |
| ApprovalSafety.RunKeepsSigned | modules/documents/documents.go:1090-1160 | over any run the chain is fixed once a document waits, the title once somebody signed, and the ledger only grows |
| ApprovalTransactions.SnapshotApprovalChain | modules/documents/workflow.go:51-78 | fill, insert step by step, pin the count: the document waiting under the fillable chain, spelled out step by step where the orders differ |
| ApprovalTransactions.UnfilledSteps | modules/documents/workflow.go:149-160 | counts the steps no signature fills |
| ApprovalTransactions.TakenMeans | modules/documents/workflow.go:267-337 | a chain is accepted iff its type is one of the three, it has at most ten steps, none at fault, and, where names are required, at least one step and a number at each |
| ApprovalTransactions.StrandedMeans | modules/documents/policies.go:224-249 | requiring names strands nobody iff no document waiting under the type has an empty chain or an unsigned step that names nobody |
| ApprovalTransactions.Documents.ReplaceWorkflow | modules/documents/workflow.go:267-337 | succeeds exactly when the chain is taken, in the screen's own terms, and then stores it numbered from one, trimmed and normalised; nothing else changes; the modelled step |
| ApprovalTransactions.Documents.CountStranded | modules/documents/policies.go:224-249 | is zero exactly when nobody waits, under the type, for an approval that names nobody |
| ApprovalTransactions.Documents.SaveSignaturePolicy | modules/documents/policies.go:118-219 | the answer by cases: unknown type, no channel, a chain that does not name different citizens, documents it would strand, or saved; only that policy changes; the modelled step |
| ApprovalTransactions.Documents.CreateDocument | modules/documents/documents.go:808-876 | refused exactly on a title or type it does not take; otherwise the new document, field by field, under the chain stored now; the modelled step |
| ApprovalTransactions.Documents.RouteDocument | modules/documents/workflow.go:365-415 | a draft, and only a draft, starts waiting under the chain stored now; nothing else of it changes |
| ApprovalTransactions.Documents.RenameDocument | modules/documents/documents.go:1090-1160 | the answer by cases: a title that cannot be stored, a document that is not a draft or waiting or that somebody signed, or only its title changed |
| ApprovalTransactions.Documents.RejectDocument | modules/documents/documents.go:1359-1387 | only a waiting document is rejected, and nothing else of it changes |
| ApprovalTransactions.Documents.WriteSignature | modules/documents/documents.go:1177-1340 | the whole decision under the row lock: refused for the channel exactly when the policy's own flag for it is off; refused, nothing changes; signed, one row is added, by the normalised citizen over that channel; the modelled step and its outcome |
| ApprovalRace.UninterruptedIsWhole | modules/documents/workflow.go:286-290 | reading and committing with nothing between is the atomic transaction |
| ApprovalRace.RaceRunKeepsSound | modules/documents/workflow.go:51-78 | raced or not, chains, documents and ledgers stay in order |
| ApprovalRace.RacedStuckIff | modules/documents/documents.go:977-1007 | in every raced run a waiting document is stuck iff the policy requires a name its next approval lacks |
| ApprovalRace.CommitKeepsInvIff | modules/documents/workflow.go:286-290 | a raced commit keeps the joint invariant iff the policy now asks for no names or the chain as read names everybody |
| ApprovalRace.RaceIsKeptIff | modules/documents/workflow.go:286-290 | a raced run keeps the joint invariant at every point iff none of its commits is of a chain the policy in force by then no longer takes |
| ApprovalRace.FitRaceStrandsNobody | modules/documents/workflow.go:286-290 | and in such a run no waiting document is ever stuck |
| ApprovalRace.RacedDocumentIsStuck | modules/documents/documents.go:808-876 | a concrete run: created while its type goes to named signers only, a document nobody can sign |
| EidSteps.PushKeepsInv | modules/documents/eidsign.go:236-249 | a freshly minted ceremony is spoken of by nothing yet |
| EidSteps.DropKeepsInvIff | modules/documents/eidsign.go:387-401 | the unguarded DELETE of a refused ceremony keeps spent ceremonies and signatures in step iff the ceremony was never spent |
| EidSteps.SpendingKeepsInv | modules/documents/documents.go:1317-1339 | signature and spending are one transaction |
| EidSteps.RowsGoIff | modules/documents/eidsign.go:260-401 | in any interleaving a row goes exactly by a sweep of its document, a later request to the same citizen on the same document, a poll past its deadline or a refusal of the rail, the first three only while unspent; a row that stays changes only by being spent |
| EidSteps.RowsComeIff | modules/documents/eidsign.go:236-259 | a row comes only by the handler that pushed its ceremony, and says what it was started for |
| EidSteps.LedgerGrowsBy | modules/documents/documents.go:1317-1339 | the ledger grows by the addressee of a ceremony as it is spent, by a signer over the other rail, and by nobody else |
| EidSessions.SpentIsKeptIff | modules/documents/eidsign.go:387-401 | whatever the rails answer and change their answers to: ceremonies are spent exactly when signed at every point of a run iff no DELETE of the run meets a spent row |
| EidSessions.FinalRunsDropNothing | modules/documents/eidsign.go:387-401 | which never happens in a run whose answers are final |
| EidSessions.RunKeepsInv | modules/documents/eidsign.go:305-473 | the ceremony invariant over every interleaving of statements |
| EidSessions.SpentExactlyWhenSigned | modules/documents/eidsign.go:403-473 | a ceremony is spent iff exactly one ledger signature carries its id, by the citizen and on the document it was for |
| EidSessions.SpentRowsStay | modules/documents/eidsign.go:349-377 | the row of a spent ceremony is never deleted |
| EidSessions.CompleteIsTrueIff | modules/documents/eidsign.go:369-375 | every COMPLETE answered is true for good, except exactly those of a late poll that found no row to delete because there was none |
| EidRuns.LateCompleteCanBeFalse | modules/documents/eidsign.go:369-375 | a run in which such a COMPLETE is false: nobody signed |
| EidRuns.FinalityIsNeeded | modules/documents/eidsign.go:387-401 | a run in which a changed answer deletes the row of a signature |
| EidRuns.ThatRunIsNotFinal | modules/documents/eidsign.go:387-401 | it is a run whose answers are not final, so the theorem does not speak of it |
| EidHandlers.PollStops | modules/documents/eidsign.go:310-337 | an unknown or spent ceremony ends the poll with its first statement |
| EidHandlers.PollIsLate | modules/documents/eidsign.go:349-377 | past the deadline an unspent approval is deleted |
| EidHandlers.AskedAndApproved | modules/documents/eidsign.go:403-473 | the addressed citizen's approval is signed and spent together, or nothing changes |
| EidHandlers.StartIs | modules/documents/eidsign.go:260-290 | a start's row stands and, for an approval, earlier ones to the same citizen are retired |
| EidHandlers.EidDesk.Start | modules/documents/eidsign.go:160-299 | the row stands, unspent; of the others exactly the unspent ones of the same citizen on the same document go, and none for a ceremony over a file; every row that stays is unchanged; equals the run of its statements |
| EidHandlers.EidDesk.Poll | modules/documents/eidsign.go:305-473 | the answer by cases; the ledger grows by the addressee exactly when the approval is accepted; its row goes exactly when too late or over, and no other row changes; equals the run of its statements |
| PartyInvariant.ApplyKeepsInv | modules/documents/partysign.go:189-401 | every statement of every handler keeps the invariant over parties, copies, signatories, ceremonies and ledger |
| PartySafety.RunKeepsInv | modules/documents/partysign.go:189-401 | so every run does |
| PartyMoves.PartyComesIff | modules/documents/parties.go:376-545 | in any interleaving a party comes exactly by being added, as a draft, and goes exactly by being removed while it is draft, declined, withdrawn or expired |
| PartyMoves.StatesMoveAlong | modules/documents/sending.go:498-767 | a party moves only along ten transitions, each by its own statement; who it is, whether it has to sign and its place never change |
| PartyMoves.PartyMovesAre | modules/documents/partysign.go:189-401 | what each statement makes of a party, its open ceremony included |
| PartyMoves.CopyMovesAre | modules/documents/sending.go:498-556 | a frozen copy is replaced by every send until it is signed, and goes exactly with its party or by a reopening before the party has signed |
| PartyMoves.SignatoryMovesAre | modules/documents/parties.go:553-635 | a signatory comes by being named, is marked only by a recorded signature of its own, and goes by being removed unsigned or with the party |
| PartyMoves.LedgerGrowsBy | modules/documents/partysign.go:323-401 | the ledger grows by a recorded signature and by nothing else, and the row says what the poll had read |
| PartyMoves.ContractMovesAre | modules/documents/migrations/00007_a_contract_is_executed_by_all_of_its_parties.sql:25-57 | the contract's state is written by the four statements that name it and otherwise only by the trigger, to what the parties say |
| PartyMoves.ChecksIff | modules/documents/partysign.go:98-116 | a ceremony may start exactly when every required party other than the issuer with a smaller number has signed |
| PartyMoves.PicksIff | modules/documents/partysign.go:118-181 | it goes on exactly with an unsigned signatory of the party who has a number, over a frozen copy that is not empty, and carries what it read |
| PartyMoves.PushesIff | modules/documents/partysign.go:189-209 | the rail is asked for the signature of whom was picked over what was read |
| PartyMoves.ReadsIff | modules/documents/partysign.go:246-281 | a poll goes on exactly over an open ceremony whose signatory is still named with a number, and carries the copy on file then |
| PartyMoves.AsksIff | modules/documents/partysign.go:282-320 | no answer yet, over, or a document to record, if it is not empty and the carried bytes have their own hash |
| PartySafety.SignedExactlyOnce | modules/documents/partysign.go:323-401 | a party is signed iff the ledger holds one row of it, never two, and that row is of the signatory the session in force was opened for |
| PartySafety.SignedIsFinal | modules/documents/sending.go:498-556 | whatever is resent, declined, withdrawn, reopened or removed, a signed party stays signed and its bytes unchanged |
| PartySafety.BytesCheckNeverFires | modules/documents/partysign.go:306-309 | the bytes check never refuses |
| PartySafety.CoversWhatWasSent | modules/documents/partysign.go:189-320 | the covered digest is that of the bytes the rail was given iff the two copies on record, the start's and the poll's by their numbers, are the same bytes |
| PartyCoverage.CoversWhatWasSentIff | modules/documents/partysign.go:189-320 | every ledger row goes back to a poll's read and, before it, to the pick of what its signatory was shown; it covers those bytes iff the last copy stored in between, if any, was of the same bytes, and the copies' numbers differ by exactly the copies stored in between |
| PartyCoverage.FrozenCopyIsCoveredIff | modules/documents/partysign.go:246-401 | a signed party's frozen copy is the one its ledger row covers iff the last copy stored between the poll's read and its record, if any, was of the same bytes |
| PartyCoverage.SentStays | modules/documents/partysign.go:189-243 | a ceremony on the rail stays as it is over every continuation and goes back to the same pick |
| PartyCoverage.CopyIsLastStored | modules/documents/sending.go:498-556 | a party's copy is always the last that was stored for it |
| PartyCoverage.NumbersCount | modules/documents/sending.go:498-556 | the number of a copy counts the statements that stored one |
| PartyOrder.OrderIsKeptIff | modules/documents/parties.go:398-408 | in any run, disturbed or not, the joint order holds at every point iff nobody who had to sign before was ever added after |
| PartyOrder.AddingKeepsOrderIff | modules/documents/parties.go:398-408 | adding a party breaks the joint order iff it is a required one that should have signed before somebody already under way |
| PartyOrderSteps.ApplyKeepsOrder | modules/documents/partysign.go:98-116 | every other statement keeps the order, in any interleaving |
| PartyOrder.UndisturbedRunIsOrdered | modules/documents/parties.go:398-408 | a run in which no send breaks off and no guard is stale keeps the order |
| PartyOrder.JointOrder | modules/documents/partysign.go:98-116 | in such runs, where a party with a number has signed, every required party other than the issuer with a smaller number has |
| PartyOrderSteps.ApplyKeepsGate | modules/documents/parties.go:398-408 | while parties may be added nobody is under way: kept by every statement of an undisturbed run |
| PartyOrderSteps.ApplyKeepsTally | modules/documents/migrations/00007_a_contract_is_executed_by_all_of_its_parties.sql:25-57 | whenever the trigger runs the tally is right: kept by every statement |
| PartyOrder.ExecutedMeansAllSigned | modules/documents/migrations/00007_a_contract_is_executed_by_all_of_its_parties.sql:25-57 | in every run a contract that reads EXECUTED has every required signature, at least one, and no refusal |
| PartyTally.TallySaysWhatIsSo | modules/documents/migrations/00007_a_contract_is_executed_by_all_of_its_parties.sql:25-57 | the trigger's counts say, over the parties' own states: DECLINED iff somebody has; else EXECUTED iff all who are awaited have signed, PARTIALLY_SIGNED iff some have and not all, SENT iff none; awaited are the required ones, or where there are none those it went to |
| PartyStanding.StepStandsIff | modules/documents/sending.go:315-327 | a statement leaves a contract that is out saying what its parties have answered iff it is not the mark of a send after an answer |
| PartyStanding.StandsIff | modules/documents/sending.go:315-327 | in any run a contract that is out says at every point what its parties have answered iff no mark ever came after an answer |
| PartyStanding.EarlyAnswerIsMarkedOver | modules/documents/sending.go:315-327 | a run in which a party has declined and the contract says SENT |
| PartyRuns.PickSigner | modules/documents/partysign.go:143-165 | the signed-in person's own row; without one the only row, or a refusal among several; for a visitor by invitation the first |
| PartyRuns.ResendIsMiscovered | modules/documents/partysign.go:306-309 | a run in which the ledger covers bytes the signatory was never shown |
| PartyRuns.RecordIsOfAnOlderCopy | modules/documents/partysign.go:306-401 | a run in which the frozen copy of a signed party is not the one its ledger row covers |
| PartyRuns.BrokenOffSendBreaksOrder | modules/documents/sending.go:308-327 | a run in which the joint order is broken after a send broke off |
| PartyRuns.ThatRunIsDisturbed | modules/documents/sending.go:308-327 | it is not an undisturbed run |
| PartyHandlers.ContractDesk.RefreshContractState | modules/documents/migrations/00007_a_contract_is_executed_by_all_of_its_parties.sql:25-57 | a contract that is out afterwards says what its parties say, case by case over their states; any other stays |
| PartyHandlers.ContractDesk.AddParty | modules/documents/parties.go:376-446 | refused by cases, sent or signed; else the new draft party and a contract that is a draft, and nothing else |
| PartyHandlers.ContractDesk.RemoveParty | modules/documents/parties.go:509-545 | refused by cases; else the party, its copy and its signatories go and nobody else's, and the contract says what the others say |
| PartyHandlers.ContractDesk.AddSignatory | modules/documents/parties.go:553-609 | refused by cases: no name, no such party, another organisation's, signed or declined; else the signatory under the trimmed number in capitals |
| PartyHandlers.ContractDesk.Nominate | modules/documents/inbox.go:421-477 | the receiving side names its own: only while the party is out, with a name and a number |
| PartyHandlers.ContractDesk.NominateByInvite | modules/documents/invite.go:468-526 | through an invitation only once: refused when somebody with a number is named |
| PartyHandlers.IssuedIs | modules/documents/issue.go:380-476 | a contract issued to one recipient in one transaction leaves the tables as drafting, naming and sending it would |
| PartyHandlers.ContractDesk.Issue | modules/documents/issue.go:380-476 | the rows inserted directly are those of that run, so every theorem about runs speaks of issued contracts |
| PartyHandlers.ContractDesk.RemoveSignatory | modules/documents/parties.go:611-635 | removes exactly a signatory who has not signed |
| PartyHandlers.ContractDesk.WithdrawNominee | modules/documents/inbox.go:480-504 | the receiving side takes back exactly an unsigned signatory of its own party |
| PartyHandlers.ContractDesk.StorePartyCopy | modules/documents/sending.go:498-556 | replaces any copy but a signed one, and a draft party becomes invited |
| PartyHandlers.ContractDesk.Send | modules/documents/sending.go:133-331 | refused by cases; else counts the deliveries that go out, invites exactly the draft parties among them, leaves each with the last copy rendered for it unless its copy is signed, touches nobody else, and marks the contract; equals the run of its transactions |
| PartyHandlers.ContractDesk.WithdrawContract | modules/documents/sending.go:638-712 | refused exactly when executed; else shuts exactly the parties that have not answered and ends their ceremonies; the contract's state is written over the trigger's |
| PartyHandlers.ContractDesk.ReopenContract | modules/documents/sending.go:719-776 | refused exactly when not withdrawn; else the withdrawn become draft, their unsigned copies go and no others, who answered stays |
| PartyHandlers.ContractDesk.MarkViewed | modules/documents/inbox.go:323-352 | only an invited party becomes viewed; modules/documents/invite.go:365-389 does the same |
| PartyHandlers.ContractDesk.DeclineParty | modules/documents/inbox.go:586-642 | only a party that is out declines, and its ceremony ends; a contract that is out is then DECLINED; the other two decline handlers do the same |
| PartyCeremony.StartIs | modules/documents/partysign.go:189-243 | a start that reaches the rail takes the lock, or changes nothing here |
| PartyCeremony.Signing.StartSignature | modules/documents/partysign.go:82-243 | the answer by cases in the tables' own fields: somebody comes before, nobody eligible, none of several is the user, no copy, a ceremony open, else started, for the user's own row or the first; refused, nothing changes |
| PartyCeremony.Signing.RecordSignature | modules/documents/partysign.go:323-401 | party, signatory, signed bytes and ledger row together, or nothing; a contract that is out is EXECUTED afterwards iff this was the last signature awaited and nobody declined |
| PartyCeremony.Signing.PollSignature | modules/documents/partysign.go:246-320 | the answer by cases in the tables' own fields; recorded exactly when Complete, and what it writes; equals the run of its statements |
| ParentGraph.MetSoon | domain/organisation/memory/memory.go:183-200 | before the ancestor is first met no unit is passed twice, so it is met within as many steps as there are units |
| ParentGraph.BelowIsSoon | domain/organisation/memory/memory.go:183-200 | on every parent graph, knotted or not, reachable iff reachable within as many steps as there are units |
| ParentGraph.KnotNeverEnds | domain/organisation/memory/memory.go:183-200 | above a unit that is below itself no climb ends |
| ParentGraph.MoveKeepsForestIff | domain/organisation/service.go:114-147 | moving a unit keeps the forest iff the new parent is none, or neither the unit nor below it |
| ParentGraph.AddKeepsForest | domain/organisation/service.go:96-108 | a new unit under an existing one keeps it |
| ParentGraph.RemoveKeepsForest | domain/organisation/service.go:190-207 | removing a unit nothing reports to keeps it |
| Organisation.UpdateIsGoodIff | domain/organisation/memory/memory.go:161-181 | the store's unguarded update keeps rows unique, references whole and the forest acyclic iff the unit may report there |
| Organisation.CreateIsGood | domain/organisation/memory/memory.go:137-159 | a created unit keeps all of that |
| Organisation.DeleteIsGood | domain/organisation/memory/memory.go:244-255 | deleting a unit nothing reports to keeps all of that |
| Organisation.ConcurrentMovesKnot | domain/organisation/service.go:114-147 | two moves, each checked before either is written, tie a knot |
| OrganisationService.IsValidCode | domain/organisation/service.go:222-232 | accepts exactly one to 64 lower-case letters, digits, hyphens and underscores |
| OrganisationService.Store.FindPerson | domain/organisation/memory/memory.go:267-271 | the first matching membership |
| OrganisationService.Store.FindDepartment | domain/organisation/memory/memory.go:273-281 | the first matching unit |
| OrganisationService.Store.IsDescendant | domain/organisation/memory/memory.go:183-200 | the bounded walk answers whether the ancestor is reached by one or more parent steps, on every table |
| OrganisationService.Store.Foreign | domain/organisation/memory/memory.go:257-265 | a parent or manager that is named, trimmed, and not a row of the tenant is refused |
| OrganisationService.Store.CreateDepartment | domain/organisation/memory/memory.go:137-159 | code taken, foreign reference, or the new row; order kept |
| OrganisationService.Store.UpdateDepartment | domain/organisation/memory/memory.go:161-181 | name, parent and manager; the code and the archive flag stay |
| OrganisationService.Store.Parent | domain/organisation/memory/memory.go:202-214 | the unit's name and whether it is archived |
| OrganisationService.Store.SetDepartmentArchived | domain/organisation/memory/memory.go:216-225 | only the flag of that unit changes |
| OrganisationService.Store.CountChildren | domain/organisation/memory/memory.go:227-242 | counts the people in a unit and the units that report to it: as many as there are such rows |
| OrganisationService.Store.DeleteDepartment | domain/organisation/memory/memory.go:244-255 | removes that row and no other |
| OrganisationService.Store.CountAdmins | domain/organisation/memory/memory.go:102-112 | counts the tenant's other active administrators: as many as there are such rows |
| OrganisationService.Store.SetActive | domain/organisation/memory/memory.go:114-123 | only that membership's flag changes |
| OrganisationService.Store.UpdatePerson | domain/organisation/memory/memory.go:78-100 | the job title is written even when the department is then refused |
| OrganisationService.RefusedEditIsHarmlessIff | domain/organisation/memory/memory.go:78-100 | a refused edit changed nothing iff it carried no other job title |
| OrganisationService.AdminStays | domain/organisation/service.go:55-85 | with the guard passed the tenant keeps an active administrator |
| OrganisationService.AdminStaysIff | domain/organisation/service.go:55-85 | a write leaves the tenant an active administrator iff the guard holds at the write |
| OrganisationService.AdminIsKeptIff | domain/organisation/service.go:55-85 | over any succession of racing writes the tenant has an active administrator after each iff each found its guard still true |
| OrganisationService.ConcurrentDeactivations | domain/organisation/service.go:55-85 | two deactivations, each counted before either is written, leave none |
| OrganisationService.Service.SetPersonActive | domain/organisation/service.go:55-85 | refusals by cases, the last administrator exactly when no other is active; every tenant that had an active administrator still has one |
| OrganisationService.Service.CreateDepartment | domain/organisation/service.go:96-108 | refused by cases, each exactly: name or code, code taken, foreign reference; else the new row, and the organisation stays in order |
| OrganisationService.Service.UpdateDepartment | domain/organisation/service.go:114-147 | the walk before the move: never a knot, and every move that ties none is made |
| OrganisationService.Service.SetDepartmentArchived | domain/organisation/service.go:159-182 | restoring is refused exactly under an archived parent, either exactly when there is no such unit; else only the flag changes |
| OrganisationService.Service.DeleteDepartment | domain/organisation/service.go:190-207 | a unit goes only when nobody works in it and nothing reports to it; no dangling reference |
| OrganisationRaces.WriteIsGoodIff | domain/organisation/service.go:114-207 | a write of the store keeps units unique, references whole, the forest acyclic and nobody in a unit that is gone, iff what its handler had checked still holds at the write |
| OrganisationRaces.TablesAreKeptIff | domain/organisation/service.go:114-207 | over any succession of racing writes the tables are good after each iff each found its guard still true |
| OrganisationRaces.CountedDeletionOrphans | domain/organisation/service.go:190-207 | a unit counted empty, another created under it, then the deletion: the parent dangles |
| RelayRules.MovesClimb | domain/urtuu/wire/status.go:60-72 | a local move never lowers the rank |
| RelayRules.MovesAre | domain/urtuu/wire/status.go:60-72 | the thirteen moves the table allows, and no other |
| RelayRules.SupersedingIs | domain/urtuu/urtuu.go:232-261 | which status supersedes which: never itself, never a step back |
| RelayRules.MirrorIsLastOfTop | domain/urtuu/urtuu.go:232-261 | after any deliveries a mirror is at the maximum rank seen, at the last delivery of that rank |
| RelayRules.NeverBackwards | modules/urtuu/envelopes.go:322-337 | no delivery lowers the rank |
| RelayRules.OrdersAgree | domain/urtuu/urtuu.go:232-261 | any reordering and repetition agrees on the rank, and on the status when only one of the top rank is among them |
| RelayRules.OrdersDisagree | domain/urtuu/urtuu.go:256-261 | and only then: with two of the top rank, two orders end differently |
| RelayRules.PassedThrough | domain/urtuu/urtuu.go:194-201 | the loop answers membership |
| RelayRules.NumberIsInjective | domain/urtuu/urtuu.go:67-99 | FormatNumber tells line, year and sequence apart |
| RelayRules.NumberReadsBack | domain/urtuu/urtuu.go:67-99 | the line's letter, the year, a dash and the sequence, in five digits while five hold it, read back |
| RelayRules.JoinAnswers | domain/urtuu/urtuu.go:276-299 | the loop computes the joined answer |
| RelayRules.OneAnswerStandsIff | domain/urtuu/urtuu.go:276-299 | one office's answer stands as itself iff its name holds no ": " |
| RelayRules.SaysNothingIff | domain/urtuu/urtuu.go:276-299 | the branches together say nothing iff none of them says anything |
| RelayRules.EveryAnswerIsNamed | domain/urtuu/urtuu.go:276-299 | of several answers any two stand whole in the joined text, each under its name on lines of its own, in the order of the branches |
| RelayNumbers.ApplyKeepsInv | modules/urtuu/numbers.go:42-61 | draws, commits and rollbacks keep every counter gapless |
| RelayNumbers.CounterMoves | modules/urtuu/numbers.go:42-61 | a draw waits for the counter's holder or takes the next number; a commit registers what its own transaction drew, a rollback lets go of it, and nobody else's counter moves |
| RelayNumbers.RegisterIsGapless | modules/urtuu/numbers.go:42-61 | committed numbers per tenant, line and year are exactly 1..k in order of commit |
| RelayNumbers.NumbersAreUnique | modules/urtuu/numbers.go:42-61 | no two registrations of a tenant carry the same number text |
| RelayNumbers.RollbackGivesBack | modules/urtuu/numbers.go:42-61 | what a rolled-back transaction drew is drawn again |
| RelayNetwork.ApplyKeepsInv | modules/urtuu/envelopes.go:88-263 | raising, delegating and delivering keep chains, mirrors and envelopes fitting |
| RelayNetwork.SendAllHandsOn | modules/urtuu/envelopes.go:88-135 | handing work on adds a branch and its envelope for each peer, in their order, with the chain of the task |
| RelayNetwork.ChainIsThePath | modules/urtuu/envelopes.go:183-263 | over any graph and any run a task's origin chain is exactly the path its work took and is duplicate-free |
| RelayNetwork.DelegationEnds | modules/urtuu/envelopes.go:88-135 | a received task's chain is one longer than its sender's and never longer than the number of installations |
| RelayNetwork.OneTaskPerBranch | modules/urtuu/envelopes.go:231-262 | however often redelivered, a dispatched branch becomes at most one task, where it was addressed |
| RelayNetwork.CycleIsRefused | domain/urtuu/urtuu.go:194-226 | delivered to an installation it has been through, work is refused and answered; with a code in use and elsewhere, it is taken in |
| RelayNetwork.TakenIff | modules/urtuu/envelopes.go:183-263 | in every run over any graph, what an envelope asks for has been taken in iff it has come with a code in use, to an installation its work has not been through |
| RelayHandlers.Commits | modules/urtuu/numbers.go:42-61 | a committing transaction moves its counter on by what it drew and no other |
| RelayHandlers.RollsBack | modules/urtuu/envelopes.go:231-253 | a rolled-back one leaves the counters as they were |
| RelayHandlers.Relay.NextNumber | modules/urtuu/numbers.go:42-61 | the upserted counter and the formatted number |
| RelayHandlers.Relay.SendDownTo | modules/urtuu/envelopes.go:88-135 | mirror row with its own number, then the envelope, each with the task's chain |
| RelayHandlers.Relay.SendToAll | modules/urtuu/handlers.go:335-344 | one branch per peer, or none when the code is not open on one of them |
| RelayHandlers.Relay.CreateTask | modules/urtuu/handlers.go:147-280 | root and branches in one transaction, row by row, and as many numbers; or nothing at all; the modelled step |
| RelayHandlers.Relay.DelegateTask | modules/urtuu/handlers.go:288-348 | one branch and one envelope for each peer, and as many numbers; or nothing at all; the modelled step |
| RelayHandlers.Relay.ReceiveAssignment | modules/urtuu/envelopes.go:183-263 | the answer by cases: been here, code not to be checked, unknown or not in use; already here, with the number given back; or registered with the next number, the chain one longer |
| RelayRollUp.RolledUp | modules/urtuu/envelopes.go:365-401 | the climb ends and adds no row |
| RelayRollUp.NewRowsAre | modules/urtuu/handlers.go:147-280 | work raised here waits at once on a branch for each office it is split to; work that arrives waits to be accepted |
| RelayRollUp.Board.RollUp | modules/urtuu/envelopes.go:365-401 | the recursion over the rows computes the specified climb |
| RelayRollUp.Board.GatherAnswers | modules/urtuu/envelopes.go:413-468 | an own service request without an answer gets its branches' joined answer, if they say anything; nothing else changes |
| RelayRollUp.Board.Transition | modules/urtuu/handlers.go:441-530 | moved exactly when the table and the schema allow it; the answer is written even when the move is refused, except over a finished request left without one; then the roll-up; the modelled step |
| RelayRollUp.Board.ReceiveUpdate | modules/urtuu/envelopes.go:286-347 | news that does not go back, then the roll-up: the modelled step |
| RelayRollUp.Board.DelegateTask | modules/urtuu/handlers.go:288-362 | branches first, row by row, then the move, made exactly from ACCEPTED or IN_PROGRESS and refused with the branches standing |
| RelayRollUp.RollUpIsSound | modules/urtuu/envelopes.go:365-401 | a roll-up changes a status only to COMPLETED, only where allowed, only where every branch is complete |
| RelayRollUp.RollUpSettles | modules/urtuu/envelopes.go:365-401 | and leaves nothing on the way up waiting on finished branches |
| RelayRollUp.BranchAnswersAre | modules/urtuu/envelopes.go:413-468 | the branches' answers in the order of their rows, each under its office, the blank ones left out |
| RelayRollUp.RollUpTells | modules/urtuu/envelopes.go:365-468 | a delegated own task whose branches are all complete: on the service line completed with their joined answer, or its own if it had one, or left as it was where there is nothing to tell; on the assignment line completed with the answer it had |
| RelayRollUp.AnswersStand | modules/urtuu/envelopes.go:413-420 | no roll-up touches an answer on the assignment line or one that says something |
| RelayRollUp.LastAnswerCompletes | modules/urtuu/envelopes.go:286-468 | news of the last outstanding branch of a service request completes it with what its branches answered |
| RelayRollUp.OneOfficeAnswers | modules/urtuu/envelopes.go:286-468 | with one branch alone, with that office's own words |
| RelayRollUp.NothingLeftUndone | modules/urtuu/envelopes.go:339-401 | in every run no task waits, on the assignment line, on branches that are all complete |
| RelayRollUp.ClosedBranchBlocks | modules/urtuu/envelopes.go:369-376 | a branch once CLOSED keeps its task from ever rolling up |
| RelayRollUp.CanStillCompleteIff | modules/urtuu/envelopes.go:339-401 | in every run a task that waits on the assignment line can still be completed by news of its branches iff none of them is CLOSED |
| RelayRollUp.ClosedTooSoon | modules/urtuu/envelopes.go:369-376 | a run in which that leaves a task delegated |
| RelayRollUp.RefusedDelegationLeavesBranches | modules/urtuu/handlers.go:345-356 | the branches of a delegation are there and outstanding whether the task moved or not; it stays as it was iff the move to DELEGATED is not allowed |
| OAuthRenewal.StepIsOrderly | modules/integrations/oauth.go:266-342 | every statement of every concurrent call keeps the record in order, a reconnection in the middle of an exchange excepted |
| OAuthRenewal.RenewedOnce | modules/integrations/oauth.go:289-318 | in any interleaving, failures included, a renewed access token is never exchanged again, and every call that waited returns the newest token the row then held, newer than the one it complained of |
| OAuthRenewal.GrantSurvivesIff | modules/integrations/oauth.go:310-316 | a step keeps the grant in force iff it is not one of three: a rotated token lost on the way, one not stored, a reconnection mid-exchange |
| OAuthRenewal.GrantIsKeptIff | modules/integrations/oauth.go:289-318 | the grant is in force at every point of a run iff none of its steps is one of the three |
| OAuthRenewal.LossStrands | modules/integrations/oauth.go:310-316 | a lost grant leaves the row with a superseded refresh token and nobody with a better one |
| OAuthRenewal.OnlyReconnectingHelps | modules/integrations/store.go:311-331 | from then on no renewal succeeds until somebody reconnects |
| OAuthLock.RunKeepsLock | modules/integrations/oauth.go:278-318 | in every run at most one call is past the lock, and the lock is never left behind by a call that has ended |
| OAuthLock.CallsBeginIff | modules/integrations/oauth.go:266-342 | a call asks for a renewal exactly when it found its token expired or was refused with one the row has held, and complains of that token |
| OAuthLock.ExchangesIff | modules/integrations/oauth.go:289-303 | a renewal goes to the provider exactly when the row, read again under the lock, still holds the token complained of and has a refresh token |
| OAuthLock.RecordIs | modules/integrations/oauth.go:304-318 | every refresh token taken to the provider and every renewal stored is on record, in order, with whether it was the one in force |
| OAuthLock.RowChangesIff | modules/integrations/oauth.go:304-318 | the row changes only by a renewal that was stored, to what it was granted, and by a reconnection |
| OAuthLock.EveryCallCanEnd | modules/integrations/oauth.go:278-318 | from wherever a run has come to, every call that waits or works can be brought to its end in at most seven statements |
| OAuthManager.PathOf | modules/integrations/oauth.go:289-318 | where an uninterrupted renewal leads, by what the row says when read again |
| OAuthManager.Manager.Refresh | modules/integrations/oauth.go:182-203 | a response without a refresh token keeps the one presented |
| OAuthManager.Manager.RefreshAccess | modules/integrations/oauth.go:289-318 | the answer by cases: the row's newer token, nothing, or what was granted with the refresh token kept where none came; equals the run of its statements |
| OAuthManager.Manager.AccessToken | modules/integrations/oauth.go:266-276 | a token that has not expired is handed out as it is; an expired one is renewed, or nothing is given and the row stays |
| OAuthManager.Manager.TokenAfterRejection | modules/integrations/oauth.go:330-342 | only a 401 leads to a renewal, and a retry always carries a different token |
| Utf8.RunesOfEncode | modules/integrations/oauth.go:425-437 | Go's reading of a string inverts UTF-8 (section 3 of RFC 3629) |
| Utf8.ValidIff | modules/integrations/oauth.go:425-437 | reading and writing again restores exactly the valid strings |
| Utf8.CutIsValidIff | modules/integrations/oauth.go:432-436 | a valid string may be cut exactly where it ends or a character begins |
| Utf8.NoFourTails | modules/integrations/oauth.go:432-436 | of any four bytes in a row one begins a character |
| Truncation.Truncate | modules/integrations/oauth.go:425-437 | on valid UTF-8 the longest valid prefix of at most n bytes, less than four bytes short of n; on any bytes a prefix that fits |
| Truncation.TrimSpaceOfText | modules/documents/eidsign.go:128 | byte-level trimming of well-formed titles is character-level trimming |
| Truncation.SignatureDisplayText | modules/documents/eidsign.go:119-156 | at most 60 bytes for every title, purpose first, all of a title that fits, and otherwise the longest beginning in whole characters with the ellipsis |
| UrlPath.UrlPathEscape | modules/integrations/google.go:233-244 | the byte loop computes the escape: one segment, which percent-decoding gives back |
| UrlPath.ByteStaysIff | modules/integrations/google.go:233-244 | letters, digits and four marks stand for themselves, any other byte as a percent sign and two upper-case digits |
| UrlPath.DecodedIsTheId | modules/integrations/google.go:231-244 | percent-decoding (section 2.1 of RFC 3986) gives every byte string back |
| UrlPath.EscapedIsOneSegment | modules/integrations/google.go:231-244 | the result holds only unreserved characters and triplets with upper-case digits |
| UrlPath.SegmentIs | modules/integrations/google.go:231-244 | character by character, what such a segment is made of |
| UrlPath.NothingReserved | modules/integrations/google.go:231-244 | no reserved character of section 2.2 of RFC 3986 is left in the result |
| JsonLiterals.EscapeNonAscii | modules/integrations/dropbox.go:131-146 | the loop over the runes computes the escape: ASCII, and of the same meaning wherever the text is the inside of a literal |
| JsonLiterals.EscapedIsAscii | modules/integrations/dropbox.go:128-146 | the result is ASCII |
| JsonLiterals.PairRoundTrip | modules/integrations/dropbox.go:148-152 | a surrogate pair stands for the character it was split from |
| JsonLiterals.PairsAre | modules/integrations/dropbox.go:148-152 | every pair of the two surrogate ranges is the one written for the character it stands for |
| JsonLiterals.ShortEscapesAre | modules/integrations/dropbox.go:128-146 | the two-character escapes of section 7 of RFC 8259, and no other |
| JsonLiterals.MeaningStays | modules/integrations/dropbox.go:128-146 | every well-formed JSON literal means the same code points afterwards (section 7 of RFC 8259), escapes and lone surrogates already in it included |
| JsonLiterals.AsciiStays | modules/integrations/dropbox.go:134-137 | everything outside the literals stays as it is |
| Encodings.HexRoundTrip | modules/documents/contentsign.go:272-275 | hexadecimal gives the digest back |
| Encodings.LettersRoundTrip | modules/documents/contentsign.go:277-279 | base64 gives the digest back |
| Encodings.HexIsReadIff | modules/documents/contentsign.go:272-286 | read as hexadecimal is exactly an even number of digits, in either case |
| Encodings.LetterIff | modules/documents/contentsign.go:277-279 | the letters of base64 are exactly those of section 4 of RFC 4648, each read as it is written |
| Encodings.LineEndsAside | modules/documents/contentsign.go:277-279 | line ends decide nothing, wherever they stand |
| Encodings.HexIsMadeOfLetters | modules/documents/contentsign.go:280-286 | whatever decodes as hexadecimal is made of base64 letters, two for each byte |
| Digests.SameMeansSame | modules/documents/contentsign.go:272-287 | it accepts nothing but the bytes that were sent |
| Digests.NoDigestMatchesNothing | modules/documents/contentsign.go:272-276 | where the digest that was sent is blank or not hexadecimal, no answer is accepted |
| Digests.Base64IsAccepted | modules/documents/contentsign.go:277-279 | standard base64 (section 4 of RFC 4648) of the digest is accepted |
| Digests.SpaceDecidesNothing | modules/documents/contentsign.go:273-283 | white space around either text decides nothing |
| Digests.HexIsAcceptedIff | modules/documents/contentsign.go:277-286 | the right answer in hexadecimal is accepted iff the digest has an odd number of bytes |
| Digests.HexSha256IsRefused | modules/documents/contentsign.go:280-286 | so never for a SHA-256 |

## Left out

- HTTP decoding, routing, status codes, audit, metrics, menus, permissions and the platform SDK: plumbing without
  state of its own.
- PostgreSQL, row-level security and tenants: one tenant in the approval, contract and ceremony models; of the schema
  only the constraints and the trigger the code relies on.
- Regular-expression matching in docx.go: the runs are given as any increasing list of disjoint intervals. Texts there
  are sequences of characters, where the code counts bytes; the argument is the same, position by position.
- PDF drawing, conversion, ZIP, Excel and CSV handling, hashing and sealing: a digest is an injective constructor.
- Party signatures in the approval ledger, and party ceremonies in the eID session table: they share tables with those
  protocols but are modelled on their own.
- TextFault's check for invalid UTF-8: a Dafny string holds only scalar values. Upper-casing covers ASCII and the
  Cyrillic blocks.
- Of bulk issue, reading the list, the advisory lock and the check for duplicates among the issued: they choose whom
  a contract is issued to. PartyHandlers.ContractDesk.Issue is one recipient's transaction. That the master, which
  keeps its draft parties and has no copies, is then marked sent (modules/documents/issue.go:184-193) is not a step.
- Importing parties from a file (modules/documents/import.go:121-173): each row is an AddParty whose guard was read
  once for all, an AddSignatory and, if that fails, a RemoveParty, so every import is a run of the model; the loop
  that reads the rows is not a method of it.
- The organisation's tables in PostgreSQL: the store modelled is domain/organisation/memory; in PostgreSQL the schema's own
  ON DELETE clauses settle what a deleted unit was referred to by.
- Which of several faults in different maps ValidateChain's message mentions; the model reports the first step at fault.
- Documents whose chain was numbered by hand before the screen existed: modelled chains are numbered from one.
- A failed write or a lost connection inside a transaction: it rolls back, which is no step at all.
- Links between installations are identified with the installations at their ends; deadlines, evidence, titles and
  payloads travel with the work and decide nothing.
- Service.UpdatePerson and listing functions of the organisation: they only forward to the store.
- Reports, templates, retention, catalogue, e-government look-ups and the webhook retry loop: correct but easy beside
  the above.
- ApprovalSafety.ApplyKeepsInv: transactions are atomic there; ApprovalRace splits those that read without the lock.
- PartyOrder.JointOrder: speaks of undisturbed runs, in which no send breaks off before its mark and no guard is stale
  when its write lands, because outside them it is false.
- OAuthRenewal.RenewedOnce: the provider issues access tokens it has not issued before, and nobody reconnects the
  account during an exchange.
- EidSessions.SpentExactlyWhenSigned: the provider's terminal answers are final, because otherwise it is false;
  EidSessions.SpentIsKeptIff says without that when it holds.
