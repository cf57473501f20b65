# Verified models of the bookkeeping core

A bookkeeping system for small companies is mostly about one worry: the same event must not be
counted twice, and nothing that was counted may silently change. A bank statement overlaps the
previous one; a receipt is uploaded, retried, re-read by a language model and classified again
by hand; two people approve the same claim; a year is closed, reopened and closed again; an old
browser tab still holds an old session. Each of these is a piece of persistent state that many
operations touch, with a simple specification it must always agree with. This project models
those pieces of state in Dafny and proves that they do.

| component | files |
|---|---|
| CRC-32 of a file | `Words.dfy`, `Crc32.dfy` |
| split of a date range by month | `MonthSplit.dfy` |
| duplicate candidates among expenses | `DuplicateGroups.dfy` |
| session ownership across browser tabs | `Session.dfy` (every interleaving), `SessionSignOut.dfy` (what the sign-out of a 401 takes), `SessionTab.dfy` (the functions of one tab) |
| canonical bank journal | `JournalModel.dfy` (tables and operations), `JournalSafety.dfy` (all runs), `JournalEvidence.dfy` (what provenance and conflicts say), `JournalRepair.dfy`, `JournalRoundTrip.dfy`, `JournalReplay.dfy`, `JournalOrder.dfy`, `BankJournal.dfy` (the service, table by table) |
| fingerprint of an imported source | `Json.dfy`, `Sorting.dfy`, `Fingerprint.dfy` |
| annual accounts | `Ledger.dfy`, `AnnualReport.dfy` (what the report is), `AnnualProofs.dfy`, `AnnualClose.dfy`, `AnnualFinality.dfy`, `AnnualAssembly.dfy` (the loops), `AnnualBooks.dfy` (the service) |
| approvals | `Approvals.dfy` (every interleaving), `ApprovalService.dfy` (the service) |
| allowance caps | `AllowanceCaps.dfy` |
| intake of a document | `Intake.dfy`, `Pass2.dfy` |

`Wrappers.dfy` holds the option type, `Seqs.dfy` a lemma on sequences.

How the models are made:

- A database transaction is one atomic step. Where the code reads first and writes in a later
  transaction (approvals, intake, browser storage), the two are separate steps and anything may
  happen in between.
- Tables are finite maps with their unique indexes beside them. Foreign keys are enforced, as the
  schema declares them.
- Answers of language models, of the posting pipeline, of the clock and of people are parameters
  of a step, so every theorem holds for whatever they are.
- SHA-256 is taken to be injective: two hashes are compared by what was hashed.
- Amounts are integers in minor units, as in the source. Nothing there relies on wrap-around
  except the CRC, whose 32-bit words are modelled as such.
- A component that changes state has a class whose methods are proved to do exactly what the
  specification functions say; the theorems over all runs are about those functions.

## What is proved, and what turned out not to hold

- **CRC.** The table-driven loop computes the bit-serial CRC of section 8 of RFC 1952, and
  detects every change confined to 32 consecutive bits, so every change of up to four consecutive
  bytes. Five bytes is too many: one pattern of five bytes is missed in every context. A message
  followed by four bytes has the fixed residue exactly when they are its own checksum.
- **Sessions.** A response is delivered, and a 401 acted upon, only if no sign-in or sign-out
  began since the request was stamped. The stronger claim that an old request never ends a newer
  session is false. The sign-out of a 401 is three writes after its ownership check: a new epoch,
  then the token is removed, then the id. Another tab may sign in before any of them. Two runs
  show it: in one a session that signs in right after the check loses everything; in the other
  the session signs in after the old token is gone, and loses its id to the third write, while a
  request of its own is in flight. The exact condition is proved, with each stored value traced to
  the sign-in that wrote it: the sign-out takes nothing of a sign-in begun after its check if and
  only if no such sign-in is the last thing begun before the new epoch, the last to write a token
  before the token goes, or the last to write an id, or to be given one, before the id goes.
- **Bank journal.** No run of imports, deletions, repairs, resolutions, dispositions and matches
  loses a row with financial references, changes the facts of a row, or leaves evidence pointing
  at nothing. The service does not repoint the aliases of an earlier merge when its survivor is
  merged in turn; aliases still always resolve, because the database refuses that second merge:
  the audit row of the first one holds a foreign key on the survivor. Importing a statement and
  deleting it again restores the journal if and only if each row that made a movement left it
  open and each movement recognised is kept by something else. After any run every provenance row
  states the amount and currency of the row it is attached to, and every conflict is about the
  difference its kind names. That survives repairs because a repair compares the money; the other
  material facts, which it does not compare, are stated for runs without repairs.
- **Annual accounts.** For every ledger of balanced vouchers the report balances, so the
  imbalance warning never fires. Closing transfers leave the income statement and every equity
  figure alone. In a year that is not blocked the final report is the draft, and closing again
  posts nothing. A period is finalized once, and not before the earlier ones of its calendar. What
  keeps the locked periods an initial stretch of a calendar is that, together with opening periods
  last: nothing stops an earlier period from being opened after a later one was locked.
- **Approvals.** An object is posted at most once, and an approval that says approved names a
  posted object. A verdict, once given, is not always final: a call that read the approval while
  it was still awaited writes its own verdict over it. Exactly when that can still happen is
  proved, as a condition on the approval, its object and the calls in flight, with a run in which a
  rejected approval ends up approved and its claim posted. A batch posts, for each object, the first
  listed approval that could be posted when it began, reports it with its voucher, and leaves
  everything else alone.
- **Caps.** After any run the exemption booked in a window is the cap or the eligible total,
  whichever is less, and the posted high-rate days of a month never exceed the quota. That the
  quota is used to the full is false: the days of claims in triage count against each other, so
  two claims that wait together give up days that neither is then paid at the high rate. When a
  step keeps the quota fully used is proved exactly.
- **Intake.** A document never has two expenses or two vouchers. That a protected chain is never
  touched by a later command is false in one case: a command that looked a row up while it was a
  draft, and finds it held for approval when it gets to edit it, takes it back and goes on. A
  command step changes a protected chain if and only if that is what happens, in any run; commands
  that look the chain up while it is protected leave it alone for as long as it stays so; a posted
  row is final.
- **Second pass.** A pass succeeds exactly when one of the first answers is acceptable and nothing
  before it ended the pass. No supplier id of an accepted purchase comes from the model, and
  changing the ids in the model's answers changes no accepted purchase.

## Model

| member | source | states |
|---|---|---|
| `Crc32.ByteStep` | packages/server/src/common/crc32.util.ts:11-15 | for every register and byte the byte-wise step with a table lookup is eight bit-wise division steps |
| `Crc32.ChecksumModule.GetCrc32Table` | packages/server/src/common/crc32.util.ts:19-30 | fills the 256 entries in place, each eight division steps of its index, and returns the same array ever after |
| `Crc32.ChecksumModule.Crc32` | packages/server/src/common/crc32.util.ts:7-17 | the loop computes the bit-serial CRC of the message with the reflected polynomial and both complements |
| `Crc32.BurstDetected` | packages/server/src/common/crc32.util.ts:11-15 | messages that differ only within 32 consecutive bits never leave the same register, whatever precedes and follows |
| `Crc32.ChangeDetected` | packages/server/src/common/crc32.util.ts:7-17 | equal-length byte strings that differ only within four consecutive bytes have different checksums |
| `Crc32.FiveBytesCanCollide` | packages/server/src/common/crc32.util.ts:7-17 | four is the limit: one five-byte pattern is undetected in every context |
| `Crc32.EmptyChecksum` | packages/server/src/common/crc32.util.ts:7-17 | the checksum of the empty message is zero |
| `Crc32.OnlyTheChecksumFits` | packages/server/src/common/crc32.util.ts:7-17 | four bytes appended to a message give the fixed residue, the checksum of four zero bytes, if and only if they are the checksum of the message, lowest byte first |
| `Crc32.LeadingZerosCount` | packages/server/src/common/crc32.util.ts:9-17 | a zero byte put before a message changes its checksum |
| `MonthSplit.SplitByMonth` | packages/server/src/allowances/date-utils.ts:9-78 | parses both dates; the split terminates, the months are consecutive, each segment lies in its month, and the day counts add up to the length of the range |
| `MonthSplit.SplitDates` | packages/server/src/allowances/date-utils.ts:39-77 | the loop over the months, for parsed dates |
| `MonthSplit.DaysWithin` | packages/server/src/allowances/date-utils.ts:52-64 | the day count of a month is the number of days of the range that fall in it |
| `MonthSplit.MonthsAreDistinct` | packages/server/src/allowances/date-utils.ts:39-77 | the months of a split strictly increase |
| `MonthSplit.TimeOrder` | packages/server/src/allowances/date-utils.ts:14-37 | midnights are ordered as calendar dates are, across leap years and year ends |
| `MonthSplit.YearLength` | packages/server/src/allowances/date-utils.ts:44-62 | twelve consecutive months are 365 or 366 days as the year is leap |
| `DuplicateGroups.GetDuplicateCandidates` | packages/server/src/admin/admin.service.ts:159-224 | two rows share a group if and only if detections connect them; groups are disjoint, start with their original, which has the smallest id, and name the supplier and the match of the detection that founded them |
| `DuplicateGroups.PlaceRow` | packages/server/src/admin/admin.service.ts:187-223 | one turn of the loop keeps the groups, the index of groups and the components of the rows seen so far in agreement |
| `DuplicateGroups.GroupHasOneSupplier` | packages/server/src/admin/admin.service.ts:194-218 | when detections stay with a supplier, every expense of a group is of the supplier the group names |
| `DuplicateGroups.ConnectedIffSameRoot` | packages/server/src/admin/admin.service.ts:155-157 | the components of the detections are the sets of rows with one original |
| `Session.OwnedAnswersOnly` | packages/web/src/auth.ts:184-250 | in every interleaving of single storage writes, data is delivered and a 401 accepted only if no sign-in or sign-out began since the stamp and the stored token is the one sent |
| `Session.EpochTellsWhetherAnyBegan` | packages/web/src/auth.ts:91-128 | the stored epoch equals the stamped one exactly while no sign-in or sign-out began in any tab |
| `Session.OwnershipIff` | packages/web/src/auth.ts:28-52 | the ownership check passes if and only if, since the stamp, nothing began in any tab, the tab itself observed no other session, and token and id are those stamped |
| `SessionSignOut.NewerSignInsAreSparedIff` | packages/web/src/auth.ts:114-128 | the sign-out of a 401 takes the epoch, token and id of no sign-in begun after its check, if and only if no such sign-in is the last to write what one of its three writes then overwrites or removes |
| `SessionSignOut.TakenIsGone` | packages/web/src/auth.ts:123-128 | what is taken of a sign-in was stored and is not afterwards, and a newer sign-in it is taken from is another tab's |
| `SessionSignOut.SignOutRunsOn` | packages/web/src/auth.ts:204-209 | between the check of a 401 and the last write of its sign-out the tab makes those three writes and nothing else |
| `SessionSignOut.SignOutEndsStamps` | packages/web/src/auth.ts:45-52 | a stamp current in another tab is ended by the new epoch always, and by each removal exactly when there was something to remove |
| `SessionSignOut.UnauthorizedEndsItsOwnSession` | packages/web/src/auth.ts:191-209 | the epoch overwritten is the stamped one exactly while nothing began since the check; where no other tab wrote the token or the id, those removed are the stamped ones |
| `SessionSignOut.OtherwiseTheLastWriteDecides` | packages/web/src/auth.ts:123-128 | where another tab wrote or removed a token in between, the removal finds what its last token write left, a token or none |
| `SessionSignOut.NewerSessionCanBeEnded` | packages/web/src/auth.ts:116-128 | a run in which a tab signs in right after the check of an old 401, and has its epoch, token and id taken |
| `SessionSignOut.LaterSessionCanBeEnded` | packages/web/src/auth.ts:123-128 | a run in which a tab signs in after the old token is gone, and the last write takes its id from under a request in flight |
| `Session.RevisionsMoveOn` | packages/web/src/auth.ts:104-128 | the revision of a tab never falls, and stands still exactly while the tab neither signs in or out nor observes a change |
| `Session.ShellSignsOutForItsOwn401` | packages/web/src/auth.ts:130-182 | the shell acts on a 401 only while nothing happened in its tab since the sign-out that 401 began, and no token is stored |
| `SessionTab.AuthModule.TakeStamp` | packages/web/src/auth.ts:28-84 | a token without an id gets one before it is stamped; the stamp is the current session's |
| `SessionTab.AuthModule.SetToken` | packages/web/src/auth.ts:116-121 | writes epoch, id and token, moves the revision on, and no stamp drawn before is the session's any more, in any tab |
| `SessionTab.AuthModule.ClearToken` | packages/web/src/auth.ts:123-128 | removes token and id under a new epoch, with the same effect on stamps |
| `SessionTab.SetTokenIsThreeEvents` | packages/web/src/auth.ts:116-121 | the writes of a sign-in are the three events of the interleaving model |
| `SessionTab.ClearTokenIsThreeEvents` | packages/web/src/auth.ts:123-128 | and those of a sign-out |
| `SessionTab.AuthModule.EndObservedSession` | packages/web/src/auth.ts:104-114 | ends this tab's stamps and leaves the shared storage alone |
| `JournalSafety.StepIsSafe` | packages/server/src/bank/bank-statement.service.ts:196-420 | every operation keeps the tables consistent, the facts of each row, and each row with financial references |
| `JournalSafety.RunIsSafe` | packages/server/src/bank/bank-statement.service.ts:619-718 | so does every run of imports, deletions, repairs, resolutions, dispositions and matches |
| `JournalSafety.FinancialRowsSurvive` | packages/server/src/bank/bank-transaction.repository.ts:333-384 | at no point of any run does a row disappear that is disposed of, matched, claimed by a settlement or the funding of an advance |
| `JournalSafety.RemovedIdsResolve` | packages/server/src/bank/bank-transaction.repository.ts:141-154 | an id a repair removed resolves to a live row after any further run |
| `JournalEvidence.EvidenceAgrees` | packages/server/src/bank/bank-statement.service.ts:743-781 | after any run, repairs included, every provenance row with facts states the amount and the currency of its canonical row, and every conflict the difference its kind names; after any run without repairs also the other material facts, with a date in common |
| `JournalEvidence.ConflictIff` | packages/server/src/bank/bank-statement.service.ts:743-781 | two rows of one identity agree exactly when amount, currency, source amount and currency, rate, fee and IBAN are equal and a date is shared; otherwise the kind names the amount first, then the currency, then anything else |
| `JournalEvidence.MergeAgrees` | packages/server/src/admin/bank-duplicate-repair.service.ts:371-383 | a merge of rows of one account with the same money keeps every statement about money true |
| `JournalEvidence.OverlapIff` | packages/server/src/bank/bank-statement.service.ts:352-417 | a new row without an identity is put up for review if and only if another statement holds a row of the account with its date, amount and currency, and the conflict names such a row |
| `JournalEvidence.DetachedIff` | packages/server/src/bank/bank-statement.service.ts:653-700 | deleting a statement removes a row if and only if that statement is its only source and nothing financial, no other or resolved conflict and no repair refers to it |
| `JournalEvidence.MergedIff` | packages/server/src/admin/bank-duplicate-repair.service.ts:278-436 | a repair is carried out if and only if both rows exist, have the same money and account, the bank identified at most one, both previews still show them, and nothing financial and no repair refers to the duplicate |
| `JournalRepair.MergeMovesTheEvidence` | packages/server/src/admin/bank-duplicate-repair.service.ts:479-507 | a merge moves every source and conflict of the duplicate to the survivor and changes nothing else about them |
| `JournalRepair.RepairConservesSources` | packages/server/src/admin/bank-duplicate-repair.service.ts:278-536 | the number of provenance rows and of conflicts is conserved, and the report counts exactly what moved |
| `JournalRepair.RepeatedRepairChangesNothing` | packages/server/src/admin/bank-duplicate-repair.service.ts:307-365 | repeating a repair after any run changes nothing and reports the recorded repair |
| `JournalRepair.SurvivorsAreNeverMerged` | packages/server/src/database/migrations/087_canonical_bank_journal.ts:282-312 | a row that was ever a survivor is refused as a duplicate in every later state |
| `JournalRoundTrip.ImportThenDelete` | packages/server/src/bank/bank-statement.service.ts:134-420 | importing and then deleting restores rows, provenance and conflicts if and only if every row is undoable on its own |
| `JournalRoundTrip.ImportThenDeleteOpenRows` | packages/server/src/bank/bank-statement.service.ts:619-718 | in particular when existing rows have sources and incoming rows are open, for any mix of new, known, conflicting and ambiguous rows |
| `JournalReplay.ImportAccountsForEveryRow` | packages/server/src/bank/bank-statement.service.ts:196-417 | new + known + same-identity conflicts = rows, provenance rows = new + known, and the reported ids are the ones in the tables |
| `JournalReplay.ReplayIsTruthful` | packages/server/src/bank/bank-statement.service.ts:428-466 | equal content changes no table and is reported as first new + first known with the same open conflicts |
| `JournalReplay.OrderDoesNotMatter` | packages/server/src/bank/bank-statement.service.ts:497-551 | the hashed form of a structured statement is independent of the order of its rows |
| `JournalReplay.StructuredReplay` | packages/server/src/bank/bank-statement.service.ts:497-551 | the same rows reordered replay; a row more or fewer is another statement |
| `JournalReplay.ReplayEvidence` | packages/server/src/bank/bank-statement.service.ts:102-131 | a replay is claimed on a fingerprint, which with the account decides alone, or on the rows where there is no archive; never for an archive without a fingerprint |
| `JournalReplay.ChangedRowIsAnotherSource` | packages/server/src/bank/bank-statement.service.ts:497-551 | a structured statement with one row changed replays if and only if its external id, facts and status are unchanged |
| `JournalOrder.ImportOrderDoesNotMatter` | packages/server/src/bank/bank-statement.service.ts:196-348 | statements of distinct contents that agree on shared identities give the same facts per identity and the same multiset of rows without one, in any order |
| `JournalOrder.IdentitiesAreUnique` | packages/server/src/bank/bank-transaction.repository.ts:120-134 | no two canonical rows share a full identity |
| `BankJournal.Journal.CreateStatement` | packages/server/src/bank/bank-statement.service.ts:74-489 | refuses an unknown or non-bank account, recognises equal content, or imports exactly as specified with a summary that tallies; what provenance and conflicts say stays true |
| `BankJournal.Journal.AllRows` | packages/server/src/bank/bank-statement.service.ts:196-417 | the loop over the rows of a statement |
| `BankJournal.Journal.OneRow` | packages/server/src/bank/bank-statement.service.ts:196-417 | one row: known, conflicting, or new |
| `BankJournal.Journal.KnownRow` | packages/server/src/bank/bank-statement.service.ts:208-294 | a row of a known identity adds a source if and only if it agrees with the canonical row in money, settlement facts and a date; otherwise it adds an open conflict whose kind names the first difference, and no source |
| `BankJournal.Journal.NewRow` | packages/server/src/bank/bank-statement.service.ts:297-417 | a new row adds a movement and its source, and an ambiguity when a twin was imported elsewhere |
| `BankJournal.Journal.InsertCanonical` | packages/server/src/bank/bank-transaction.repository.ts:42-83 | adds a row and its identity |
| `BankJournal.Journal.InsertSource` | packages/server/src/bank/bank-transaction.repository.ts:90-113 | adds a provenance row |
| `BankJournal.Journal.FindById` | packages/server/src/bank/bank-transaction.repository.ts:141-154 | finds a row by its own id or by the id of a merged duplicate |
| `BankJournal.Journal.DeleteStatement` | packages/server/src/bank/bank-statement.service.ts:619-718 | removes the sources and open conflicts of the statement and exactly the movements that nothing else keeps, and reports what it retained |
| `BankJournal.Journal.DetachMovements` | packages/server/src/bank/bank-statement.service.ts:653-700 | settles the movements one by one, with the same outcome in whatever order |
| `BankJournal.Journal.ResolveConflict` | packages/server/src/bank/bank-statement.service.ts:577-603 | closes that conflict and leaves every other as it is; unknown conflicts are refused |
| `BankJournal.Journal.MergeDuplicate` | packages/server/src/admin/bank-duplicate-repair.service.ts:278-536 | merges exactly what may be merged, so that the duplicate is gone, resolves to the survivor and leaves it its evidence; or reports the earlier merge, or refuses, and then changes nothing |
| `Fingerprint.SameForm` | packages/server/src/bank/apply-rules.ts:91-120 | two exports have one form exactly when they have the same names and the same normalised rows, as often each |
| `Fingerprint.SameSource` | packages/server/src/bank/apply-rules.ts:91-120 | for rectangular tables with distinct names: the same names and the same rows read by name, in any column and row order |
| `Fingerprint.NamesAreSorted` | packages/server/src/bank/apply-rules.ts:104-108 | the names in column order are the header, sorted |
| `Json.StringifyIsInjective` | packages/server/src/bank/apply-rules.ts:109-119 | two arrays of strings with one JSON text are the same array |
| `Sorting.SortIsCanonical` | packages/server/src/bank/apply-rules.ts:104-111 | sorting identifies exactly the permutations of one multiset |
| `Ledger.TrialBalance` | packages/server/src/ledger/account/ledger-balance.service.ts:140-212 | over balanced vouchers all accounts together come to zero |
| `Ledger.KindsAreAll` | packages/server/src/ledger/account/ledger-balance.service.ts:15-87 | every line is counted in exactly one account type |
| `AnnualProofs.BalanceSheetBalances` | packages/server/src/annual-accounts/annual-accounts.service.ts:583-775 | for every ledger of balanced vouchers, recognised transfers and virtual charge, assets are liabilities plus the three equity lines |
| `AnnualProofs.NetIncomeIsTrading` | packages/server/src/annual-accounts/annual-accounts.service.ts:583-745 | net income is what the window traded without its transfers, less the virtual depreciation |
| `AnnualProofs.WindowSplits` | packages/server/src/annual-accounts/annual-accounts.service.ts:1204-1252 | up to the end is before the start plus the transfers plus the trading of the window |
| `AnnualProofs.ClosingTransferChangesNothing` | packages/server/src/annual-accounts/annual-accounts.service.ts:1058-1219 | one more recognised transfer, or reversal of one, changes no net income, no brought-forward figure and no row of the income statement |
| `AnnualReport.RecognisedIff` | packages/server/src/annual-accounts/annual-accounts.service.ts:1058-1171 | a posted voucher up to the horizon is a transfer exactly when it touches result accounts and retained earnings, both and nothing else, and is marked or reverses a marked one that is a transfer itself |
| `AnnualBooks.TransferLeavesTheReport` | packages/server/src/annual-accounts/annual-accounts.service.ts:533-825 | the same for the whole assembly with the depreciation it computes itself |
| `AnnualBooks.CloseIsFinal` | packages/server/src/annual-accounts/annual-accounts.service.ts:335-438 | in a year that is not blocked, the report after the close is the draft before it, with nothing left to post and the year still not blocked |
| `AnnualBooks.ClosingAgainPostsNothing` | packages/server/src/annual-accounts/annual-accounts.service.ts:335-438 | closing again, under any id, leaves the books as they are |
| `AnnualBooks.EachAssetIsCharged` | packages/server/src/annual-accounts/annual-accounts.service.ts:986-1042 | after the close the year carries for each asset its own charge, or what it carried before where that was more; nothing is added to a retired one |
| `AnnualBooks.UnattributedMovementBlocks` | packages/server/src/annual-accounts/annual-accounts.service.ts:899-959 | a new voucher with nothing attributed to it blocks the year exactly when it is posted in it and moves a class; empty books block nothing |
| `AnnualBooks.EarlierOpenIff` | packages/server/src/annual-accounts/annual-accounts.service.ts:293-305 | on a calendar without overlaps an open period starts earlier if and only if one that ended before is not locked |
| `AnnualBooks.FinalizingKeepsTheOrder` | packages/server/src/annual-accounts/annual-accounts.service.ts:293-305 | finalizing keeps the locked periods of each timeline an initial stretch of it |
| `AnnualBooks.OpeningLastKeepsTheOrder` | packages/server/src/reporting-periods/reporting-periods.service.ts:145-192 | so does a new period that comes after the others of its timeline |
| `AnnualClose.OverchargeIsNotShared` | packages/server/src/annual-accounts/annual-accounts.service.ts:986-1042 | an asset contributes its own remainder, never negative, to its own class; an over-charged or retired one contributes nothing and takes nothing |
| `AnnualClose.NothingIsUnattributed` | packages/server/src/annual-accounts/annual-accounts.service.ts:899-959 | in a year that is not blocked nothing is netted at class level |
| `AnnualFinality.NothingIsLeft` | packages/server/src/annual-accounts/annual-accounts.service.ts:986-1042 | after the voucher and the attribution rows of the close, no asset and no class has a charge |
| `AnnualFinality.BookedReportIsTheDraft` | packages/server/src/annual-accounts/annual-accounts.service.ts:711-734 | booked or folded in virtually, the charge gives one and the same report |
| `AnnualAssembly.LoadClosingTransfers` | packages/server/src/annual-accounts/annual-accounts.service.ts:1058-1171 | the two-pass loop finds exactly the recognised transfers and the reversals of them |
| `AnnualAssembly.RemoveClosingTransferFlows` | packages/server/src/annual-accounts/annual-accounts.service.ts:1182-1196 | takes from each row, in place, exactly the legs of the transfers of the window |
| `AnnualAssembly.ClosingTransferResult` | packages/server/src/annual-accounts/annual-accounts.service.ts:1204-1219 | the loop over the loaded transfers of a window sums the result their legs carry |
| `AnnualAssembly.LoadedCarry` | packages/server/src/annual-accounts/annual-accounts.service.ts:1204-1219 | which is the result of the recognised vouchers of the window |
| `AnnualAssembly.TakenIsCarried` | packages/server/src/annual-accounts/annual-accounts.service.ts:1182-1219 | what is taken off all the rows is what is added to the brought-forward line |
| `AnnualAssembly.BringForward` | packages/server/src/annual-accounts/annual-accounts.service.ts:759-775 | accumulated equity, earlier results and the carried transfers make the specified line |
| `AnnualAssembly.AddToBalance` | packages/server/src/annual-accounts/annual-accounts.service.ts:1255-1267 | adds to the row of the account, or appends one |
| `AnnualAssembly.SumNetIncome` | packages/server/src/annual-accounts/annual-accounts.service.ts:1270-1281 | revenue less expenses of a column |
| `AnnualAssembly.GrossLessTransfers` | packages/server/src/annual-accounts/annual-accounts.service.ts:583-640 | the gross flow less the removed legs is the flow of the vouchers that are no transfers |
| `AnnualAssembly.AssembleReport` | packages/server/src/annual-accounts/annual-accounts.service.ts:533-825 | the step-by-step assembly computes the specified report, which balances |
| `AnnualBooks.UnpostedCharges` | packages/server/src/annual-accounts/annual-accounts.service.ts:986-1013 | the loops compute the remainder per asset and the charge per class |
| `AnnualBooks.FindPrior` | packages/server/src/annual-accounts/annual-accounts.service.ts:560-573 | the comparative period is the latest of the same timeline that ended before |
| `AnnualBooks.AnnualAccounts.OpenPeriod` | packages/server/src/reporting-periods/reporting-periods.service.ts:145-192 | adds a period if and only if it does not end before it starts and lies wholly before or after each one of its timeline |
| `AnnualBooks.AnnualAccounts.Draft` | packages/server/src/annual-accounts/annual-accounts.service.ts:211-221 | the draft of a known period is the report with the unposted charge folded in, and balances |
| `AnnualBooks.AnnualAccounts.Finalize` | packages/server/src/annual-accounts/annual-accounts.service.ts:257-488 | does not refuse if and only if the period is known and open, every period of its timeline that ended before it is locked, the renderer accepts and the year is attributed; a refusal changes nothing; otherwise it posts, reports the draft, and locks that period alone; a failed lock leaves the charge posted and the period open |
| `Approvals.PostedAtMostOnce` | packages/server/src/approvals/approvals.service.ts:151-301 | in every interleaving of reads and transactions, no object ever has two vouchers |
| `Approvals.ApprovedMeansPosted` | packages/server/src/approvals/approvals.service.ts:584-678 | an approved approval names a posted object with its voucher, and is the only approved one for it |
| `Approvals.StepKeeps` | packages/server/src/approvals/approvals.service.ts:76-452 | every step keeps the tables consistent and whatever is posted, with its voucher |
| `Approvals.VerdictChangesExactlyWhen` | packages/server/src/approvals/approvals.service.ts:338-452 | a given verdict can still be overwritten if and only if a stated condition on the approval, its object and the calls in flight holds |
| `Approvals.FinalForEver` | packages/server/src/approvals/approvals.service.ts:338-452 | and where it does not hold the approval keeps its verdict for ever |
| `Approvals.RejectedIsNotFinal` | packages/server/src/approvals/approvals.service.ts:338-407 | a concrete run in which a rejected approval is approved after all, and its object posted |
| `ApprovalService.ApprovalTables.CreateApproval` | packages/server/src/approvals/approvals.service.ts:76-141 | holds an object if and only if it is a draft for which no approval is awaited, and changes nothing but its status and the new approval |
| `ApprovalService.ApprovalTables.ApproveApproval` | packages/server/src/approvals/approvals.service.ts:151-301 | posts if and only if the approval is awaited, its object waits for it and a voucher can be made: object, voucher, reference and verdict, and nothing else; approving again reports the voucher there is |
| `ApprovalService.ApprovalTables.RejectApproval` | packages/server/src/approvals/approvals.service.ts:338-407 | returns the waiting object of an awaited approval to draft and rules on the approval, and only then |
| `ApprovalService.ApprovalTables.ApproveBatch` | packages/server/src/approvals/approvals.service.ts:310-331 | of the listed approvals that can be posted at entry the first of each object is posted and approved, and no other object or approval changes; each row reports its approval as unknown, as approved with its voucher, or as neither, and every new voucher is reported |
| `ApprovalService.AloneItIsPosted` | packages/server/src/approvals/approvals.service.ts:310-331 | what can be posted at entry, with no earlier listed approval of its object, is reported as approved with the voucher the object then has |
| `ApprovalService.NewVoucherIsReported` | packages/server/src/approvals/approvals.service.ts:310-331 | every voucher a batch adds belongs to a row it reports as approved |
| `ApprovalService.ApprovalTables.Claim` | packages/server/src/ledger/status/status-transition.service.ts:122-196 | moves an object only along a legal edge and only from the expected status |
| `AllowanceCaps.WindowsAgree` | packages/server/src/allowances/health-limit.ts:23-50 | a date is within the bounds of a window exactly when it has the window's key |
| `AllowanceCaps.UsedIsTheWindow` | packages/server/src/allowances/allowance-limit.service.ts:266-285 | the usage query reads exactly the booked claims of the claimant in the window |
| `AllowanceCaps.ExemptionIsExact` | packages/server/src/allowances/allowance-limit.service.ts:172-309 | after any run the booked exemption of a window is the cap or the eligible booked total, whichever is less |
| `AllowanceCaps.HighRateDaysStayInQuota` | packages/server/src/allowances/allowance-limit.service.ts:392-445 | after any run the posted high-rate days of a claimant in a month are within the quota |
| `AllowanceCaps.QuotaIsUsedToTheFull` | packages/server/src/allowances/allowance-limit.service.ts:392-445 | with a constant quota, after any run whose steps meet the next condition, the posted high-rate days of a month are the quota or the posted days, whichever is less |
| `AllowanceCaps.FullUseIsKeptIff` | packages/server/src/allowances/allowance-limit.service.ts:392-445 | a step keeps that if and only if an approved claim loses nothing to other claims in triage, and a claim taken out again leaves the rest as many high-rate days as the quota allows it |
| `AllowanceCaps.WaitingClaimsCostDays` | packages/server/src/allowances/allowance-limit.service.ts:405-420 | a run in which two claims of ten days wait for a quota of fifteen, and only ten of the twenty posted days are at the high rate |
| `AllowanceCaps.AccumulatedIsTaken` | packages/server/src/allowances/allowance-limit.service.ts:405-415 | the days counted against the quota are those of the other claims of the claimant in triage or posted |
| `AllowanceCaps.NoSplitPaysMore` | packages/server/src/allowances/allowance-limit.service.ts:419-427 | no breakdown of the same months and days that keeps to what is left of the quotas is worth more |
| `AllowanceCaps.HealthSplitIs` | packages/server/src/allowances/allowance-limit.service.ts:172-309 | where there are rules, a health claim is refused exactly when the books are not kept in euro or it ends in another window; what is exempt is nothing, all of it, or what the other booked claims of the window leave of the cap |
| `AllowanceCaps.MonthsAreTheSplit` | packages/server/src/allowances/allowance-limit.service.ts:370-395 | the months allocated, and the days of each, are those of the calendar split of the range |
| `AllowanceCaps.ComputeDailyAllowanceSplit` | packages/server/src/allowances/allowance-limit.service.ts:345-453 | splits the range and scales the days when another number is claimed; in each month either every day is at the high rate or the days taken and these reach the quota, which they do not exceed; no other breakdown within the quotas is worth more than the total |
| `AllowanceCaps.AllowanceTable.CreateAllowance` | packages/server/src/allowances/allowance.service.ts:56-182 | adds a draft with a preview of its split, which reserves nothing, if and only if its dates are on the calendar and it is not refused |
| `AllowanceCaps.AllowanceTable.SubmitAllowance` | packages/server/src/allowances/allowance.service.ts:213-303 | moves a draft, and only a draft, to triage, with an approval to await; exactly the claims in triage have one |
| `AllowanceCaps.AllowanceTable.ApproveAllowance` | packages/server/src/approvals/approvals.service.ts:584-759 | posts a claim, with the split the rules give it among the others, if and only if it is in triage, can be derived and is not refused; no other claim changes, and its approval is settled |
| `AllowanceCaps.AllowanceTable.RejectAllowance` | packages/server/src/approvals/approvals.service.ts:338-407 | returns a claim in triage to draft and settles its approval |
| `Intake.OnePurchasePerDocument` | packages/server/src/ai/intake-workflow.service.ts:544-1038 | whatever the commands, models, pipeline and people do, a document has at most one expense and at most one voucher, and the voucher is that expense's |
| `Intake.PostedIsFinal` | packages/server/src/ai/propose-draft.service.ts:1233-1279 | whatever runs after a purchase is posted, its chain stays as it is |
| `Intake.CommandStepsSpareProtected` | packages/server/src/ai/propose-draft.service.ts:466-560 | in any run, a command step taken while the chain is protected changes it if and only if it takes back the row it had looked up |
| `Intake.LaterCommandsChangeNothing` | packages/server/src/ai/propose-draft.service.ts:549-560 | commands that look the chain up while it is protected create, edit and post nothing as long as it stays protected, whatever is approved, rejected, edited or posted in between |
| `Intake.ProtectedChangesExactlyWhen` | packages/server/src/ai/propose-draft.service.ts:466-548 | a command step changes a protected chain if and only if it resumes a row it looked up as a draft |
| `Intake.ProtectedLookupEnds` | packages/server/src/ai/propose-draft.service.ts:466-560 | a command that meets a protected chain at its lookup ends there |
| `Intake.TakingBackIsReached` | packages/server/src/expenses/expenses.service.ts:2181-2410 | a run in which a row held for approval is taken back by a command that had looked it up before |
| `Intake.OnlyJunkIsTaken` | packages/server/src/ai/propose-draft.service.ts:693-753 | in any run a row leaves a chain if and only if a retry reaches its withdrawal and the row is an unawaited draft of the model without a voucher and without a valid gross |
| `Intake.UninterruptedIsProposed` | packages/server/src/ai/propose-draft.service.ts:389-662 | the stages of a command, when nothing comes between them, do what the one call does |
| `Intake.DocumentChain.WithdrawInvalidPurchaseDrafts` | packages/server/src/ai/propose-draft.service.ts:693-753 | keeps, as they are, exactly the rows that are protected, awaited, not made by the model, or have a valid gross |
| `Intake.DocumentChain.ProposeDraft` | packages/server/src/ai/propose-draft.service.ts:389-662 | what its checks refuse touches nothing; otherwise a kept protected row ends it, a kept draft is resumed under its id and no row is made, and only where none is kept a row is made; the row and the voucher are then as the pipeline decided |
| `Intake.DocumentChain.Propose` | packages/server/src/ai/propose-draft.service.ts:996-1055 | the part from the lookup on, shared with the manual classification: ended, resumed or made as the rows of the chain say |
| `Intake.DocumentChain.RunPipeline` | packages/server/src/ledger/pipeline/posting-pipeline.service.ts:194-371 | posts or holds if and only if the pipeline decided so and the row is a draft; posting gives it the next voucher, holding an approval to await |
| `Intake.DocumentChain.UpdateDraft` | packages/server/src/expenses/expenses.service.ts:2181-2410 | edits a draft, or a pending row without a voucher whose approval is then superseded, and nothing else |
| `Pass2.Classify` | packages/server/src/ai/pass2-agent.service.ts:174-472 | gate, evidence, lookup and classification as specified, in at most one plus two plus three generations |
| `Pass2.ExtractEvidence` | packages/server/src/ai/pass2-agent.service.ts:212-267 | at most two attempts at evidence, keeping the last failure |
| `Pass2.DecideClassification` | packages/server/src/ai/pass2-agent.service.ts:309-472 | at most three attempts at a classification |
| `Pass2.DecidedIsAnAnswer` | packages/server/src/ai/pass2-agent.service.ts:314-460 | what is handed on is one of the first three answers, edited as one answer is |
| `Pass2.AcceptedComesFromEvidence` | packages/server/src/ai/pass2-agent.service.ts:174-472 | for all answers, an accepted purchase has the looked-up entity, a new supplier agreeing with the evidence, or none; no document means no amounts and no proposals |
| `Pass2.SucceedsIff` | packages/server/src/ai/pass2-agent.service.ts:174-472 | sound and complete: a pass succeeds with a result if and only if the gate rejected the file and the result is empty, or evidence, country and lookup are there and the result is the first acceptable answer, handed on, with nothing before it that ends the pass |
| `Pass2.AcceptIff` | packages/server/src/ai/pass2-agent.service.ts:371-460 | an answer is handed on if and only if it is no purchase, or there is purchase evidence and what it says of the supplier contradicts neither the lookup nor the evidence |
| `Pass2.NamedIdsDoNotMatter` | packages/server/src/ai/pass2-agent.service.ts:371-460 | changing every entity id the model names changes no accepted purchase, no rejected file and no failure |

## Left out

General

- Controllers, command lines, screens, logging, audit events and the wording of findings.
- Recovery from lost races on unique indexes: with transactions as single steps those branches
  cannot be reached.
- Corrections and reversals of posted objects through the correction path, foreign-exchange
  rates and realised exchange differences.

By component

- Bank journal: CSV parsing; external ids are taken as already trimmed and non-empty, which is what
  the rules deliver. The lookup of `bank-statement.service.ts:198` trims and the insert of
  `bank-transaction.repository.ts:61` does not.
- Bank journal: the grouped view of a statement, the preview of duplicates, reconciliation matches
  in other states than draft or active, and the text that tags weak conflicts.
- Fingerprint: JSON text is modelled for strings of single-byte characters.
- Annual accounts: the depreciation engine (a charge per asset is given), the rendering of the
  report (whether the renderer accepts it is a parameter), the soft warnings, and VAT locks.
- Annual accounts: which vouchers are marked as closing transfers or depreciation is a property of
  the voucher, not a text search; reversals that attribute depreciation implicitly are rows of the
  attribution table in force.
- Annual accounts: what a VAT period freezes when it is locked; whether the lock fails is a
  parameter. Deleting a period.
- Annual accounts: the order of the per-class lines of the closing voucher is the order of the
  classes.
- Approvals: approving a reconciliation match, and the findings an approval resolves.
- Allowances: the tax on the taxable part, and the check that a claim's
  year is the year of its start; the rates are those of that year. Amounts are not negative.
  Marking a claim rejected or cancelled later is a step of its own.
- Allowances: how the days of a month are rounded, in floating point, when the number of days
  claimed is not the length of the range: any rounding is allowed, and the quota holds for it.
- Allowances: mileage and fixed-amount claims, trips, and the guard against a second claim for a
  trip.
- Intake: the sales-invoice and bank-statement branches, which make records of their own; deleting
  drafts and attaching documents by hand; chains with several expenses from before the rule.
- Intake: reading text off the page and supplier resolution are answers, not computations.
- Second pass: white space is the space, and upper case is that of ASCII.
- Month split: dates that are not on the calendar. `Date.UTC` reads the years 0 to 99 as 1900 to
  1999, which the parsing does; the allowances work on parsed dates.
- Sessions: a run of storage reads without a write between them is one step; the network and the
  bodies of responses are abstract.
