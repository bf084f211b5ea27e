# Verification model of the WLAN host driver's core

This project models four components of the driver and proves properties of the model with Dafny.
`dafny verify dfyconfig.toml` checks all of it.

**Concurrency policy manager** (`core/cds/src/cds_concurrency.c`). An array of three slots holds the live
connections. It is edited in place: entries are appended, deleted by shifting the later ones down, taken out and put
back around a query, and given new MAC numbers. On top of it the manager decides whether a new connection may come
up, which channels it should prefer and with which weights, and when the radio has to switch between one MAC and two
(DBS).

| file | content |
|---|---|
| `wrappers.dfy`, `conn_types.dfy` | modes, connection entries, platform facts, band predicates, counting |
| `pcl_tables.dfy`, `pcl_table_data.dfy` | the constant tables as functions of the row; the tables row by row, and that they are the same |
| `admission.dfy`, `admission_rules.dfy` | when a new connection may come up, over the sequence of current ones; the reasons for a refusal |
| `conn_table_spec.dfy`, `conn_table.dfy` | the table as a sequence, and the array that implements it |
| `conn_runs.dfy` | runs of connect, disconnect, MAC change, park-and-restore and roam; mode combinations over every run |
| `conn_channels.dfy` | channel rules over every run, and what a roam has to respect |
| `conn_bands.dfy` | channels of one band on one MAC of DBS hardware, over every run |
| `conn_windows.dfy` | connections that come up inside the delete and restore window; inputs that break the rules |
| `conn_window_steps.dfy` | disconnects, MAC changes and roams inside that window |
| `sequences.dfy`, `pcl_spec.dfy`, `pcl_builder.dfy`, `pcl_query.dfy` | the preferred channel list: composition, list building, query |
| `pcl_cases.dfy` | which table entry is read, and the list of each PCL type in channels and weights |
| `conn_admission.dfy` | the admission decision over the slots, and the channel weights that use it |
| `hw_mode.dfy` | hardware mode decisions and the requests they send |

**BMI transfer engine** (`core/bmi/src/bmi.c`, `bmi_1.c`): memory reads and writes, execute, done and the compressed
download, chunk by chunk through one command buffer. `bytes.dfy` and `bmi_wire.dfy` have the byte format, the target's
parser and its memory; `bmi.dfy` has the engine. What reaches the target is what its parser makes of the bytes sent.

**Register and core dump** (`core/bmi/src/ol_fw.c`, `i_ar6320v2_regtable.h`): `reg_tables.dfy` holds the two range
tables, `reg_dump.dfy` the limited reads, the register dump and the core dump.

**Message pool** (`core/cds/src/cds_api.c`, `cds_mq.c`, `cds_sched.c`): `msg_order.dfy` is the order on one work
queue over every run, `msg_pool_spec.dfy` says where each wrapper is, move by move, and `msg_queue.dfy` has the
queues and the pool.

Answers from outside (WMA, SME, regulatory state, the target, allocation) are parameters. Where they may fail, an
oracle says which exchange, read or request succeeds, so a statement holds for every pattern of failures. Each locked
region is one atomic step. A class keeps a ghost sequence or history beside its real fields; `Valid()` ties the two
together and every method says what it does to the ghost value, about which the lemmas speak.

Six behaviours of the code differ from what one might expect. They are modelled as they are, each with an input and
with the exact condition under which the rules survive:

- Refreshing a live connection after roaming is not admitted. The rules about modes survive it. The rules about
  channels survive exactly when the new channel passes the channel tests of admission against the other connections
  (`ConnChannels.RefreshKeepsPairs`, `RefreshKeepsHomeChannels`), and over a whole run exactly when every roam does
  (`ConnChannels.RunKeepsPairs`, `AtMostTwoHomeChannels`); `ConnWindows.RoamEscapesDfsRule` is a run where one does
  not.
- A connection may come up while another one is temporarily out of the table. `ConnWindows` says exactly when the
  combinations, the parked entry and the channel rules survive that, for every table and newcomer, with an input on
  which each of them does not: one into STA+SAP+GO, one that loses the parked STA, one that breaks the DFS rule, one
  with three home channels. In runs the park-and-restore pair is one step.
- A disconnect of the parked connection in that window is refused, and the restore puts the dead entry back; a roam of
  it is lost in the same way, and a new MAC map passes it by. `ConnWindowSteps` says for every sequence of such steps
  what the table is, and exactly when it is the one that the steps would have made after the window
  (`WindowIsHarmless`, `OneStepInWindow`).
- Table lookup and preferred hardware mode disagree on some tables with channel 14, no channel, or a channel outside
  both bands; `HwModes.AgreementBesideOne` and `AgreementBesideTwo` say exactly on which.
- The loop that divides the valid channels by band is not bounded by their number. It does what is intended exactly
  on lists that `PclSpec.SplitReady` describes (`PclSpec.SplitIsByBand`, `SplitTakesPadding`).
- The compressed download reports success although its last word was lost when the stream start that closes the
  failed stream succeeds; that is the only such case, and a source of whole words never meets it
  (`Bmi.Session.LossIsHidden`, `LastWordLostUnnoticed`).

## Model

| member | source | states |
|---|---|---|
| ConnRuns.NoForbiddenCombination | core/cds/src/cds_concurrency.c:5628-5818 | in every run: never STA+SAP+GO, STA+SAP+client, two STAs with a client, three of one mode, or an IBSS in a table of three |
| ConnRuns.CombinationReachable | core/cds/src/cds_concurrency.c:467-1838 | for each joining order the tables accept, a run of three connections that ends with these three modes, on DBS and non-DBS hardware and for every system preference |
| Admission.ThirdAdmission | core/cds/src/cds_concurrency.c:5951-6291 | admission of a third connection implies an accepted pair of modes in either order; the table cell that accepts a third IBSS is out of reach |
| PclTableData.FirstTableIsData | core/cds/src/cds_concurrency.c:83-91 | the function for a first connection is the table, cell by cell |
| PclTableData.SecondDbsTableIsData | core/cds/src/cds_concurrency.c:98-275 | second connection, DBS hardware: the entries for throughput, powersave and latency of each cell are those of the table, preference by preference |
| PclTableData.SecondNoDbsTableIsData | core/cds/src/cds_concurrency.c:282-460 | second connection, no DBS hardware: the entries for throughput, powersave and latency of each cell are those of the table, preference by preference |
| PclTableData.ThirdDbsTableIsData | core/cds/src/cds_concurrency.c:467-1147 | third connection, DBS hardware: the entries for throughput, powersave and latency of each cell are those of the table, preference by preference |
| PclTableData.ThirdNoDbsTableIsData | core/cds/src/cds_concurrency.c:1154-1838 | third connection, no DBS hardware: the entries for throughput, powersave and latency of each cell are those of the table, preference by preference |
| PclTableData.NextActionTablesAreData | core/cds/src/cds_concurrency.c:1845-1952 | the next-action functions are the two tables, entry by entry |
| PclCases.TypeBesideOne | core/cds/src/cds_concurrency.c:5340-5356 | beside one connection, preference 1 reads the powersave entry, 2 the latency entry and any other the throughput entry, in the row of mode, channel 1 to 13 or not, and chain |
| PclCases.TypeBesideTwo | core/cds/src/cds_concurrency.c:5358-5378 | the same beside two connections, for the row that pair, sharing and chain describe |
| PclCases.RowIs | core/cds/src/cds_concurrency.c:5951-6291 | two connections have a row exactly if their modes differ and neither is IBSS, and its pair, sharing of channel, band and MAC, and chain are theirs |
| PclCases.TypeBesideOthers | core/cds/src/cds_concurrency.c:5365-5385 | no type exactly beside two connections without a row; none to ask for beside three |
| PclCases.PclIs | core/cds/src/cds_concurrency.c:4973-5155 | for every table, mode, preference, capacity and ascending list that the division gets right: the list is what the type asks for, with weights 255, 235 and 215 and bands up to 14, above 14, 1 to 13 and 36 to 184, less DFS beside a STA, what exceeds the capacity, and unsafe or unaccepted channels |
| PclCases.PclIsAskedFor | core/cds/src/cds_concurrency.c:4973-5155 | with nothing to leave out and enough capacity the list is all of that |
| PclCases.SecondStaPrefers | core/cds/src/cds_concurrency.c:5000-5017 | beside a STA on 36, with 1, 6, 11, 36 and 149 valid, a second STA gets 36 with 255 and then 1, 6 and 11 with 235 |
| PclCases.NoTypeKeepsGiven | core/cds/src/cds_concurrency.c:4884-4888 | when the type is CDS_NONE the given list is left, less what a SAP or GO may not use |
| AdmissionRules.RefusedForAReason | core/cds/src/cds_concurrency.c:5628-5818 | a connection is refused if and only if one of eight reasons applies, each spelled out over the table with the bands as numbers |
| AdmissionRules.ThirdChannelOfBand | core/cds/src/cds_concurrency.c:5510-5521 | on DBS hardware with STA on 1 and SAP on 6, a STA on 11 is admitted if and only if the two use different MACs, and one on 36 always |
| AdmissionRules.IbssBesideSta | core/cds/src/cds_concurrency.c:5711-5794 | on DBS hardware an IBSS is admitted beside a STA, and a STA beside an IBSS, on the same channel or in the other band |
| ConnChannels.IbssStaysIsolated | core/cds/src/cds_concurrency.c:5711-5794 | in every run whose roams meet the guard, a table with an IBSS holds it alone or with one STA, the latter only on DBS hardware, never on two channels of one band, never both on 5 GHz when its channel is DFS |
| ConnChannels.DfsChannelIsShared | core/cds/src/cds_concurrency.c:5443-5473 | in every run whose roams meet the guard, when a SAP or GO is on a DFS channel every other 5 GHz connection is on that channel, whoever came first |
| ConnChannels.OneGoPerBand | core/cds/src/cds_concurrency.c:5796-5812 | in every run whose roams meet the guard no two GOs share a band |
| ConnChannels.AtMostTwoHomeChannels | core/cds/src/cds_concurrency.c:5487-5526 | on hardware without DBS, with all connections on one MAC: no table of the run holds three different channels if and only if every roam passes the home channel test against the others |
| ConnBands.AtMostTwoPerBand | core/cds/src/cds_concurrency.c:5487-5526 | on DBS hardware, over every run and whatever the MACs: no table gives one MAC three different channels of one band if and only if every roam and every new MAC map meets its guard |
| ConnBands.RefreshKeepsBands | core/cds/src/cds_concurrency.c:5510-5521 | a refresh keeps that if and only if the new channel is in use by another, on another MAC, or passes the home channel test of admission |
| ConnBands.MapKeepsBands | core/cds/src/cds_concurrency.c:2305-2344 | a MAC map keeps that if and only if it does not bring three different channels of one band to one MAC |
| ConnBands.MapMergesMacs | core/cds/src/cds_concurrency.c:2305-2344 | STA on 1 and SAP on 6 on two MACs, a STA admitted on 11, and a map to one MAC: three channels of a band on it |
| ConnChannels.AdmissionGivesCompatible | core/cds/src/cds_concurrency.c:5586-5613 | an admitted newcomer and each resident satisfy the IBSS, DFS and GO rules in both directions |
| ConnWindows.RoamEscapesDfsRule | core/cds/src/cds_concurrency.c:4467-4536 | the run SAP on 52, STA on 6, STA to 36, step by step, and that its last table breaks the DFS rule |
| ConnWindows.WindowBreaksCombinations | core/cds/src/cds_concurrency.c:3944-3970 | STA and SAP on 6, a GO on 6 admitted while the STA is parked: the table is SAP, GO, STA |
| ConnWindows.WindowIs | core/cds/src/cds_concurrency.c:2217-2293 | the table after a connection inside the window: the parked entry last, or missing from a full table |
| ConnWindows.WindowIsWellFormed | core/cds/src/cds_concurrency.c:2217-2293 | the window keeps size, use flags and distinct vdev ids |
| ConnWindows.WindowKeepsParked | core/cds/src/cds_concurrency.c:2268-2293 | the parked entry survives if and only if the table was not full, or the session limit of 1 dropped the newcomer instead |
| ConnWindows.WindowLosesParked | core/cds/src/cds_concurrency.c:2268-2293 | STA, SAP, STA on 6, a STA admitted while the first is parked: the parked one is gone |
| ConnWindows.WindowKeepsModes | core/cds/src/cds_concurrency.c:3944-3970 | the combinations survive if and only if, beside two connections, the tables accept the three modes in some order |
| ConnWindows.WindowKeepsPairs | core/cds/src/cds_concurrency.c:3944-3970 | the channel rules survive if and only if the table was full or the newcomer passes the channel tests against the parked entry |
| ConnWindows.WindowKeepsHomeChannels | core/cds/src/cds_concurrency.c:5487-5526 | without DBS at most two home channels survive if and only if, beside two connections, the newcomer passes the home channel test against both |
| ConnWindows.WindowBreaksDfsRule | core/cds/src/cds_concurrency.c:5586-5613 | a STA on 36 admitted while the SAP on DFS channel 52 is parked: the channel rules are broken |
| ConnWindows.WindowBreaksHomeChannels | core/cds/src/cds_concurrency.c:5487-5526 | without DBS, STA on 1 and SAP on 6, a STA on 11 admitted while the first is parked: three home channels |
| ConnWindowSteps.WindowStepsAre | core/cds/src/cds_concurrency.c:2217-2293 | for every table and every sequence of disconnects, MAC changes and roams in the window: the parked entry comes back as it was, the others end up as without the window |
| ConnWindowSteps.WindowIsHarmless | core/cds/src/cds_concurrency.c:2217-2293 | such a sequence ends in the same table as after the window if and only if, taken together, it would have left the parked connection up and as it was |
| ConnWindowSteps.OneStepInWindow | core/cds/src/cds_concurrency.c:4549-4604 | for one step: a disconnect or roam of the parked vdev is refused and the dead or outdated entry comes back; a MAC map makes a difference exactly if it names another MAC for the parked vdev; any other step makes none |
| ConnWindowSteps.ConnectInWindow | core/cds/src/cds_concurrency.c:4387-4454 | a connection in the window ends in the same contents as one after it if and only if both take the newcomer or neither does, which depends on size and session limit |
| ConnWindowSteps.NestedWindow | core/cds/src/cds_concurrency.c:2217-2293 | a second window inside the first keeps the contents; the order is the same if and only if it has nothing to park |
| ConnRuns.RunWellFormed | core/cds/src/cds_concurrency.c:4387-4604 | in every run at most three entries, all in use, with different vdev ids |
| ConnRuns.RunKeepsModes | core/cds/src/cds_concurrency.c:5299-5430 | every table of three reached by a run has the mode counts of one of the nine combinations |
| ConnChannels.RunKeepsPairs | core/cds/src/cds_concurrency.c:5674-5812 | over every run: all tables on the way are free of incompatible pairs if and only if every roam meets the guard against the table it finds |
| ConnChannels.RefreshKeepsPairs | core/cds/src/cds_concurrency.c:4467-4536 | a refresh keeps the channel rules if and only if the new channel passes the DFS, GO and IBSS tests against the other connections |
| ConnChannels.StaRefreshGuard | core/cds/src/cds_concurrency.c:5586-5613 | for a STA two of these tests are left: no SAP or GO on another DFS channel, and the channels of an IBSS |
| ConnChannels.RefreshKeepsHomeChannels | core/cds/src/cds_concurrency.c:5487-5526 | a refresh keeps at most two home channels if and only if it passes the home channel test against the other two |
| ConnWindows.RoamBreaksHomeChannels | core/cds/src/cds_concurrency.c:4467-4536 | without DBS, the run STA on 1, SAP on 6, STA on 6, and its roam to 11: three home channels |
| ConnRuns.OriginsKeep | core/cds/src/cds_concurrency.c:2217-2344 | every step but a connection only drops, rearranges or refreshes entries: each new entry keeps the vdev id and mode of a different old one |
| ConnTableSpec.ParkAndRestoreIsPermutation | core/cds/src/cds_concurrency.c:2217-2293 | delete and restore lose and duplicate nothing exactly when no earlier entry has the parked entry's vdev id |
| ConnTableSpec.ParkAndRestoreMovesToEnd | core/cds/src/cds_concurrency.c:2268-2293 | with different vdev ids the entry moves to the end and the others keep their order |
| ConnTableSpec.ParkThenPutBack | core/cds/src/cds_concurrency.c:3707-3742 | with nothing in between the restore always finds room |
| ConnTableSpec.RemapIs | core/cds/src/cds_concurrency.c:2305-2344 | a vdev-to-MAC map gives each entry the last MAC it names for its vdev and changes nothing else |
| ConnTables.ConnTable.constructor | core/cds/src/cds_concurrency.c:71-72 | an empty table; every slot is zero, field by field |
| ConnTables.ConnTable.ConnectionCount | core/cds/src/cds_concurrency.c:1962-1982 | the full scan counts the entries of the sequence |
| ConnTables.ConnTable.ModeCount | core/cds/src/cds_concurrency.c:2181-2204 | number and ascending positions of the connections of a mode |
| ConnTables.ConnTable.IndexForVdev | core/cds/src/cds_concurrency.c:4263-4283 | the full scan finds the first entry of a vdev, as the early-stopping scans do |
| ConnTables.ConnTable.ScanVdev | core/cds/src/cds_concurrency.c:4562-4576 | the scan that stops at the first free slot finds the first entry of a vdev, or the end |
| ConnTables.ConnTable.ChannelOf | core/cds/src/cds_concurrency.c:5251-5281 | channel of the first entry that matches mode and vdev, or 0 when none does |
| ConnTables.ConnTable.UpdateSlot | core/cds/src/cds_concurrency.c:2132-2168 | one slot is overwritten or appended, the rest is unchanged, an index past the end is dropped |
| ConnTables.ConnTable.Increment | core/cds/src/cds_concurrency.c:4387-4454 | appends the entry for the vdev; fails exactly past the session limit or without vdev information; a full table reports success and keeps nothing; the recorded entry has mode, channel, bandwidth, MAC and id of the vdev, the NSS of the band of its channel (0 if unknown), and is 2x2 on a planned channel exactly if that exceeds 1 |
| ConnTables.ConnTable.UpdateInfo | core/cds/src/cds_concurrency.c:4467-4536 | replaces the entry of a live vdev and no other, or fails and changes nothing; the recorded entry has mode, channel, bandwidth, MAC and id of the vdev, the NSS of the band of its channel (0 if unknown), and is 2x2 on a planned channel exactly if that exceeds 1 |
| ConnTables.ConnTable.Decrement | core/cds/src/cds_concurrency.c:4549-4604 | removes exactly one entry, keeps the order of the rest, zeroes the freed slot; fails exactly for an unknown vdev |
| ConnTables.ConnTable.StoreAndDelete | core/cds/src/cds_concurrency.c:2217-2257 | hands out the first entry of a mode and deletes by its vdev id |
| ConnTables.ConnTable.Restore | core/cds/src/cds_concurrency.c:2268-2293 | appends the stored entry if there is room |
| ConnTables.ConnTable.ParkAndRestoreEntry | core/cds/src/cds_concurrency.c:3707-3742 | the bracket around a query for an existing connection is the park-and-restore of the sequence |
| ConnTables.ConnTable.ApplyMacMap | core/cds/src/cds_concurrency.c:2305-2344 | a vdev-to-MAC map is applied entry by entry to the entries that exist |
| PclSpec.PclIsRanked | core/cds/src/cds_concurrency.c:4851-5167 | channels and weights have one length within the capacity, weights never increase, each channel has the weight of a group that contains it, to the end of the filter chain |
| PclSpec.PclIsFiltered | core/cds/src/cds_concurrency.c:4900-5430 | the list is the plain ranked list with DFS dropped if the mode must, cut to the capacity, without unsafe and unaccepted channels; nothing else is dropped |
| PclSpec.PclChannels | core/cds/src/cds_concurrency.c:5402-5427 | with enough capacity an entry is in the list if and only if it is ranked and not unsafe, DFS beside a STA, disabled for a GO, or outside the mandatory set of a SAP |
| PclSpec.SplitIsByBand | core/cds/src/cds_concurrency.c:4907-4936 | on ascending lists the division is by band if and only if some channel lies above 11 (or the buffer is full), 13 comes with 12 and 14 with 13 |
| PclSpec.SplitTakesPadding | core/cds/src/cds_concurrency.c:4907-4926 | the list [6] in a buffer of two comes out as 6 and a padding zero |
| PclBuilder.ScanGroup | core/cds/src/cds_concurrency.c:4674-4688 | one pass over the table stores the channels of a group and their weight while the capacity lasts, and touches nothing before |
| PclBuilder.ConnectionChannels | core/cds/src/cds_concurrency.c:4626-4753 | both scratch buffers hold as much of the two groups as there is room for, with successive weights |
| PclBuilder.AddChannels | core/cds/src/cds_concurrency.c:4971-4989 | appends channels with one weight up to the capacity to a list held in two parallel buffers |
| PclBuilder.AddConnections | core/cds/src/cds_concurrency.c:5000-5007 | appends the channels of the connections with their weights, by way of a scratch buffer |
| PclBuilder.SplitLow | core/cds/src/cds_concurrency.c:4907-4926 | copies the channels up to the boundary: the run up to 11, then 12, 13 and 14 in turn |
| PclBuilder.SplitRest | core/cds/src/cds_concurrency.c:4927-4936 | the rest of the valid channels, without DFS if asked, in order |
| PclQuery.AvoidUnsafe | core/cds/src/cds_concurrency.c:4768-4833 | both buffers hold the old list without unsafe channels, weights still paired |
| PclQuery.SelectAccepted | core/cds/src/cds_concurrency.c:9062-9075 | the entries the mode accepts, with their weights, in order |
| PclQuery.Restrict | core/cds/src/cds_concurrency.c:5208-5238 | both buffers hold the accepted part of the old list |
| PclQuery.RestrictForMode | core/cds/src/cds_concurrency.c:9034-9084 | fails exactly for a SAP with a mandatory set none of whose channels is 1 to 13; else keeps what the mode accepts |
| PclQuery.GetChannelList | core/cds/src/cds_concurrency.c:4851-5167 | fails exactly for an unclassified type or without valid channels; else the preferred list without unsafe channels; CDS_NONE leaves length and buffers |
| PclQuery.PickPclType | core/cds/src/cds_concurrency.c:5318-5380 | the table of the right order is asked, with the row of the current connections and the preference |
| PclQuery.GetPcl | core/cds/src/cds_concurrency.c:5299-5430 | succeeds if and only if a list is available and then leaves exactly that list in the buffers |
| ConnAdmission.DisallowMcc | core/cds/src/cds_concurrency.c:5443-5473 | true exactly when a connection on the same radio uses another channel |
| ConnAdmission.AllowNewHomeChannel | core/cds/src/cds_concurrency.c:5487-5526 | refuses exactly when two connections use two channels of one MAC and the newcomer adds a third: on DBS hardware with all three on channels 1 to 13 or 36 to 184, without it on any |
| ConnAdmission.Is5gChannelAllowed | core/cds/src/cds_concurrency.c:5586-5613 | refuses exactly a 5 GHz channel beside a connection of the mode on another, DFS channel |
| ConnAdmission.IbssAllowed | core/cds/src/cds_concurrency.c:5711-5794 | the IBSS rules for both arrival orders |
| ConnAdmission.GoAllowed | core/cds/src/cds_concurrency.c:5796-5812 | refuses exactly a GO on a band that has one |
| ConnAdmission.AllowConcurrency | core/cds/src/cds_concurrency.c:5628-5818 | the decision over the slots is the admission predicate over the sequence: refused exactly when one of the eight reasons applies |
| ConnAdmission.WeighValidChannels | core/cds/src/cds_concurrency.c:9149-9215 | each valid channel gets the weight of its first entry in the list, else 1 if a STA exists and the channel is admitted against the table without it, else 0; the table is parked and restored |
| ConnAdmission.ChannelWeightIs | core/cds/src/cds_concurrency.c:9170-9212 | in the list a channel has the weight of its first entry; outside it 1 if there is a STA and the channel is admitted without the first one, else 0 |
| HwModes.TableMeansBothBands | core/cds/src/cds_concurrency.c:1845-1952 | for every classifiable table of one or two connections on one MAC the tables ask for DBS exactly when old and new channels span both bands |
| HwModes.DbsExactlyWhenBandsSpan | core/cds/src/cds_concurrency.c:6350-6430 | requests leave the manager exactly when the hardware is not in DBS and both bands are needed, which is when the preferred mode of the extended table is DBS; all of them belong to the move to DBS |
| HwModes.AgreementBesideOne | core/cds/src/cds_concurrency.c:8494-8574 | beside one connection table and preferred mode agree if and only if both channels or neither is 0 or 14 |
| HwModes.AgreementBesideTwo | core/cds/src/cds_concurrency.c:8494-8574 | beside any two connections, on any channels and MACs, table and preferred mode agree if and only if the channels meet a stated condition on band and plan |
| HwModes.DisagreementOnChannel14 | core/cds/src/cds_concurrency.c:6350-6430 | STA and SAP on channel 14 and a newcomer on 6: a change to DBS is sent although no mode is preferred |
| HwModes.UpgradeOnlyOnOneBand | core/cds/src/cds_concurrency.c:3858-3930 | while each band has its MAC, one MAC is idle exactly when all connections share a band |
| HwModes.PreferredModeIs | core/cds/src/cds_concurrency.c:8494-8574 | an upgrade to a single MAC exactly in DBS with two or more connections all up to 14 or all above; a downgrade to DBS exactly out of DBS with both in use; nothing else |
| HwModes.ActionStatus | core/cds/src/cds_concurrency.c:6600-6686 | an action sends something exactly on DBS hardware in a known mode that it does not find reached; the status is that of the last request sent, or says why none was |
| HwModes.UpdateStatus | core/cds/src/cds_concurrency.c:6350-6430 | for every table, channel, hardware mode and answers: Success if and only if something was sent and the last of it accepted; NoSupport, Already and Failure each exactly under a condition on pair, bands, MACs and hardware mode |
| HwModes.UpdateSends | core/cds/src/cds_concurrency.c:6494-6584 | the mode change alone when the first connection is 1x1; else the updates, and the mode change if there is none or the last is refused |
| HwModes.GosBeforeSaps | core/cds/src/cds_concurrency.c:6529-6578 | the updates are those of the 2x2 GOs in table order, then those of the 2x2 SAPs |
| HwModes.WideVdevIsDowngraded | core/cds/src/cds_concurrency.c:4424-4440 | from the NSS known about a vdev to what is sent for a newcomer in the other band: with NSS 2 in its own band a SAP or GO gets an update to NSS 1 first, any other vdev none |
| HwModes.UpgradeRequests | core/cds/src/cds_concurrency.c:6600-6686 | every request of an upgrade, update or mode change, belongs to the move to a single MAC |
| HwModes.OneChangePerEarlyReport | core/cds/src/cds_concurrency.c:6448-6476 | over any sequence of update reports the change to DBS goes out once for each report about a live vdev that comes before the hardware has moved, and nothing else is sent |
| HwModes.OneChangePerReadableReport | core/cds/src/cds_concurrency.c:6448-6476 | over any sequence of reports of an upgrade the change to a single MAC goes out once for each report about a live vdev at which the mode can be read, and nothing else is sent |
| HwModes.DowngradeChanges | core/cds/src/cds_concurrency.c:6494-6686 | a downgrade and all its callbacks together change to DBS once if there is no update or the last one is refused, and once more for each report about a live vdev before the hardware has moved |
| HwModes.UpgradeChanges | core/cds/src/cds_concurrency.c:6494-6686 | an upgrade and all its callbacks together change to a single MAC once, twice if there is no update or the last one is refused, and once more for each report about a live vdev with a readable mode |
| HwModes.DowngradeRepeatsChange | core/cds/src/cds_concurrency.c:6494-6584 | when the last update is accepted and all are reported before the hardware has moved, the whole action changes the mode once for each 2x2 GO and SAP |
| HwModes.HwModeControl.SendNssUpdates | core/cds/src/cds_concurrency.c:6529-6578 | one update for each 2x2 connection of the mode, in table order; the status is the last answer |
| HwModes.HwModeControl.CompleteAction | core/cds/src/cds_concurrency.c:6494-6584 | the updates for GO and SAP, and the mode change itself only if the last was refused or there was none |
| HwModes.HwModeControl.NextActions | core/cds/src/cds_concurrency.c:6600-6686 | requests and status for every action, hardware mode and pattern of answers; Success exactly if something was sent and the last of it accepted |
| HwModes.HwModeControl.NssUpdateCallback | core/cds/src/cds_concurrency.c:6448-6476 | continues with the next action for a live vdev and does nothing for another |
| HwModes.HwModeControl.CurrentConnectionsUpdate | core/cds/src/cds_concurrency.c:6350-6430 | requests and status are those of the table decision for the new channel; Success exactly if something was sent and the last of it accepted |
| HwModes.HwModeControl.CurrentPreferredMode | core/cds/src/cds_concurrency.c:8494-8574 | DBS exactly when both bands are in use and the hardware is not in DBS, a single MAC in the opposite case |
| HwModes.HwModeControl.NeedOpportunisticUpgrade | core/cds/src/cds_concurrency.c:3858-3930 | a single MAC exactly when DBS leaves one MAC idle, as an upgrade if a connection started with 2x2 |
| BmiWire.DecodeEncode | core/bmi/src/bmi_1.c:73-80 | words survive the wire |
| BmiWire.LowByteFirst | core/bmi/src/bmi_1.c:73-80 | the low byte of a word comes first on the wire |
| BmiWire.ParseThreeWords | core/bmi/src/bmi_1.c:150-159 | the target reads back the read, write and execute commands the engine frames |
| BmiWire.ParseTwoWords | core/bmi/src/bmi.c:367-374 | the target reads back the stream commands the engine frames |
| BmiWire.PokeConcat | core/bmi/src/bmi_1.c:136-168 | consecutive chunks make one write, across the end of the address space too |
| BmiWire.PokeAt | core/bmi/src/bmi_1.c:136-168 | after a write an address holds the byte meant for it or what it held before |
| BmiWire.PeekPoke | core/bmi/src/bmi_1.c:33-103 | reading back returns what was written |
| Bmi.Session.Init | core/bmi/src/bmi.c:33-77 | done is cleared, success exactly when both buffers exist, a buffer that exists is kept, none is leaked |
| Bmi.Session.Free | core/bmi/src/bmi.c:91-106 | only an allocated buffer is freed, so none twice |
| Bmi.Session.Cleanup | core/bmi/src/bmi.c:79-110 | all buffers are freed, done is unchanged |
| Bmi.Session.WriteMemory | core/bmi/src/bmi_1.c:105-173 | refused after done; if every exchange succeeds the target holds the source at the address, rounded up to a multiple of 4, and is otherwise unchanged; success means every exchange succeeded |
| Bmi.Session.ReadMemory | core/bmi/src/bmi_1.c:33-103 | refused after done or without buffers; if every exchange succeeds the buffer holds the target's bytes, the rest of it and the target are unchanged |
| Bmi.Session.Execute | core/bmi/src/bmi_1.c:175-229 | one execute command with address and parameter; on success the parameter becomes what the program returns, else it is unchanged |
| Bmi.Session.DoneLocal | core/bmi/src/bmi_1.c:275-341 | done is set even when the command fails; the buffers are freed exactly on success |
| Bmi.QuietMeansStartBetween | core/bmi/src/bmi_1.c:49-52 | between a done command and any later memory, execute, stream or done command there is a start |
| Bmi.Session.StreamStart | core/bmi/src/bmi.c:458-495 | one stream start unless done |
| Bmi.Session.StreamData | core/bmi/src/bmi.c:336-389 | data commands that fit the command buffer and carry all of the data, or a first part of it up to the exchange that failed |
| Bmi.Session.FastDownload | core/bmi/src/bmi.c:497-531 | one stream start, then chunks; if every exchange succeeds their payload is the source zero padded; the status is that of the last exchange; success with a failed exchange means the last word was lost, and is impossible for a source of whole words |
| Bmi.Session.LossIsHidden | core/bmi/src/bmi.c:517-528 | for every source and pattern of failures: the status is success although an exchange failed if and only if the body went out, the source has a part of a word left, the last word failed and the closing stream start did not |
| Bmi.Session.LastWordLostUnnoticed | core/bmi/src/bmi.c:517-528 | a source of one to three bytes, of whose three exchanges only the second fails: the padded source is lost and the last exchange, hence the status, succeeds |
| Bmi.LastWordCompletes | core/bmi/src/bmi.c:501-515 | whole words and last word make the zero-padded source |
| RegDump.Target.DiagRead | core/bmi/src/ol_fw.c:1397-1432 | limited reads fill the buffer as one read would, in as many reads as chunks of 0x5000 bytes, or the result is -5 (EIO), exactly when a read failed |
| RegDump.Target.ReadChunks | core/bmi/src/ol_fw.c:1409-1421 | the chunk loop covers any count with reads within the limit |
| RegDump.Target.ReadRegisters | core/bmi/src/ol_fw.c:1470-1534 | for any increasing table of the declared size: the image up to the largest boundary that fits, gaps untouched, the declared size exactly when there is room, -EIO exactly without a table or on a failed read |
| RegDump.Target.RegisterAt | core/bmi/src/ol_fw.c:1503-1508 | the register at address a is at offset a minus the first start |
| RegDump.EndsBySize | core/bmi/src/ol_fw.c:1512-1515 | the guard on the declared size is false exactly after the last section, so the entry behind it is never read |
| RegDump.FitIsWhole | core/bmi/src/ol_fw.c:1491-1496 | what fits is the whole range exactly when the room is at least its size |
| RegDump.VersionsDiffer | core/bmi/src/ol_fw.c:1434-1468 | the table of the later versions has the 16 bytes from 0x3A064 more than that of the first, and otherwise the same registers |
| RegDump.Target.ReadRegLoc | core/bmi/src/ol_fw.c:1470-1534 | for each target version: -EIO for an unknown one, 0x7F820 bytes exactly when there is room |
| RegTables.ShippedTablesValid | core/bmi/src/i_ar6320v2_regtable.h:33-604 | both shipped tables are increasing and their declared sizes are last end minus first start |
| RegTables.Apart | core/bmi/src/i_ar6320v2_regtable.h:36-41 | in an increasing table every section ends before every later one starts |
| RegDump.Target.DumpCoreSection | core/bmi/src/ol_fw.c:1631-1667 | each section lands directly behind the one before |
| RegDump.Target.CoreDump | core/bmi/src/ol_fw.c:1609-1682 | ends for every block length; DRAM, AXI and registers in sequence up to the amount read, which is at most the block length; fails exactly on a failed read or when the registers are due and there is no table |
| RegDump.Target.CoreLayout | core/bmi/src/ol_fw.c:1609-1682 | in the block: 0xA8000 bytes from 0x400000, 0x18000 bytes from 0xA0000, then on PCI each register at 0xC0000 plus its distance from the first |
| RegDump.Target.CoreExtent | core/bmi/src/ol_fw.c:1631-1667 | how much is read, in numbers: nothing, DRAM or DRAM and AXI by the block length, then as many registers as fit |
| MsgOrder.PendingIsOrdered | core/cds/src/cds_api.c:1479-1482 | in every run a queue holds high priority newest first, then low priority oldest first |
| MsgOrder.HighGoesFirst | core/cds/src/cds_mq.c:150-180 | no low-priority message is delivered while a high-priority one waits |
| MsgOrder.LowsInPostingOrder | core/cds/src/cds_mq.c:102-180 | in every run the low-priority messages posted are those delivered followed by those pending, in order |
| MsgOrder.PostedIsDeliveredOrPending | core/cds/src/cds_mq.c:102-180 | in every run nothing is lost, made up or delivered twice |
| MsgPoolSpec.OnePlaceEach | core/cds/src/cds_api.c:305-311 | each wrapper is free, on one work queue or in hand, and on a list at most once |
| MsgPoolSpec.FilledIsGood | core/cds/src/cds_api.c:1475-1477 | filling a wrapper in hand leaves every pending message |
| MsgPoolSpec.EnqueuedIsGood | core/cds/src/cds_api.c:1479-1482 | after a post every queue stands for its history, every wrapper is in one place |
| MsgPoolSpec.DequeuedIsGood | core/cds/src/cds_mq.c:150-180 | after a delivery too, and what is delivered is the first pending message |
| MsgPoolSpec.TakenIsGood | core/cds/src/cds_api.c:1453-1454 | taking a free wrapper keeps every wrapper in one place |
| MsgPoolSpec.ReturnedIsGood | core/cds/src/cds_api.c:1563-1564 | giving one back does too |
| MsgPoolSpec.QueueOrder | core/cds/src/cds_api.c:1479-1482 | in every good state the wrappers of a queue hold its messages in delivery order |
| MsgQueues.MsgPool.constructor | core/cds/src/cds_api.c:305-311 | wrapper i points to buffer i and all wrappers are free |
| MsgQueues.MsgPool.PostMessage | core/cds/src/cds_api.c:1387-1488 | an unknown queue and an empty free queue are refused and change nothing; else the post is recorded on its queue and no message in hand changes |
| MsgQueues.MsgPool.ReturnMsg | core/cds/src/cds_api.c:1540-1565 | the wrapper goes to the end of the free queue |
| MsgQueues.MsgPool.Next | core/cds/src/cds_sched.c:688-805 | SYS before WMA before PE before SME; the message handed out is the first pending one |
| MsgQueues.MsgPool.Flush | core/cds/src/cds_sched.c:1289-1352 | afterwards no message is pending and the flushed wrappers are free, queue by queue in order |

## Left out

- Unknown device types: `cds_get_mode` answers a mode outside the five for them; entries have one of the five modes.
- AddChannels: copies whole numbers; the model does not truncate channels and weights to eight bits, because valid channels and the weights fit.
- GetPcl: buffers hold at most 255 channels, because the loop counters of the filters are eight bits wide; QDF_MAX_NUM_CHAN itself is not part of this model.
- Restrict: what lies behind the returned length is not described, because callers read only that many entries.
- ReadRegisters: the target's memory does not change during a dump, and 32-bit wrap-around of a dump address is not modelled, because no table or section comes near the end of the address space.
- ReadMemory: a successful exchange answers with as many bytes as were asked for; the length that comes back is not read.
- CoreDump: what the failure path writes into the block, and the variant for buses without register dumps, are not described.
- DbsExactlyWhenBandsSpan: the channels are those of the regulatory map, because channel 14 is 2.4 GHz to one macro and not to another; AgreementBesideOne and AgreementBesideTwo give the exact conditions for all channels.
- UpdateSlot: the entry is in use and goes to a used slot or the first free one, as all its callers have it.
- StreamStart: requires a command buffer, as StreamData and FastDownload do, because the source clears that buffer before its done test (core/bmi/src/bmi.c:471-476, 352-357); after a successful done command the pointer is null, and a stream call made then is not modelled.
- Null pointers: contexts, buffers, messages and wrappers that are passed in exist.
- Threads: locked regions are atomic steps. What happens inside the delete and restore window is treated on its own, for every table: one admission, or any sequence of disconnects, MAC changes and roams; runs contain only closed windows.
- The timing of firmware callbacks: an NSS update callback is a call of its own, the hardware mode transition callback is a new vdev-to-MAC map.
- The signed stream start, SOC register access and target information of the BMI phase: easy variants of the transfers modelled.
- Command codes and the size of the command buffer: their values are not part of this model, only that codes differ and that the buffer exceeds the header by a multiple of 4.
- Linked lists: queues are sequences, so their pointers are not modelled.
- Adapter walks, SAP restart and channel switch, TDLS, LRO callbacks, P2P quota and latency commands, concurrency strings.
- Firmware selection, hashing, PLL and target configuration, ramdump work.
- Bring-up and tear-down of the driver context other than the message pool.
