# A model of the CCA RMM conformance tests, in Dafny

This project models twelve tests of the Arm CCA RMM architecture compliance
suite (cca-rmm-acs) and the Realm Management Monitor (RMM) they drive. The
tests run on the host (Normal world) or inside a realm and issue RMI and RSI
commands. Each test checks the monitor's answers and ends with PASS, SKIP or
FAIL at a numbered failure point.

The project has two layers.

- **The monitor.** An abstract RMM, the part these tests observe:
  - `Monitor.State` holds the granule states (UNDELEGATED, DELEGATED, RD,
    REC, REC_AUX, RTT, DATA), the contents of memory, the realms and their
    RECs, and every realm's translation tables (RTTs, one primary tree and
    one tree per auxiliary plane);
  - it also holds the host's bump allocator;
  - every command is a method from a state to a new state, with its
    acceptance condition as an `ok <==>` clause and every field of the new
    state stated.
  
  `Rtt` models the tables themselves, as a map from (realm, tree, level,
  base) to entry: walks, RTT_CREATE as unfolding a block into 512 entries,
  RTT_FOLD as its inverse. `Host` holds the fixtures the tests share: a
  delegated granule, a realm with its RECs, the tables for an IPA, and a
  DATA granule mapped at a protected IPA.
- **The tests.** One module per test file. Each test's body is a method. It
  keeps the test's branches, its failure points and its check loops over the
  stimulus table. The method's contract states:
  - which failure points can be reached, and exactly when;
  - what a passing run has established about the monitor's state.

Everything the test cannot see is an input to the model:
- the expected-code tables (`rmi_*_data.h`);
- the exact error code a refusing monitor returns;
- what the realm's code does when a REC runs (`RealmStep`);
- the host's answers to RIPAS changes;
- the monitor's replies to the attestation token calls;
- how many pages one RMI_RTT_SET_S2AP call processes.

No error code, error precedence or constant that the source does not show is
invented. A refusal is only ever "some code other than SUCCESS".

The core files, with their modules:

| source file (under test/) | module | Dafny file |
|---|---|---|
| command/cmd_granule_undelegate/cmd_granule_undelegate_host.c | GranuleUndelegateTest | granule_undelegate.dfy |
| command/cmd_data_destroy/cmd_data_destroy_host.c | DataDestroyTest | data_destroy.dfy |
| memory_management/mm_rtt_fold_assigned_ns/mm_rtt_fold_assigned_ns_host.c | RttFoldTest | rtt_fold_assigned_ns.dfy |
| command/cmd_rtt_set_s2ap/cmd_rtt_set_s2ap_host.c | SetS2apTest | rtt_set_s2ap.dfy |
| command/cmd_psci_complete/cmd_psci_complete_host.c | PsciCompleteTest | psci_complete.dfy |
| command/cmd_rec_destroy/cmd_rec_destroy_host.c | RecDestroyTest | rec_destroy.dfy |
| planes/exception/planes_rec_exit_ia_ripas_destroyed/planes_rec_exit_ia_ripas_destroyed_host.c | PlanesIaRipasDestroyedTest | planes_ia_ripas_destroyed.dfy |
| memory_management/mm_ha_hd_access/mm_ha_hd_access_host.c | HaHdAccessTest | ha_hd_access.dfy |
| memory_management/mm_ripas_change_reject/mm_ripas_change_reject_realm.c | RipasChangeRejectTest | ripas_change_reject.dfy |
| command/cmd_system_reset/cmd_system_reset_host.c | SystemResetTest | system_reset.dfy |
| command/cmd_multithread_realm_up/cmd_multithread_realm_up_host.c | MultithreadRealmUpTest | multithread_realm_up.dfy |
| attestation_measurement/attestation_rec_exit_irq/attestation_rec_exit_irq_realm.c | AttestationRecExitIrqTest | attestation_rec_exit_irq.dfy |

The shared modules:
- **RmmTypes** (rmm_types.dfy): sizes, states, codes and address alignment.
- **Rtt** (rtt.dfy): translation tables.
- **Monitor** (monitor.dfy): the monitor.
- **Host** (fixtures.dfy): the shared fixtures.
- **Checks** (checks.dfy): the check loop every command test runs over its
  stimulus table.


## Model

| member | source | states |
|---|---|---|
| Checks.Returned | test/command/cmd_granule_undelegate/cmd_granule_undelegate_host.c:178-185 | A command returns SUCCESS exactly when the monitor accepts it. A refused command returns the monitor's own error code. |
| Checks.RoundStop | test/command/cmd_granule_undelegate/cmd_granule_undelegate_host.c:173-185 | One round of a check loop ends the test exactly when its preparation failed, or its code differs from the expected PACK_CODE, or its checked output is wrong. A failed preparation stops at the preparation point and a different code at the command point. A matching code with a wrong output stops at the output point. A skipped round never stops the test. |
| Checks.LoopStop | test/command/cmd_granule_undelegate/cmd_granule_undelegate_host.c:168-186 | A check loop over a stimulus table ends the test at one of its own failure points, or not at all. |
| Checks.LoopStopNext | test/command/cmd_granule_undelegate/cmd_granule_undelegate_host.c:168-186 | While no round has stopped the loop, one more round stops it exactly where that round stops. |
| Checks.LoopStopNoneIff | test/command/cmd_granule_undelegate/cmd_granule_undelegate_host.c:168-186 | A check loop runs to the end exactly when every round skipped or saw its expected code (both directions). |
| Checks.LoopStopFirst | test/command/cmd_granule_undelegate/cmd_granule_undelegate_host.c:168-186 | A loop that stops does so at the first round that fails; every earlier round passed. |
| RmmTypes.LevelSize | test/memory_management/mm_rtt_fold_assigned_ns/mm_rtt_fold_assigned_ns_host.c:36-46 | An entry at any level maps a whole number of pages, and an entry one level up maps 512 times as much. |
| RmmTypes.AlignDown | test/command/cmd_data_destroy/cmd_data_destroy_host.c:29-56 | The block of an address at a level is aligned to the level's size and to a page, and contains the address. |
| RmmTypes.AlignSplit | test/command/cmd_data_destroy/cmd_data_destroy_host.c:29-56 | An address's block at one level is its block one level up plus the offset of its entry inside that block. |
| RmmTypes.FilledPage | test/command/cmd_granule_undelegate/cmd_granule_undelegate_host.c:219 | A page filled with one byte holds exactly PAGE_SIZE bytes, all equal to it. |
| Rtt.Index | test/command/cmd_data_destroy/cmd_data_destroy_host.c:29-56 | The entry for an IPA sits at a position below 512 in its table. The table's base plus that position times the entry size is the IPA's block. |
| Rtt.SameSlot | test/command/cmd_data_destroy/cmd_data_destroy_host.c:29-56 | Two IPAs share a table and a position in it exactly when they share a block at that level. |
| Rtt.SetEntry | test/command/cmd_data_destroy/cmd_data_destroy_host.c:384-400 | Writing one entry changes that entry, creates at most its own table, and leaves every other table as it was. |
| Rtt.Walk | test/memory_management/mm_rtt_fold_assigned_ns/mm_rtt_fold_assigned_ns_host.c:62-70 | RTT_READ_ENTRY's walk stops at a level between its first and last. It stops at the first entry that is not a table, and every entry it passed through is a table. |
| Rtt.FirstLive | test/command/cmd_data_destroy/cmd_data_destroy_host.c:358-364 | The first live entry at or after a position; the result is 512 when there is none. No live entry lies in between. |
| Rtt.ChildEntry | test/memory_management/mm_rtt_fold_assigned_ns/mm_rtt_fold_assigned_ns_host.c:190-193 | A part of an unfolded block keeps the block's state and RIPAS. A mapped part's output address is the block's address plus the part's offset, and an unmapped part equals the block. |
| Rtt.UnfoldAfterFold | test/memory_management/mm_rtt_fold_assigned_ns/mm_rtt_fold_assigned_ns_host.c:157-198 | Folding a table and then creating it again from the granule the fold returned gives back exactly the tables before the fold. |
| Rtt.FoldAfterUnfold | test/memory_management/mm_rtt_fold_assigned_ns/mm_rtt_fold_assigned_ns_host.c:81-95 | Creating a table under a block entry and folding it again gives back exactly the tables before. |
| Rtt.ChildrenFoldable | test/memory_management/mm_rtt_fold_assigned_ns/mm_rtt_fold_assigned_ns_host.c:157-198 | Unfolding a non-table block entry whose output address is aligned to the block gives a table that RTT_FOLD accepts. |
| Rtt.WalkAfterFold | test/memory_management/mm_rtt_fold_assigned_ns/mm_rtt_fold_assigned_ns_host.c:119-155 | After RTT_FOLD, every IPA of the folded block walks one level up. It ends at an entry with the state, descriptor and RIPAS of entry 0 of the removed table. |
| Rtt.WalkAfterUnfold | test/memory_management/mm_rtt_fold_assigned_ns/mm_rtt_fold_assigned_ns_host.c:166-198 | After RTT_CREATE under a block, every IPA of the block walks to the new level. It ends at the block's entry moved to the IPA's own offset. |
| Rtt.EntryAfterUnfold | test/memory_management/mm_rtt_fold_assigned_ns/mm_rtt_fold_assigned_ns_host.c:157-164 | After RTT_CREATE, the parent entry points at the new table and the new table holds the parts of the parent's block. Every other entry is unchanged. |
| Rtt.WalkStopsAt | test/memory_management/mm_rtt_fold_assigned_ns/mm_rtt_fold_assigned_ns_host.c:62-70 | A walk to the leaf ends at the first level whose entry is not a table. |
| Rtt.WalkSameBlock | test/memory_management/mm_rtt_fold_assigned_ns/mm_rtt_fold_assigned_ns_host.c:138-155 | Two IPAs in one block at a level read the same entries down to that level, so their walks to it end alike. |
| Rtt.LeafSameTable | test/memory_management/mm_rtt_fold_assigned_ns/mm_rtt_fold_assigned_ns_host.c:138-155 | Once one IPA's walk reaches level 3, every IPA of the same level 3 table walks to level 3 as well. |
| Rtt.LeafBeside | test/command/cmd_data_destroy/cmd_data_destroy_host.c:273-278 | Take a page whose walk reaches level 3, and an IPA in the same level 1 block whose own level 2 entry is not a table. That IPA's leaf is its level 2 entry. |
| Rtt.WalkOtherTree | test/planes/exception/planes_rec_exit_ia_ripas_destroyed/planes_rec_exit_ia_ripas_destroyed_host.c:79-95 | Changes confined to one tree of a realm leave every walk in the realm's other trees, and in other realms, unchanged. |
| Rtt.WalkOtherRealm | test/command/cmd_data_destroy/cmd_data_destroy_host.c:303-312 | Changes confined to the tables of one realm leave every walk in other realms unchanged. |
| Rtt.LeafWithoutTables | test/command/cmd_data_destroy/cmd_data_destroy_host.c:130-159 | A realm with no tables yet reads as UNASSIGNED with RIPAS EMPTY at level 0, for every IPA. |
| Rtt.LeafAfterSet | test/command/cmd_data_destroy/cmd_data_destroy_host.c:384-400 | Writing the level 3 entry of a page changes the leaf of that page only, and only when the page's walk reaches level 3. |
| Rtt.LeafAfterUnfold | test/memory_management/mm_rtt_fold_assigned_ns/mm_rtt_fold_assigned_ns_host.c:157-164 | After RTT_CREATE, the leaves of the unfolded block move one level down and keep their state and RIPAS. Every other leaf is unchanged. |
| Rtt.GrowsTrans | test/command/cmd_data_destroy/cmd_data_destroy_host.c:130-159 | Two steps of table growth for one IPA make one step of growth. |
| Rtt.UnfoldGrows | test/command/cmd_data_destroy/cmd_data_destroy_host.c:130-159 | Creating the next table on an IPA's path grows its tree. Other trees are untouched, leaves off the path are untouched, and every leaf keeps its state and RIPAS. The IPA's leaf moves down to the new level. |
| Rtt.SetGrows | test/command/cmd_data_destroy/cmd_data_destroy_host.c:130-159 | Writing a non-table leaf for an IPA whose walk reaches level 3 is a step of growth, and that leaf becomes the written entry. |
| Rtt.Unfold | test/memory_management/mm_rtt_fold_assigned_ns/mm_rtt_fold_assigned_ns_host.c:157-164 | RTT_CREATE adds exactly the new table, next to its parent's table. |
| Rtt.Fold | test/memory_management/mm_rtt_fold_assigned_ns/mm_rtt_fold_assigned_ns_host.c:81-95 | RTT_FOLD removes exactly the folded table and keeps its parent's table. |
| Monitor.SetStates | test/command/cmd_granule_undelegate/cmd_granule_undelegate_host.c:39-59 | Exactly the granules of the given set take the new state; the state of every other granule is kept. |
| Monitor.ReleaseAux | test/command/cmd_rec_destroy/cmd_rec_destroy_host.c:190-200 | The auxiliary granules of a destroyed REC that are recorded as REC_AUX become DELEGATED. Every other granule keeps its state. |
| Monitor.Ipa40 | test/memory_management/mm_ha_hd_access/mm_ha_hd_access_host.c:28 | A realm with a 40-bit IPA space has protected IPAs below 2^39 and unprotected IPAs from 2^39 up to 2^40. |
| Monitor.Boot | test/command/cmd_granule_undelegate/cmd_granule_undelegate_host.c:152-166 | The machine at the start of a test: well formed, all normal memory free to the host allocator, every granule UNDELEGATED and zero-filled, and every walk UNASSIGNED, EMPTY. |
| Monitor.Alloc | test/memory_management/mm_ha_hd_access/mm_ha_hd_access_host.c:36-42 | val_host_mem_alloc returns an address aligned as asked (a page or a level 2 block) from memory nobody has touched. It succeeds exactly when the allocation fits below the memory limit. Every page it hands out is a valid PA. Only the allocator moves. |
| Monitor.HostFill | test/command/cmd_granule_undelegate/cmd_granule_undelegate_host.c:219 | A host write over a page succeeds exactly when the page is a valid PA that the host owns (UNDELEGATED). The page then holds the written byte throughout; nothing else changes. |
| Monitor.HostCompare | test/command/cmd_granule_undelegate/cmd_granule_undelegate_host.c:242-247 | A host comparison succeeds exactly when both pages are the host's. It then reports equality exactly when their contents are equal. |
| Monitor.GranuleDelegate | test/command/cmd_granule_undelegate/cmd_granule_undelegate_host.c:34-37 | RMI_GRANULE_DELEGATE is accepted exactly under its conditions (DelegateOk); the granule becomes DELEGATED and nothing else changes. |
| Monitor.GranuleUndelegate | test/command/cmd_granule_undelegate/cmd_granule_undelegate_host.c:188-204 | RMI_GRANULE_UNDELEGATE is accepted exactly under its conditions (UndelegateOk). The granule becomes UNDELEGATED with its contents wiped to zeros; nothing else changes. |
| Monitor.RealmCreate | test/command/cmd_granule_undelegate/cmd_granule_undelegate_host.c:39-59 | RMI_REALM_CREATE is accepted exactly under its conditions. The RD and the root tables take their states, and the new realm is recorded as NEW; nothing else changes. |
| Monitor.RealmActivate | test/memory_management/mm_rtt_fold_assigned_ns/mm_rtt_fold_assigned_ns_host.c:98-103 | RMI_REALM_ACTIVATE is accepted exactly for a realm in state NEW (ActivateOk), which becomes ACTIVE; nothing else changes. |
| Monitor.RecAuxCount | test/command/cmd_rec_destroy/cmd_rec_destroy_host.c:57-62 | RMI_REC_AUX_COUNT succeeds exactly for a live realm and returns the platform's auxiliary granule count. |
| Monitor.RecCreate | test/command/cmd_rec_destroy/cmd_rec_destroy_host.c:72-78 | RMI_REC_CREATE is accepted exactly under its conditions. The REC and its auxiliary granules take their states, and the REC is recorded with no pending request; nothing else changes. |
| Monitor.RecDestroy | test/command/cmd_rec_destroy/cmd_rec_destroy_host.c:188-204 | RMI_REC_DESTROY is accepted exactly under its conditions. The REC granule and its auxiliary granules become DELEGATED and the REC is removed; nothing else changes. |
| Monitor.RttCreate | test/memory_management/mm_rtt_fold_assigned_ns/mm_rtt_fold_assigned_ns_host.c:157-164 | RMI_RTT_CREATE and RMI_RTT_AUX_CREATE are accepted exactly under their conditions. The table granule becomes an RTT and the tables are unfolded under the block entry; nothing else changes. |
| Monitor.RttReadEntry | test/memory_management/mm_rtt_fold_assigned_ns/mm_rtt_fold_assigned_ns_host.c:62-79 | RMI_RTT_READ_ENTRY succeeds exactly under its conditions and returns the walk of the primary tree to the asked level. |
| Monitor.RttFold | test/memory_management/mm_rtt_fold_assigned_ns/mm_rtt_fold_assigned_ns_host.c:81-95 | RMI_RTT_FOLD is accepted exactly for a foldable table and returns the granule its parent entry names. That granule becomes DELEGATED and the table is folded into one block entry; nothing else changes. |
| Monitor.RttInitRipas | test/memory_management/mm_ha_hd_access/mm_ha_hd_access_host.c:48 | RMI_RTT_INIT_RIPAS for a page is accepted exactly under its conditions. The page's RIPAS becomes RAM and nothing else changes. |
| Monitor.RttMapUnprotected | test/memory_management/mm_rtt_fold_assigned_ns/mm_rtt_fold_assigned_ns_host.c:45-59 | RMI_RTT_MAP_UNPROTECTED is accepted exactly under its conditions, which refuse a descriptor with DBM. The entry becomes ASSIGNED_NS with the descriptor and nothing else changes. |
| Monitor.DataCreate | test/command/cmd_granule_undelegate/cmd_granule_undelegate_host.c:221-226 | RMI_DATA_CREATE is accepted exactly under its conditions. The granule becomes DATA, receives a copy of the source page and is mapped at the IPA with the RIPAS the page had; nothing else changes. |
| Monitor.DataCreateUnknown | test/command/cmd_data_destroy/cmd_data_destroy_host.c:403-415 | RMI_DATA_CREATE_UNKNOWN is accepted exactly under its conditions. The granule becomes DATA and is mapped at the IPA, and memory is untouched; nothing else changes. |
| Monitor.DataDestroy | test/command/cmd_data_destroy/cmd_data_destroy_host.c:366-382 | RMI_DATA_DESTROY is accepted exactly under its conditions and returns the mapped granule. That granule becomes DELEGATED and the leaf becomes UNASSIGNED, with RAM turned to DESTROYED. The returned top is the next live entry of the walk's table, or its end. |
| Monitor.AfterDestroy | test/command/cmd_data_destroy/cmd_data_destroy_host.c:384-400 | DATA_DESTROY turns RIPAS RAM into DESTROYED and keeps EMPTY and DESTROYED as they are. |
| Monitor.DataDestroyValid | test/command/cmd_data_destroy/cmd_data_destroy_host.c:366-382 | Destroying a mapping keeps the monitor state well formed, and keeps untouched memory untouched. |
| Monitor.RttAuxMapProtected | test/command/cmd_rtt_set_s2ap/cmd_rtt_set_s2ap_host.c:160-171 | RMI_RTT_AUX_MAP_PROTECTED is accepted exactly under its conditions. The plane's level 3 entry becomes a copy of the primary tree's entry; nothing else changes. |
| Monitor.RttAuxUnmapProtected | test/planes/exception/planes_rec_exit_ia_ripas_destroyed/planes_rec_exit_ia_ripas_destroyed_host.c:79-95 | RMI_RTT_AUX_UNMAP_PROTECTED is accepted exactly under its conditions. The plane's entry becomes UNASSIGNED and keeps its RIPAS; nothing else changes. |
| Monitor.RecEnter | test/memory_management/mm_ha_hd_access/mm_ha_hd_access_host.c:66-77 | RMI_REC_ENTER runs the REC exactly when it can be entered. A REC of a switched-off realm is refused with its own code. The exit is the realm's next step, or an instruction abort when the fetch hits DESTROYED, and its effects are recorded on the REC and the realm. |
| Monitor.PsciComplete | test/command/cmd_multithread_realm_up/cmd_multithread_realm_up_host.c:48-53 | RMI_PSCI_COMPLETE is accepted exactly under its conditions. The calling REC's pending request is cleared, and a CPU_ON makes the target runnable; nothing else changes. |
| Monitor.TreeCount | test/command/cmd_rtt_set_s2ap/cmd_rtt_set_s2ap_host.c:503-515 | A realm's trees are numbered from 0 below its tree count, and there is at least the primary tree. |
| Monitor.S2apAfter | test/command/cmd_rtt_set_s2ap/cmd_rtt_set_s2ap_host.c:503-515 | One accepted RMI_RTT_SET_S2AP call moves the request on to the next tree at the same base. After the last tree, it moves the base forward by the pages processed, never past top, and starts again from the primary tree. The base moves exactly after the last tree. |
| Monitor.RttSetS2ap | test/command/cmd_rtt_set_s2ap/cmd_rtt_set_s2ap_host.c:490-515 | RMI_RTT_SET_S2AP is accepted exactly under its conditions and returns where the next call must start. Only the REC's pending request advances. |
| Host.KeepsTrans | test/command/cmd_granule_undelegate/cmd_granule_undelegate_host.c:152-166 | Two fixtures run one after the other keep what each keeps: a well formed state, the same platform, untouched memory above the mark and everything below the first mark. |
| Host.KeptUnchanged | test/memory_management/mm_ha_hd_access/mm_ha_hd_access_host.c:57-82 | A command that changes no granule state and no memory keeps everything below the allocator's mark. |
| Host.UntrackedNotRealm | test/command/cmd_granule_undelegate/cmd_granule_undelegate_host.c:98-110 | An address the monitor cannot have recorded, invalid or at or above the allocator's mark, is neither a realm nor a REC. |
| Host.Unaligned | test/command/cmd_granule_undelegate/cmd_granule_undelegate_host.c:102-104 | g_unaligned_prep_sequence: one byte past an aligned granule is never page aligned. |
| Host.DevMem | test/command/cmd_granule_undelegate/cmd_granule_undelegate_host.c:106-108 | g_dev_mem_prep_sequence: a page-aligned address in device memory, which is never a valid PA. |
| Host.OutsidePa | test/command/cmd_granule_undelegate/cmd_granule_undelegate_host.c:110-112 | g_outside_of_permitted_pa_prep_sequence: a page-aligned address outside the permitted PA range, which is never a valid PA. |
| Host.NewGranule | test/command/cmd_granule_undelegate/cmd_granule_undelegate_host.c:114-119 | g_undelegated_prep_sequence gives a fresh valid granule at the allocator's mark, untouched and left with the host. It succeeds exactly when a page is free; only the mark moves. |
| Host.DelegatedGranule | test/command/cmd_granule_undelegate/cmd_granule_undelegate_host.c:34-37 | g_delegated_prep_sequence gives a fresh granule at the allocator's mark, delegated to the monitor. It succeeds exactly when a page is free; only that granule's state and the mark change. |
| Host.DelegatedGranules | test/command/cmd_rec_destroy/cmd_rec_destroy_host.c:63-69 | n delegated granules in a row: it succeeds exactly when n pages are free. Granule i is at the mark plus i pages, all are distinct and valid, exactly they become DELEGATED, and nothing else changes. |
| Host.RealmGranulesReady | test/command/cmd_granule_undelegate/cmd_granule_undelegate_host.c:39-59 | Fresh granules delegated in a row meet REALM_CREATE's conditions for the RD and the root tables exactly when the parameters are valid and supported. |
| Host.RealmCreateCommon | test/command/cmd_granule_undelegate/cmd_granule_undelegate_host.c:39-59 | val_host_realm_create_common succeeds exactly when there is room for the RD and root tables and the parameters are valid and supported. It then records a new realm in NEW state; tables, RECs and memory are untouched. |
| Host.RecGranulesReady | test/command/cmd_rec_destroy/cmd_rec_destroy_host.c:63-78 | Fresh granules delegated in a row meet REC_CREATE's conditions exactly when the realm exists and is NEW. |
| Host.RecCreateOne | test/command/cmd_rec_destroy/cmd_rec_destroy_host.c:55-78 | REC_AUX_COUNT, the REC granule and its auxiliary granules delegated, then REC_CREATE. It succeeds exactly for a NEW realm with room for them, and records one new REC with no pending request. |
| Host.ScaledMono | test/command/cmd_rec_destroy/cmd_rec_destroy_host.c:63-69 | The cost of k steps is at most the cost of n steps when k <= n. |
| Host.RoomForStep | test/command/cmd_rec_destroy/cmd_rec_destroy_host.c:63-69 | When the room covers all steps, what is left after the first k covers the next one. |
| Host.NewRecsStep | test/command/cmd_psci_complete/cmd_psci_complete_host.c:83-88 | After one more REC_CREATE, the new RECs so far are one longer, with the next MPIDR and runnable flag. |
| Host.NewRecsKept | test/command/cmd_psci_complete/cmd_psci_complete_host.c:83-88 | A failed REC_CREATE leaves the RECs created so far as they were. |
| Host.RecCreateNext | test/command/cmd_psci_complete/cmd_psci_complete_host.c:83-88 | One round of creating RECs adds one REC on success and none on failure, and keeps the loop's state. |
| Host.RecCreateCommon | test/command/cmd_psci_complete/cmd_psci_complete_host.c:83-88 | count RECs of one realm, one after the other. It succeeds exactly for a live realm that is NEW with room for them all. The RECs have MPIDRs 0..count-1 and the runnable flags asked for. |
| Host.NewRecsSince | test/command/cmd_psci_complete/cmd_psci_complete_host.c:83-88 | RECs created after a later state are new relative to an earlier state with the same RECs as well. |
| Host.RealmWithRecs | test/command/cmd_psci_complete/cmd_psci_complete_host.c:78-88 | A new realm with count RECs, only REC 0 runnable. It succeeds exactly when there is room and the parameters are valid and supported. The realm is NEW, it is the only new one, and its root is an RTT granule. |
| Host.RealmSetup | test/memory_management/mm_rtt_fold_assigned_ns/mm_rtt_fold_assigned_ns_host.c:26-34 | val_host_realm_setup: RealmWithRecs, then REALM_ACTIVATE when asked. It succeeds under the same condition and leaves the realm ACTIVE or NEW accordingly. |
| Host.PathReady | test/memory_management/mm_rtt_fold_assigned_ns/mm_rtt_fold_assigned_ns_host.c:157-164 | When an IPA's walk stops one level up, its block start stops there too, at a non-table entry, as RTT_CREATE of the next level expects. |
| Host.AddTable | test/memory_management/mm_rtt_fold_assigned_ns/mm_rtt_fold_assigned_ns_host.c:157-164 | One RTT_CREATE on an IPA's path in a fresh delegated granule. It succeeds exactly when the tree exists and a page is free. The IPA's leaf moves one level down and its tree grows. |
| Host.CreateTables | test/memory_management/mm_rtt_fold_assigned_ns/mm_rtt_fold_assigned_ns_host.c:157-164 | val_host_create_rtt_levels: tables for an IPA down to level 3. It succeeds when the IPA is the realm's and there is room, and fails only if not. Afterwards the IPA's walk reaches level 3, the tree only grows, and nothing changes when the tables were there already. |
| Host.MapUnprotected | test/memory_management/mm_rtt_fold_assigned_ns/mm_rtt_fold_assigned_ns_host.c:45-59 | val_host_map_unprotected of one host page: tables down to level 3, then RTT_MAP_UNPROTECTED. It succeeds when the page is an unprotected, unmapped page of the realm without DBM and there is room, and fails only if not. The leaf then maps the host page. |
| Host.InitRipas | test/memory_management/mm_ha_hd_access/mm_ha_hd_access_host.c:48 | RTT_INIT_RIPAS of a page whose tables exist succeeds exactly for a protected, unmapped page of a NEW realm. The leaf keeps its state and gets RIPAS RAM. |
| Host.CreateMapping | test/command/cmd_granule_undelegate/cmd_granule_undelegate_host.c:209-214 | create_mapping: tables down to level 3, with RIPAS RAM when asked. It succeeds when the tables can be made and the RIPAS can be set and there is room, and fails only if not. It changes nothing when all was in place and no RIPAS was asked. |
| Host.CreateData | test/command/cmd_data_destroy/cmd_data_destroy_host.c:451-456 | DATA_CREATE at an IPA with a fresh delegated granule and source page. It succeeds exactly for an unassigned protected leaf of a NEW realm with room. The leaf then maps the DATA granule and keeps its RIPAS. |
| Host.DataPrep | test/command/cmd_data_destroy/cmd_data_destroy_host.c:130-159 | ipa_valid_prep_sequence: the mapping with RIPAS RAM, then DATA_CREATE. It succeeds when the RIPAS can be set and there is room, and fails only if not. The leaf becomes ASSIGNED with RIPAS RAM, mapping a DATA granule. |
| Host.AuxMappedData | test/command/cmd_data_destroy/cmd_data_destroy_host.c:75-109 | rd_aux_live_prep_sequence: a DATA granule mapped in the primary tree and in an auxiliary tree, so that the auxiliary mapping is live. It succeeds under the data and auxiliary tree conditions given room, and only the realm's own tables change. |
| Host.DataEntry | test/memory_management/mm_ha_hd_access/mm_ha_hd_access_host.c:35-53 | The leaf of a page of protected data is ASSIGNED with RIPAS RAM and maps that granule. |
| Host.MapProtectedData | test/memory_management/mm_ha_hd_access/mm_ha_hd_access_host.c:35-53 | val_host_map_protected_data_to_realm for one page: it succeeds when the RIPAS can be set and there is room, and fails only if not. The leaf then maps the target granule as DATA with RIPAS RAM, holding a copy of the source page. Only the primary tree changes. |
| GranuleUndelegateTest.StoreKept | test/command/cmd_granule_undelegate/cmd_granule_undelegate_host.c:80-96 | Fixtures that keep the realms keep the stored arguments valid: the delegated granule, and the new realm with its root table. |
| GranuleUndelegateTest.PrepareStore | test/command/cmd_granule_undelegate/cmd_granule_undelegate_host.c:80-96 | The valid preparation (point 1) and the invalid one (point 2) fill the argument store. It fails only at those points, and never when memory suffices for a granule and a realm. |
| GranuleUndelegateTest.IntentToSeq | test/command/cmd_granule_undelegate/cmd_granule_undelegate_host.c:98-149 | Each intent gives the address its case names: unaligned, device memory, outside the PA range, undelegated, a REC of the new realm, a DATA granule, its root RTT or its RD. Every address it gives is one GRANULE_UNDELEGATE refuses, and an unknown label is an error. |
| GranuleUndelegateTest.CheckRound | test/command/cmd_granule_undelegate/cmd_granule_undelegate_host.c:173-185 | One round of the loop either fails its preparation or sees the monitor's own refusal code. Preparation can fail only for the intents that allocate, and always for an unknown label. |
| GranuleUndelegateTest.CheckLoop | test/command/cmd_granule_undelegate/cmd_granule_undelegate_host.c:168-186 | The check loop stops exactly where LoopStop says, at point 3. It runs through only when every row was issued, and every command in it is refused. |
| GranuleUndelegateTest.LoopStopsOnlyOnPrep | test/command/cmd_granule_undelegate/cmd_granule_undelegate_host.c:168-186 | When the table expects exactly the monitor's refusal codes, the loop stops only at a failed preparation. |
| GranuleUndelegateTest.Observability | test/command/cmd_granule_undelegate/cmd_granule_undelegate_host.c:188-204 | Undelegating the valid granule succeeds (point 5 is never reached) and leaves it UNDELEGATED and zero-filled. Undelegating it again fails (point 6 is never reached). |
| GranuleUndelegateTest.FilledPagesDiffer | test/command/cmd_granule_undelegate/cmd_granule_undelegate_host.c:242-247 | A page filled with 0x0a differs from a wiped page, so the comparison tells them apart. |
| GranuleUndelegateTest.FilledData | test/command/cmd_granule_undelegate/cmd_granule_undelegate_host.c:216-226 | A host page filled with 0x0a is copied by DATA_CREATE into a fresh granule mapped at IPA_ADDR_DATA1. On success the granule is DATA and the leaf maps it. It succeeds whenever the leaf is ready and memory suffices. |
| GranuleUndelegateTest.DestroyMapping | test/command/cmd_granule_undelegate/cmd_granule_undelegate_host.c:228-233 | DATA_DESTROY of that mapping succeeds (point 9 is never reached). The data granule becomes DELEGATED and the source page is untouched. |
| GranuleUndelegateTest.UndelegateAndCompare | test/command/cmd_granule_undelegate/cmd_granule_undelegate_host.c:235-247 | Undelegating the destroyed granule succeeds and wipes it, so it differs from the source page: points 10 and 11 are never reached. |
| GranuleUndelegateTest.DestroyAndCompare | test/command/cmd_granule_undelegate/cmd_granule_undelegate_host.c:228-247 | The destroy, undelegate and compare steps never fail, and leave the data granule UNDELEGATED and zero-filled. |
| GranuleUndelegateTest.WipeSequence | test/command/cmd_granule_undelegate/cmd_granule_undelegate_host.c:205-247 | The wipe sequence fails only at the mapping (point 7) or at DATA_CREATE (point 8). It fails at neither when the page is an unassigned page of the new realm and memory suffices. |
| GranuleUndelegateTest.GranuleUndelegateHost | test/command/cmd_granule_undelegate/cmd_granule_undelegate_host.c:152-247 | cmd_granule_undelegate_host fails only at points 1, 2, 3, 7 or 8. It fails at point 3 exactly when the check loop stops, and every command in the loop sees the monitor's refusal. |
| DataDestroyTest.FreshPage | test/command/cmd_data_destroy/cmd_data_destroy_host.c:130-159 | After ipa_valid_prep_sequence in a realm without tables, every page of the first 2 MB except the valid one is UNASSIGNED, EMPTY at level 3. |
| DataDestroyTest.FreshBlock | test/command/cmd_data_destroy/cmd_data_destroy_host.c:273-279 | After ipa_valid_prep_sequence in a realm without tables, the walk for IPA_NOT_MAPPED stops at an UNASSIGNED, EMPTY level 2 entry. |
| DataDestroyTest.LaidOutFromScratch | test/command/cmd_data_destroy/cmd_data_destroy_host.c:130-159 | ipa_valid_prep_sequence in a realm without tables sets up the layout the test relies on, with IPA_ADDR_DATA not mapped yet. |
| DataDestroyTest.LaidOutOtherRealm | test/command/cmd_data_destroy/cmd_data_destroy_host.c:303-312 | Changes confined to another realm keep the valid realm's layout. |
| DataDestroyTest.OffPathLeaf | test/command/cmd_data_destroy/cmd_data_destroy_host.c:259-264 | A leaf off the path of the IPA a fixture mapped is untouched. |
| DataDestroyTest.LaidOutFar | test/command/cmd_data_destroy/cmd_data_destroy_host.c:259-264 | Mappings built for an IPA beyond the first 1 GB keep the layout. |
| DataDestroyTest.LaidOutRipasInit | test/command/cmd_data_destroy/cmd_data_destroy_host.c:281-287 | RTT_INIT_RIPAS at IPA_ADDR_UNASSIGNED keeps the layout. |
| DataDestroyTest.LaidOutDataMapped | test/command/cmd_data_destroy/cmd_data_destroy_host.c:247-252 | The RD_STATE_DATA fixture maps IPA_ADDR_DATA and keeps the rest of the layout. |
| DataDestroyTest.FirstTableSlot | test/command/cmd_data_destroy/cmd_data_destroy_host.c:29-56 | In the level 3 table of the first 2 MB, page i sits at position i. |
| DataDestroyTest.FirstTableEntry | test/command/cmd_data_destroy/cmd_data_destroy_host.c:29-56 | The entry for page i of the first 2 MB is that page's leaf, when its walk reaches level 3. |
| DataDestroyTest.TopInFirstTable | test/command/cmd_data_destroy/cmd_data_destroy_host.c:366-382 | In the first level 3 table, the top for page i is the IPA of the first live entry from position i on. |
| DataDestroyTest.TopNotMapped | test/command/cmd_data_destroy/cmd_data_destroy_host.c:273-279 | The walk for IPA_NOT_MAPPED stops at the last entry of its level 2 table, so the reported top is the end of that table: L1_SIZE. |
| DataDestroyTest.TopUnassigned | test/command/cmd_data_destroy/cmd_data_destroy_host.c:281-287 | The walk for IPA_ADDR_UNASSIGNED reaches an UNASSIGNED entry and the next live entry is the valid page, so the reported top is PAGE_SIZE. |
| DataDestroyTest.TableAfterValidDestroy | test/command/cmd_data_destroy/cmd_data_destroy_host.c:366-382 | After the valid page is destroyed, its entry and the next are not live, and IPA_ADDR_DATA's entry is live exactly when that page was mapped. |
| DataDestroyTest.TopAfterValidDestroy | test/command/cmd_data_destroy/cmd_data_destroy_host.c:366-382 | Destroying the valid page leaves its leaf at level 3. The next live entry after it is IPA_ADDR_DATA exactly when that page is mapped. |
| DataDestroyTest.StoreKept | test/command/cmd_data_destroy/cmd_data_destroy_host.c:189-200 | A fixture that leaves the realms and the tables alone keeps the stored arguments. |
| DataDestroyTest.StoreMoved | test/command/cmd_data_destroy/cmd_data_destroy_host.c:189-200 | A fixture that leaves the realms alone and keeps a layout keeps the stored arguments. |
| DataDestroyTest.StoreBeside | test/command/cmd_data_destroy/cmd_data_destroy_host.c:303-312 | A fixture that adds a realm and keeps the valid realm's layout keeps the stored arguments. |
| DataDestroyTest.RdWithoutFixture | test/command/cmd_data_destroy/cmd_data_destroy_host.c:208-246 | RD_UNALIGNED, RD_DEV_MEM_MMIO, RD_OUTSIDE_OF_PERMITTED_PA and RD_STATE_RTT give the address their case names, none of them a realm's RD. |
| DataDestroyTest.RdGranule | test/command/cmd_data_destroy/cmd_data_destroy_host.c:223-241 | RD_STATE_UNDELEGATED, RD_STATE_DELEGATED and RD_STATE_REC give a fresh granule in the named state; none is an RD. The REC case's failure sentinel is used as the RD ("prep error" only from the other two), and they fail only when memory runs out. |
| DataDestroyTest.RdData | test/command/cmd_data_destroy/cmd_data_destroy_host.c:247-252 | RD_STATE_DATA maps a DATA granule at IPA_ADDR_DATA of the valid realm, which is not an RD, and the layout then records IPA_ADDR_DATA as mapped. It succeeds when memory suffices and the page was not mapped yet. |
| DataDestroyTest.RdPrep | test/command/cmd_data_destroy/cmd_data_destroy_host.c:208-252 | Every RD intent gives, with the valid IPA, an address that is not an RD, and keeps the stored arguments. An RD intent never skips. |
| DataDestroyTest.IpaWithoutFixture | test/command/cmd_data_destroy/cmd_data_destroy_host.c:254-295 | IPA_UNALIGNED, IPA_OUTSIDE_OF_PERMITTED_IPA, IPA_NOT_MAPPED and IPA_UNPROTECTED_NOT_MAPPED give the IPA their case names, and DATA_DESTROY refuses each. IPA_NOT_MAPPED's walk stops at level 2. |
| DataDestroyTest.IpaUnprotectedPrep | test/command/cmd_data_destroy/cmd_data_destroy_host.c:259-264 | ipa_unprotected_unassigned_prep_sequence builds the tables down to level 3 for an unprotected IPA whose leaf stays UNASSIGNED, which DATA_DESTROY refuses. It fails only when memory for the tables runs out, and keeps the layout. |
| DataDestroyTest.RipasRamPrep | test/command/cmd_data_destroy/cmd_data_destroy_host.c:281-287 | ipa_protected_unassigned_ram_prep_sequence sets RIPAS RAM at the unassigned page, which stays UNASSIGNED. It never fails, DATA_DESTROY refuses that page, and the layout is kept. |
| DataDestroyTest.IpaPrep | test/command/cmd_data_destroy/cmd_data_destroy_host.c:254-301 | Every IPA intent but IPA_AUX_LIVE gives an IPA of the valid realm that DATA_DESTROY refuses, keeping the stored arguments. |
| DataDestroyTest.AuxLivePrep | test/command/cmd_data_destroy/cmd_data_destroy_host.c:75-109 | With planes and a tree per plane, rd_aux_live_prep_sequence gives a new realm with one plane and a page live in both its trees. Without them it skips (VAL_SKIP_CHECK) and changes nothing. It touches only the new realm's tables and succeeds when memory suffices. |
| DataDestroyTest.AuxLiveIntent | test/command/cmd_data_destroy/cmd_data_destroy_host.c:303-312 | IPA_AUX_LIVE gives the new realm's RD and a page DATA_DESTROY refuses while the auxiliary mapping is live. It keeps the valid realm, and skips exactly when the platform lacks planes or a tree per plane. |
| DataDestroyTest.IpaIntent | test/command/cmd_data_destroy/cmd_data_destroy_host.c:254-319 | Every IPA intent gives arguments DATA_DESTROY refuses. Only IPA_AUX_LIVE can skip, and an unknown label is an error. |
| DataDestroyTest.RdIntent | test/command/cmd_data_destroy/cmd_data_destroy_host.c:208-252 | Every RD intent, paired with the valid IPA, gives arguments DATA_DESTROY refuses and keeps the stored arguments. An RD intent never skips. |
| DataDestroyTest.IntentToSeq | test/command/cmd_data_destroy/cmd_data_destroy_host.c:202-319 | intent_to_seq gives, for every intent, arguments DATA_DESTROY refuses. IPA_NOT_MAPPED and RTTE_STATE_UNASSIGNED pass the valid RD with their own IPAs. Only IPA_AUX_LIVE skips, exactly without planes and per-plane trees, and an unknown label is an error. |
| DataDestroyTest.CheckRound | test/command/cmd_data_destroy/cmd_data_destroy_host.c:337-364 | One round of the loop sees the monitor's refusal. It checks the reported top exactly when the code is RMI_ERROR_RTT. IPA_NOT_MAPPED and RTTE_STATE_UNASSIGNED set the expected top to L1_SIZE and PAGE_SIZE, every other intent keeps it, and both report the top they expect. |
| DataDestroyTest.DataMapped | test/command/cmd_data_destroy/cmd_data_destroy_host.c:247-252 | Whether some round used the RD_STATE_DATA fixture, which maps IPA_ADDR_DATA. |
| DataDestroyTest.DataMappedNext | test/command/cmd_data_destroy/cmd_data_destroy_host.c:247-252 | One more round maps IPA_ADDR_DATA exactly when it is an RD_STATE_DATA round whose preparation succeeded. |
| DataDestroyTest.RoundsSawNext | test/command/cmd_data_destroy/cmd_data_destroy_host.c:333-365 | What the rounds have seen extends by what one more round saw. |
| DataDestroyTest.CheckNext | test/command/cmd_data_destroy/cmd_data_destroy_host.c:333-365 | One more round of the loop: the store is kept while the loop goes on, and whether IPA_ADDR_DATA is mapped follows DataMapped. |
| DataDestroyTest.CheckLoop | test/command/cmd_data_destroy/cmd_data_destroy_host.c:333-365 | The check loop stops exactly where LoopStop says: point 2 (preparation), 3 (code) or 4 (top). It runs through only when every row was issued, and then keeps the stored arguments. |
| DataDestroyTest.TopStopOnlyOnRttError | test/command/cmd_data_destroy/cmd_data_destroy_host.c:358-364 | Point 4 is reached only at a round that expects and gets RMI_ERROR_RTT, and never at IPA_NOT_MAPPED or RTTE_STATE_UNASSIGNED. |
| DataDestroyTest.ValidPageDestroyed | test/command/cmd_data_destroy/cmd_data_destroy_host.c:366-400 | The valid page held the stored data granule. Destroying it leaves it UNASSIGNED, DESTROYED and keeps the page at 0x4000 UNASSIGNED, EMPTY. The next live entry is IPA_ADDR_DATA exactly when that page is mapped. |
| DataDestroyTest.PrepareStore | test/command/cmd_data_destroy/cmd_data_destroy_host.c:189-200 | valid_input_args_prep_sequence fails only at point 1, and not when there is room for the realm and its data. On success its layout holds. |
| DataDestroyTest.ReadUnassigned | test/command/cmd_data_destroy/cmd_data_destroy_host.c:384-400 | A READ_ENTRY check fails at its read point exactly when the read is refused. Otherwise it fails at its state point unless the leaf is UNASSIGNED with the expected RIPAS. |
| DataDestroyTest.DestroyValidPage | test/command/cmd_data_destroy/cmd_data_destroy_host.c:366-382 | DATA_DESTROY of the valid page succeeds and reports the stored data granule. It reports IPA_ADDR_DATA as top exactly when that page is mapped, and leaves the page UNASSIGNED, DESTROYED. |
| DataDestroyTest.ValidDestroy | test/command/cmd_data_destroy/cmd_data_destroy_host.c:366-400 | Points 5 to 8 fail only at point 6, exactly when IPA_ADDR_DATA was never mapped. The page is left UNASSIGNED, DESTROYED. |
| DataDestroyTest.ValidPageSet | test/command/cmd_data_destroy/cmd_data_destroy_host.c:384-400 | Setting the valid page's leaf keeps the leaf at 0x4000, which shares its level 3 table. |
| DataDestroyTest.EmptyPageSet | test/command/cmd_data_destroy/cmd_data_destroy_host.c:458-472 | Setting the leaf at 0x4000, which its walk reaches at level 3, changes it to the written entry. |
| DataDestroyTest.RemapPage | test/command/cmd_data_destroy/cmd_data_destroy_host.c:403-415 | A fresh delegated granule is mapped at the destroyed page by DATA_CREATE_UNKNOWN. The page becomes ASSIGNED and keeps RIPAS DESTROYED. It fails only at point 9, exactly when no page is free. |
| DataDestroyTest.DestroyRemapped | test/command/cmd_data_destroy/cmd_data_destroy_host.c:417-440 | Destroying the remapped page succeeds and it reads UNASSIGNED, DESTROYED again: points 11 to 13 are never reached. |
| DataDestroyTest.MapEmptyPage | test/command/cmd_data_destroy/cmd_data_destroy_host.c:451-464 | The assigned-empty fixture maps 0x4000 ASSIGNED with RIPAS EMPTY. It fails only at point 14, exactly when two pages are not free. |
| DataDestroyTest.DestroyEmptyPage | test/command/cmd_data_destroy/cmd_data_destroy_host.c:466-489 | Destroying the ASSIGNED, EMPTY page succeeds and it reads UNASSIGNED with RIPAS still EMPTY: points 15 to 17 are never reached. |
| DataDestroyTest.PositiveChecks | test/command/cmd_data_destroy/cmd_data_destroy_host.c:366-489 | After the loop only points 6, 9 and 14 can fail. Point 6 fails exactly when IPA_ADDR_DATA was not mapped; none fails when it was and three pages are free. |
| DataDestroyTest.DataDestroyHost | test/command/cmd_data_destroy/cmd_data_destroy_host.c:321-496 | cmd_data_destroy_host fails at point 1 only without room for the valid arguments. A loop that stops gives its own point, and point 4 needs a round that expects RMI_ERROR_RTT. When the loop runs through, point 6 fails exactly when no RD_STATE_DATA round mapped IPA_ADDR_DATA. |
| RttFoldTest.PageInBlock | test/memory_management/mm_rtt_fold_assigned_ns/mm_rtt_fold_assigned_ns_host.c:45-59 | Page j of the mapped range is a page-aligned unprotected IPA in the level 2 block at the first mapped IPA, at position j of its level 3 table. |
| RttFoldTest.HostPage | test/memory_management/mm_rtt_fold_assigned_ns/mm_rtt_fold_assigned_ns_host.c:36-43 | Page j of a 2 MB aligned host range is page aligned. |
| RttFoldTest.FullTableFoldable | test/memory_management/mm_rtt_fold_assigned_ns/mm_rtt_fold_assigned_ns_host.c:81-87 | A level 3 table mapping 512 consecutive pages from a 2 MB aligned address is exactly the 512 parts of one level 2 block entry, so RTT_FOLD accepts it. |
| RttFoldTest.FirstPage | test/memory_management/mm_rtt_fold_assigned_ns/mm_rtt_fold_assigned_ns_host.c:45-59 | The first mapping in a realm without tables leaves a new level 3 table holding the first page and 511 unassigned entries. |
| RttFoldTest.FullTable | test/memory_management/mm_rtt_fold_assigned_ns/mm_rtt_fold_assigned_ns_host.c:62-79 | With every page mapped, the walk for the block reaches level 3 and its table maps the 512 pages in order. |
| RttFoldTest.LeafAfterFold | test/memory_management/mm_rtt_fold_assigned_ns/mm_rtt_fold_assigned_ns_host.c:119-155 | After RTT_FOLD of the full table, every page of the block reads, at level 2, the block entry that mapped page 0. |
| RttFoldTest.FoldFoldsBlock | test/memory_management/mm_rtt_fold_assigned_ns/mm_rtt_fold_assigned_ns_host.c:119-155 | RTT_FOLD of the full table folds the whole block into one level 2 entry. |
| RttFoldTest.FoldedParent | test/memory_management/mm_rtt_fold_assigned_ns/mm_rtt_fold_assigned_ns_host.c:157-164 | In a folded block the walk to level 2 ends at the block entry. |
| RttFoldTest.LeafAfterRecreate | test/memory_management/mm_rtt_fold_assigned_ns/mm_rtt_fold_assigned_ns_host.c:166-198 | Creating the level 3 table again under the folded block, from any granule, gives page j its pre-fold entry back at level 3. |
| RttFoldTest.RecreateMapsBlock | test/memory_management/mm_rtt_fold_assigned_ns/mm_rtt_fold_assigned_ns_host.c:166-198 | Creating the table again maps the whole block page by page as before the fold. |
| RttFoldTest.InUnprotectedHalf | test/memory_management/mm_rtt_fold_assigned_ns/mm_rtt_fold_assigned_ns_host.c:45-59 | The IPAs of the mapped block lie in the unprotected half of a 40-bit realm. |
| RttFoldTest.ReadyToMap | test/memory_management/mm_rtt_fold_assigned_ns/mm_rtt_fold_assigned_ns_host.c:45-59 | Page i can be mapped: an unprotected, aligned IPA, a page-aligned host page, and an unassigned leaf. After the first page, its walk already reaches level 3. |
| RttFoldTest.MappedOneMore | test/memory_management/mm_rtt_fold_assigned_ns/mm_rtt_fold_assigned_ns_host.c:45-59 | Mapping page i into the table of the first i pages gives the table of i + 1 pages. |
| RttFoldTest.MapInTable | test/memory_management/mm_rtt_fold_assigned_ns/mm_rtt_fold_assigned_ns_host.c:45-59 | Mapping page i > 0 never fails and allocates nothing: it goes into the table the first page created. |
| RttFoldTest.MapFirst | test/memory_management/mm_rtt_fold_assigned_ns/mm_rtt_fold_assigned_ns_host.c:45-59 | Mapping page 0 creates the tables down to level 3. It succeeds whenever memory for them suffices. |
| RttFoldTest.MapNext | test/memory_management/mm_rtt_fold_assigned_ns/mm_rtt_fold_assigned_ns_host.c:45-59 | One round of the mapping loop maps page i. Only the first round creates tables or can fail. |
| RttFoldTest.MapBlock | test/memory_management/mm_rtt_fold_assigned_ns/mm_rtt_fold_assigned_ns_host.c:45-59 | The loop at point 3 maps all 512 pages of the host range when it succeeds, and it succeeds whenever memory for one set of tables suffices. |
| RttFoldTest.FoldBlock | test/memory_management/mm_rtt_fold_assigned_ns/mm_rtt_fold_assigned_ns_host.c:62-95 | Points 4 to 7 never fail. The level 2 entry read is a table at level 2 and the level 3 read is page 0's entry. RTT_FOLD leaves the block folded and returns the table granule the level 2 entry named. |
| RttFoldTest.ReadFolded | test/memory_management/mm_rtt_fold_assigned_ns/mm_rtt_fold_assigned_ns_host.c:119-155 | Points 11 to 14 never fail. After the fold both IPAs read the pre-fold entry of the first page (state, descriptor and RIPAS) at level 2. |
| RttFoldTest.RecreateTable | test/memory_management/mm_rtt_fold_assigned_ns/mm_rtt_fold_assigned_ns_host.c:157-164 | Point 15 fails exactly when no page is free for the table. Once the table is there, every page of the block has its pre-fold entry back. |
| RttFoldTest.ReadRecreated | test/memory_management/mm_rtt_fold_assigned_ns/mm_rtt_fold_assigned_ns_host.c:166-198 | Points 16 to 19 never fail. The first IPA reads its pre-fold entry, and the second reads that entry with its address 0x80000 further on. |
| RttFoldTest.Prepare | test/memory_management/mm_rtt_fold_assigned_ns/mm_rtt_fold_assigned_ns_host.c:26-59 | Points 1 to 3 fail only for lack of memory, and point 1 exactly when the realm does not fit. On success the realm is NEW with its REC and the whole block is mapped. |
| RttFoldTest.RunRealm | test/memory_management/mm_rtt_fold_assigned_ns/mm_rtt_fold_assigned_ns_host.c:98-117 | REALM_ACTIVATE and REC_ENTER never fail (points 8 and 9). Point 10 fails exactly when the exit is not a host call. |
| RttFoldTest.RttFoldAssignedNsHost | test/memory_management/mm_rtt_fold_assigned_ns/mm_rtt_fold_assigned_ns_host.c:14-206 | mm_rtt_fold_assigned_ns_host fails only for lack of memory (points 1, 2, 3, 15) or at point 10. Given enough memory it passes exactly when the realm's exit is a host call. |
| SetS2apTest.RdIntentArgs | test/command/cmd_rtt_set_s2ap/cmd_rtt_set_s2ap_host.c:274-331 | The RD checks pass the valid arguments with only the RD replaced. They are a preparation error exactly when the RD_STATE_DELEGATED fixture failed. |
| SetS2apTest.RecIntentArgs | test/command/cmd_rtt_set_s2ap/cmd_rtt_set_s2ap_host.c:332-398 | The REC checks pass the valid arguments with only the REC replaced. They are a preparation error exactly when the REC_GRAN_STATE_DELEGATED or REC_OTHER_OWNER fixture failed. |
| SetS2apTest.RangeIntentArgs | test/command/cmd_rtt_set_s2ap/cmd_rtt_set_s2ap_host.c:399-426 | The range checks keep the valid RD and REC. INVALID_SIZE passes top = base, BASE_MISMATCH base + 1, TOP_OUT_OF_BOUND top + PAGE_SIZE and TOP_GRAN_UNALIGNED top - PAGE_SIZE / 2. |
| SetS2apTest.IntentToSeq | test/command/cmd_rtt_set_s2ap/cmd_rtt_set_s2ap_host.c:268-453 | intent_to_seq is a preparation error exactly for an unknown label or a failed fixture of a check that has one. It skips exactly when BASE_AUXILIARY_UNALIGNED's fixture skips. Each label changes only the argument it names; the two BASE_*_UNALIGNED checks pass REC 1, the fixture's base and top = 2 * L2_SIZE. |
| SetS2apTest.RdIntentRefused | test/command/cmd_rtt_set_s2ap/cmd_rtt_set_s2ap_host.c:274-331 | Every refusing RD check passes an address that is not a realm. |
| SetS2apTest.RecIntentRefused | test/command/cmd_rtt_set_s2ap/cmd_rtt_set_s2ap_host.c:332-398 | Every refusing REC check passes an address that is not a REC of the valid realm. |
| SetS2apTest.RangeIntentRefused | test/command/cmd_rtt_set_s2ap/cmd_rtt_set_s2ap_host.c:399-426 | For a page-aligned valid range, every range check passes a range REC 0's pending request does not allow. |
| SetS2apTest.IntentRefused | test/command/cmd_rtt_set_s2ap/cmd_rtt_set_s2ap_host.c:268-453 | Every refusing check's arguments are refused by RMI_RTT_SET_S2AP. |
| SetS2apTest.GranuleFixture | test/command/cmd_rtt_set_s2ap/cmd_rtt_set_s2ap_host.c:295-367 | g_undelegated_prep_sequence and g_delegated_prep_sequence give a fresh granule in the named state, neither a realm nor a REC. They fail exactly when no page is free, and keep REC 0's request and the prepared mappings. |
| SetS2apTest.OtherOwnerFixture | test/command/cmd_rtt_set_s2ap/cmd_rtt_set_s2ap_host.c:39-82 | g_rec_other_owner_prep_sequence gives a REC of a new realm, not of the valid one. It succeeds exactly when that realm fits and its features are supported, and then keeps REC 0's request and the prepared mappings. |
| SetS2apTest.EnterKeepsStore | test/command/cmd_rtt_set_s2ap/cmd_rtt_set_s2ap_host.c:178-198 | Entering a REC other than REC 0 keeps the stored arguments. |
| SetS2apTest.BasePrimaryFixture | test/command/cmd_rtt_set_s2ap/cmd_rtt_set_s2ap_host.c:178-198 | base_primary_unaligned_prep_sequence runs REC 1 and succeeds exactly when it is entered and leaves with an S2AP change request, whose base it returns. The test's exit pointer then shows REC 1's exit. REC 0's request and the prepared mappings are kept. |
| SetS2apTest.BaseAuxFixture | test/command/cmd_rtt_set_s2ap/cmd_rtt_set_s2ap_host.c:200-251 | base_auxiliary_unaligned_prep_sequence skips exactly for a single-tree realm and then changes nothing. Otherwise, on success, REC 1 was entered and the exit pointer shows an S2AP change request, whose base it returns. Mapping REC 1's range and its two calls keep REC 0's request and the prepared mappings. |
| SetS2apTest.SetS2apTwice | test/command/cmd_rtt_set_s2ap/cmd_rtt_set_s2ap_host.c:233-249 | Two RTT_SET_S2AP calls for REC 1 over one range succeed only if the first is accepted. They keep REC 0's request and every mapping. |
| SetS2apTest.RunFixture | test/command/cmd_rtt_set_s2ap/cmd_rtt_set_s2ap_host.c:268-453 | The fixture each check runs keeps the stored arguments, REC 0's request and the prepared mappings unless REC_OTHER_OWNER's failed. It gives what the checks rely on, and skips exactly for BASE_AUXILIARY_UNALIGNED in a single-tree realm. |
| SetS2apTest.OnStepNext | test/command/cmd_rtt_set_s2ap/cmd_rtt_set_s2ap_host.c:152-175 | The step after a step from base is a step from base. |
| SetS2apTest.StepBelow | test/command/cmd_rtt_set_s2ap/cmd_rtt_set_s2ap_host.c:152-175 | Of two steps from one base, one below the other plus a step is at most the other, and a whole step short of it when it differs. |
| SetS2apTest.MappedStep | test/command/cmd_rtt_set_s2ap/cmd_rtt_set_s2ap_host.c:152-175 | A new level 3 leaf for the next step, with the leaves off its path kept, extends the mapped steps by one. |
| SetS2apTest.MappedOtherTree | test/command/cmd_rtt_set_s2ap/cmd_rtt_set_s2ap_host.c:160-175 | Changes confined to another tree keep the mapped steps of a tree. |
| SetS2apTest.MapStep | test/command/cmd_rtt_set_s2ap/cmd_rtt_set_s2ap_host.c:152-158 | One step of the primary mapping loop maps the next step on success and changes only the primary tree, where every level 3 leaf stays one. |
| SetS2apTest.MapRange | test/command/cmd_rtt_set_s2ap/cmd_rtt_set_s2ap_host.c:152-158 | create_mapping for every step of [base, top) maps every step of the primary tree when it succeeds. It changes only that tree, and every level 3 leaf there stays one. |
| SetS2apTest.Level3Grows | test/command/cmd_rtt_set_s2ap/cmd_rtt_set_s2ap_host.c:152-158 | Building the tables for one IPA keeps every level 3 leaf of the tree: leaves off its path are untouched, and a level 3 leaf on its path means nothing needed building. |
| SetS2apTest.TreesMappedBelow | test/command/cmd_rtt_set_s2ap/cmd_rtt_set_s2ap_host.c:160-175 | The auxiliary steps mapped below an IPA include those below any smaller top. |
| SetS2apTest.TreesMappedOther | test/command/cmd_rtt_set_s2ap/cmd_rtt_set_s2ap_host.c:160-175 | Changes confined to one tree keep the mapped steps of every auxiliary tree outside it. |
| SetS2apTest.AuxStep | test/command/cmd_rtt_set_s2ap/cmd_rtt_set_s2ap_host.c:165-169 | val_host_create_aux_mapping builds one auxiliary tree's tables for the next level 2 step, changing only that tree. |
| SetS2apTest.AuxAtStep | test/command/cmd_rtt_set_s2ap/cmd_rtt_set_s2ap_host.c:163-172 | The auxiliary mappings for one level 2 step, in trees 1 to planes, keep the primary mappings and on success extend every auxiliary tree by that step. |
| SetS2apTest.AuxMappings | test/command/cmd_rtt_set_s2ap/cmd_rtt_set_s2ap_host.c:160-175 | The auxiliary mappings for every level 2 step of the range keep the primary mappings and on success map every step in every auxiliary tree. |
| SetS2apTest.PowerOnRec1 | test/command/cmd_rtt_set_s2ap/cmd_rtt_set_s2ap_host.c:84-131 | The valid realm with two RECs is set up and activated, REC 0 asks for CPU_ON, and PSCI_COMPLETE makes REC 1 runnable. It succeeds when memory and features suffice and REC 0 asks for CPU_ON of MPIDR 1, and only then. |
| SetS2apTest.ValidRealmUp | test/command/cmd_rtt_set_s2ap/cmd_rtt_set_s2ap_host.c:84-149 | After PowerOnRec1, REC 0 runs again and must leave with an S2AP change request. REC 0's pending request is then exactly that range, from tree 0. |
| SetS2apTest.ValidPrep | test/command/cmd_rtt_set_s2ap/cmd_rtt_set_s2ap_host.c:84-176 | valid_input_args_prep_sequence stores the valid realm, REC 0 and the range REC 0 asked for. That range is mapped at level 2 steps in the primary tree and, with a tree per plane, in both auxiliary trees. |
| SetS2apTest.CheckRound | test/command/cmd_rtt_set_s2ap/cmd_rtt_set_s2ap_host.c:474-499 | One round of the check loop keeps the stored arguments unless its preparation failed, and sees only what RoundSaw allows: the monitor's refusal for every refusing check. A round that neither failed its preparation nor was accepted keeps REC 0's request and the prepared mappings. |
| SetS2apTest.RoundsSawNext | test/command/cmd_rtt_set_s2ap/cmd_rtt_set_s2ap_host.c:474-499 | What the rounds have seen extends by what one more round saw. |
| SetS2apTest.CheckNext | test/command/cmd_rtt_set_s2ap/cmd_rtt_set_s2ap_host.c:474-499 | One more round of the loop keeps the stored arguments while the loop goes on. While it goes on with no round accepted, REC 0's request and the prepared mappings are kept. |
| SetS2apTest.CheckLoop | test/command/cmd_rtt_set_s2ap/cmd_rtt_set_s2ap_host.c:474-499 | The check loop stops exactly where LoopStop says: point 2 (preparation) or 3 (code). It runs through only when every row was issued, and then keeps the stored arguments. When no round was accepted, it also keeps REC 0's request and the prepared mappings. |
| SetS2apTest.ReadyCall | test/command/cmd_rtt_set_s2ap/cmd_rtt_set_s2ap_host.c:503-515 | A request tracked at a base below top, over pages whose entries are ready, lets the next call start at that base. |
| SetS2apTest.TrackingAfter | test/command/cmd_rtt_set_s2ap/cmd_rtt_set_s2ap_host.c:503-515 | An accepted call keeps the request tracked at the address the call returns. |
| SetS2apTest.ToTopStep | test/command/cmd_rtt_set_s2ap/cmd_rtt_set_s2ap_host.c:503-515 | On a fresh request over ready pages, a call from where the request stands is accepted and keeps it tracked at the address it returns. |
| SetS2apTest.AdvanceToTop | test/command/cmd_rtt_set_s2ap/cmd_rtt_set_s2ap_host.c:503-515 | The positive check as intended: each call starts from the address the previous one returned. For a fresh request over ready pages it reaches top without a refusal, and the request is complete. |
| SetS2apTest.PreparedReady | test/command/cmd_rtt_set_s2ap/cmd_rtt_set_s2ap_host.c:503-515 | While the preparation still holds, a request of that shape is fresh, and every one of its pages is ready on every tree of the valid realm. The positive check then starts on ready pages. |
| SetS2apTest.AsWrittenStep | test/command/cmd_rtt_set_s2ap/cmd_rtt_set_s2ap_host.c:503-515 | One call of the as-written loop, which always passes the valid base, keeps AsWrittenAt one call further on. |
| SetS2apTest.AdvanceAsWritten | test/command/cmd_rtt_set_s2ap/cmd_rtt_set_s2ap_host.c:503-515 | The positive check as written: every call passes the valid base. For a fresh request over ready pages it passes exactly when the calls at the valid base on the last tree cover the whole range. |
| SetS2apTest.TwoPagesOneTree | test/command/cmd_rtt_set_s2ap/cmd_rtt_set_s2ap_host.c:503-515 | With two pages, one tree and one page per call, the as-written loop fails at point 4 while the intended loop completes. |
| SetS2apTest.CmdRttSetS2apHost | test/command/cmd_rtt_set_s2ap/cmd_rtt_set_s2ap_host.c:455-522 | cmd_rtt_set_s2ap_host skips exactly without planes, and fails at point 1 when the valid realm does not fit. A stopping loop gives point 2 or 3; Pass and point 4 come only after a full loop. Point 4 needs an accepted round in the loop when REC 0 asked for a non-empty, page-aligned range from a level 2 boundary in the 40-bit IPA space. A pass leaves REC 0's request at top. |
| PsciCompleteTest.CallingIntentArgs | test/command/cmd_psci_complete/cmd_psci_complete_host.c:132-189 | The checks on the calling REC pass the valid arguments with only the calling REC replaced. They are a preparation error exactly when their granule fixture failed. |
| PsciCompleteTest.TargetIntentArgs | test/command/cmd_psci_complete/cmd_psci_complete_host.c:190-261 | The checks on the target REC pass the valid arguments with only the target REC replaced. TARGET_OTHER_OWNER passes REC 1 of the second realm, TARGET_OTHER_MPIDR passes REC 2, and a failed granule fixture gives a preparation error. |
| PsciCompleteTest.IntentToSeq | test/command/cmd_psci_complete/cmd_psci_complete_host.c:126-275 | intent_to_seq never skips. It is a preparation error exactly for an unknown label or a failed fixture. ALIAS passes the target REC as the calling REC, NO_PSCI_REQUEST passes the second realm's two RECs, and STATUS_NOT_PERMITTED passes PSCI_E_NOT_SUPPORTED. |
| PsciCompleteTest.NotRec | test/command/cmd_psci_complete/cmd_psci_complete_host.c:138-189 | An address that is not a valid granule, or whose granule is not a REC granule, is not a REC. |
| PsciCompleteTest.RecAligned | test/command/cmd_psci_complete/cmd_psci_complete_host.c:138-142 | Every REC granule is page aligned. |
| PsciCompleteTest.CallingIntentRefused | test/command/cmd_psci_complete/cmd_psci_complete_host.c:138-189 | Every refusing calling-REC check passes an address that is not a REC. |
| PsciCompleteTest.TargetIntentRefused | test/command/cmd_psci_complete/cmd_psci_complete_host.c:190-241 | Every refusing target-REC check other than TARGET_OTHER_MPIDR passes an address that is not a REC. |
| PsciCompleteTest.IntentRefused | test/command/cmd_psci_complete/cmd_psci_complete_host.c:126-275 | RMI_PSCI_COMPLETE refuses every refusing check's arguments, TARGET_OTHER_MPIDR whenever REC 0 did not name REC 2's MPIDR. |
| PsciCompleteTest.OtherOwnerRefused | test/command/cmd_psci_complete/cmd_psci_complete_host.c:250-254 | After NO_PSCI_REQUEST has created the second realm, TARGET_OTHER_OWNER passes a REC of another realm, which the monitor refuses. |
| PsciCompleteTest.ValidCompletion | test/command/cmd_psci_complete/cmd_psci_complete_host.c:309-319 | While REC 0's request is pending, completing it with the valid arguments succeeds exactly when REC 0 asked for REC 1's MPIDR. |
| PsciCompleteTest.SecondRealm | test/command/cmd_psci_complete/cmd_psci_complete_host.c:34-65 | g_calling_rec_no_request_prep_sequence succeeds exactly when there is room for a realm with two RECs. Its REC 0 has no pending request, its REC 1 belongs to a realm other than every earlier one, and every earlier realm and REC is unchanged. |
| PsciCompleteTest.RunFixture | test/command/cmd_psci_complete/cmd_psci_complete_host.c:126-275 | The fixture each check runs keeps the stored arguments and whether REC 0's request is pending. A fixture fails exactly when memory runs out, and checks without a fixture change nothing. |
| PsciCompleteTest.ValidPrep | test/command/cmd_psci_complete/cmd_psci_complete_host.c:72-124 | valid_input_args_prep_sequence fails when there is no room for the realm with three RECs, or when REC 0 does not leave with CPU_ON. On success the store holds and REC 0's CPU_ON request, for the MPIDR in its exit, is pending. |
| PsciCompleteTest.CompletionKeeps | test/command/cmd_psci_complete/cmd_psci_complete_host.c:299 | A PSCI_COMPLETE call, accepted or not, keeps the store and the second realm. A refused call keeps REC 0's request pending. |
| PsciCompleteTest.Issue | test/command/cmd_psci_complete/cmd_psci_complete_host.c:294-306 | One round after its fixture sees only what RoundSaw allows. TARGET_OTHER_OWNER after NO_PSCI_REQUEST sees the refusal, and only an accepted call changes REC 0's request. |
| PsciCompleteTest.CheckRound | test/command/cmd_psci_complete/cmd_psci_complete_host.c:289-307 | One round of the check loop keeps the store and sees only what RoundSaw allows. Only an accepted call changes REC 0's request. |
| PsciCompleteTest.RoundsSawNext | test/command/cmd_psci_complete/cmd_psci_complete_host.c:289-307 | What the rounds have seen, and whether any saw the command accepted, extends by one more round. |
| PsciCompleteTest.CheckNext | test/command/cmd_psci_complete/cmd_psci_complete_host.c:289-307 | One more round appended to the loop keeps the loop state. While the loop goes on, it stops where that round's code says. |
| PsciCompleteTest.CheckLoop | test/command/cmd_psci_complete/cmd_psci_complete_host.c:289-307 | The check loop stops exactly where LoopStop says: point 2 (preparation) or 3 (code). It runs through only when every row was issued. When no round was accepted, REC 0's request is still pending. |
| PsciCompleteTest.CompleteValid | test/command/cmd_psci_complete/cmd_psci_complete_host.c:309-319 | The positive check succeeds, while REC 0's request is pending, exactly when REC 0 asked for REC 1's MPIDR. Success leaves REC 0 with no request and REC 1 runnable. |
| PsciCompleteTest.CmdPsciCompleteHost | test/command/cmd_psci_complete/cmd_psci_complete_host.c:277-325 | cmd_psci_complete_host fails at point 1 exactly when the valid realm cannot be prepared. A stopping loop gives point 2 or 3, and Pass or point 4 come only after a full loop. When no check was accepted, it passes exactly when REC 0 asked to power on REC 1. |
| RecDestroyTest.ValidPrep | test/command/cmd_rec_destroy/cmd_rec_destroy_host.c:80-107 | rec_valid_prep_sequence succeeds exactly when there is memory for a realm and one REC. Its REC, created with all-zero parameters, is not runnable and belongs to the stored, not yet activated realm. |
| RecDestroyTest.RecAuxGranules | test/command/cmd_rec_destroy/cmd_rec_destroy_host.c:32-70 | The granules the REC_GRAN_STATE_REC_AUX fixture gives REC_CREATE are there exactly when memory holds the REC, its parameters and the RECAUX count's auxiliary granules. Those granules are fresh and acceptable to REC_CREATE. A failed parameter allocation fails the fixture, as intended. |
| RecDestroyTest.ParamsAsWritten | test/command/cmd_rec_destroy/cmd_rec_destroy_host.c:35-52 | The fixture's allocations as written: the REC granule is there exactly when memory holds one page. The parameter pointer is null, and is still written through, exactly when memory holds one page but not two. |
| RecDestroyTest.RecGranuleOnly | test/command/cmd_rec_destroy/cmd_rec_destroy_host.c:42-52 | With room for the REC granule alone, the as-written fixture writes through a null parameter pointer, and the corrected one fails its preparation. |
| RecDestroyTest.RecAuxFixture | test/command/cmd_rec_destroy/cmd_rec_destroy_host.c:32-78 | g_rec_aux_prep_sequence succeeds exactly when that memory is there, and it keeps the realm, its root table and, if it was there, the valid REC. The address it returns is a REC_AUX granule when the count is positive, and the never-written parameter slot otherwise. |
| RecDestroyTest.IntentToSeq | test/command/cmd_rec_destroy/cmd_rec_destroy_host.c:118-168 | intent_to_seq gives each label's address: the unaligned REC, the first address outside the PA space, device memory, the RD or the root table. The UNDELEGATED and REC_AUX cases give granules in that state. Every address it gives, except an unset auxiliary slot, is refused by REC_DESTROY. |
| RecDestroyTest.CheckRound | test/command/cmd_rec_destroy/cmd_rec_destroy_host.c:180-197 | One round of the check loop sees only what RoundSaw allows. It keeps the realm and its root table. A round whose command was refused keeps the state and the valid REC. |
| RecDestroyTest.RoundsSawNext | test/command/cmd_rec_destroy/cmd_rec_destroy_host.c:180-197 | What the rounds have seen extends by one more round, and so does whether no round was accepted. |
| RecDestroyTest.CheckLoop | test/command/cmd_rec_destroy/cmd_rec_destroy_host.c:180-197 | The check loop stops exactly where LoopStop says: point 2 (preparation) or 3 (code). When it runs through, every row was issued. If no round was accepted, the valid REC is still there. |
| RecDestroyTest.AcceptedRound | test/command/cmd_rec_destroy/cmd_rec_destroy_host.c:180-206 | A loop that ran through with a round accepted had REC_AUX in that row, expecting SUCCESS, on a platform without auxiliary granules. |
| RecDestroyTest.CmdRecDestroyHost | test/command/cmd_rec_destroy/cmd_rec_destroy_host.c:170-212 | cmd_rec_destroy_host, with the point 1 check as intended, fails at point 1 exactly when the valid REC cannot be made. After that, a stopping loop gives point 2 or 3. A loop that runs through with no round accepted passes. Point 4 comes only after an accepted REC_AUX row that expects SUCCESS, on a platform without auxiliary granules. A pass leaves the valid REC destroyed and its granule delegated. |
| RecDestroyTest.ValidInputArgs | test/command/cmd_rec_destroy/cmd_rec_destroy_host.c:109-116 | valid_input_args_prep_sequence as written returns VAL_ERROR when the valid REC cannot be made and VAL_SUCCESS otherwise. On failure the stored REC is the VAL_TEST_PREP_SEQ_FAILED sentinel. |
| RecDestroyTest.FirstCheckAsWritten | test/command/cmd_rec_destroy/cmd_rec_destroy_host.c:175-178 | As written, the driver stops at point 1 only if VAL_ERROR equals VAL_TEST_PREP_SEQ_FAILED. Without memory, and with distinct codes, it goes on with the sentinel as the valid REC. |
| SystemResetTest.EnterCode | test/command/cmd_system_reset/cmd_system_reset_host.c:32-62 | REC_ENTER's code is SUCCESS exactly when the REC ran, (ERROR_REALM, 1) for a REC of a switched-off realm, and the monitor's refusal otherwise. |
| SystemResetTest.FirstEntry | test/command/cmd_system_reset/cmd_system_reset_host.c:17-38 | Setting up an active realm with one REC succeeds exactly when there is room for it, and the first REC_ENTER then always runs. The exit is what the realm's code did, and a SYSTEM_RESET exit leaves the realm off. |
| SystemResetTest.CmdSystemResetHost | test/command/cmd_system_reset/cmd_system_reset_host.c:11-69 | cmd_system_reset_host fails at point 1 exactly without room. Otherwise it passes exactly when the first exit is a PSCI SYSTEM_RESET, and then the second REC_ENTER returns (ERROR_REALM, 1). Points 2 and 4 are never reached. |
| MultithreadRealmUpTest.PowerOn | test/command/cmd_multithread_realm_up/cmd_multithread_realm_up_host.c:15-54 | Setting up an active realm with two RECs fails at point 1 exactly without room. Otherwise the first exit is what REC 0's code did. Point 3 comes exactly when that exit is not CPU_ON, and point 4 exactly when it names an MPIDR other than 1. Success leaves both RECs runnable in one realm. |
| MultithreadRealmUpTest.PowerOff | test/command/cmd_multithread_realm_up/cmd_multithread_realm_up_host.c:56-86 | REC 1's exit fails point 6 exactly when it is not CPU_OFF. After that, REC 0's exit fails point 8 exactly when it is not a host call. The entries never fail, and success leaves REC 1 not runnable and REC 0 with no request. |
| MultithreadRealmUpTest.CmdMultithreadRealmUpHost | test/command/cmd_multithread_realm_up/cmd_multithread_realm_up_host.c:10-93 | cmd_multithread_realm_up_host fails at point 1 exactly without room. Each exit it records is what the realm's code did. A pass means the exits were CPU_ON for MPIDR 1, then CPU_OFF, then a host call, after which REC 1 is off and REC 0 has nothing pending. With room, that realm behaviour always passes. |
| HaHdAccessTest.FreshRealmReady | test/memory_management/mm_ha_hd_access/mm_ha_hd_access_host.c:28-53 | In a new default realm without tables, PROTECTED_IPA can have its RIPAS initialised from the root. |
| HaHdAccessTest.NsSharedRegion | test/memory_management/mm_ha_hd_access/mm_ha_hd_access_host.c:90-97 | val_host_map_ns_shared_region keeps the state invariant. A mapping happens only at an unprotected IPA of the realm, and never with DBM among the attributes. |
| HaHdAccessTest.NewRealm | test/memory_management/mm_ha_hd_access/mm_ha_hd_access_host.c:24-33 | val_host_realm_setup without activation succeeds exactly when there is room. It gives a new default realm with no tables and one runnable REC with nothing pending. |
| HaHdAccessTest.RealmAndPages | test/memory_management/mm_ha_hd_access/mm_ha_hd_access_host.c:24-42 | The realm fails point 1 exactly without room for it, and the two-page allocation fails point 2. With room for both and the tables, neither fails, and the allocation gives two undelegated pages that can back PROTECTED_IPA. |
| HaHdAccessTest.DataSetup | test/memory_management/mm_ha_hd_access/mm_ha_hd_access_host.c:24-54 | After the realm and the allocation, val_host_map_protected_data_to_realm fails point 3. With enough memory nothing fails, and PROTECTED_IPA then walks to a level 3 data entry for the allocation's second page. |
| HaHdAccessTest.MmHaHdAccessHost | test/memory_management/mm_ha_hd_access/mm_ha_hd_access_host.c:14-104 | mm_ha_hd_access_host fails at point 1 exactly without room for the realm. With enough memory it passes exactly when the realm's first exit is a host call, which then resumes with PROTECTED_IPA in gprs[1]. Points 4, 5, 7 and 8 are never reached. |
| RipasChangeRejectTest.StopAt | test/memory_management/mm_ripas_change_reject/mm_ripas_change_reject_realm.c:27-61 | An accepted change under a flag changes every page up to the first one that may not change (a DESTROYED page under RSI_NO_CHANGE_DESTROYED), or up to top. It stops at that page. |
| RipasChangeRejectTest.SetRange | test/memory_management/mm_ripas_change_reject/mm_ripas_change_reject_realm.c:27-61 | After the change, every page of the range has the new RIPAS and every other page is unchanged. |
| RipasChangeRejectTest.RunEnd | test/memory_management/mm_ripas_change_reject/mm_ripas_change_reject_realm.c:36 | The end of the run that starts at base lies in (base, top]. Every page before it shares the RIPAS of base, and the page at it, when below top, does not. |
| RipasChangeRejectTest.RunFrom | test/memory_management/mm_ripas_change_reject/mm_ripas_change_reject_realm.c:36 | Scanning from a page after base finds the first page below top whose RIPAS differs from base's, or top. |
| RipasChangeRejectTest.IpaStateSet | test/memory_management/mm_ripas_change_reject/mm_ripas_change_reject_realm.c:27-61 | RSI_IPA_STATE_SET succeeds exactly for a page-aligned, non-empty range, and an error changes nothing. A request the host rejects returns the base and changes nothing. An accepted one changes the pages up to StopAt to the new RIPAS and returns that address. |
| RipasChangeRejectTest.IpaStateGet | test/memory_management/mm_ripas_change_reject/mm_ripas_change_reject_realm.c:36 | RSI_IPA_STATE_GET succeeds exactly for a page-aligned, non-empty range. It returns the RIPAS at base and the end of the run that shares it. |
| RipasChangeRejectTest.MmRipasChangeRejectRealm | test/memory_management/mm_ripas_change_reject/mm_ripas_change_reject_realm.c:11-65 | Point 1 comes exactly for a bad range or an accepted first change whose first page is not DESTROYED. A pass means base was RAM and the host accepted the second and third requests. It changes exactly the first two pages, to RAM. In the setting the test is written for, with the host rejecting the first request, the test passes. |
| RipasChangeRejectTest.IntendedSetting | test/memory_management/mm_ripas_change_reject/mm_ripas_change_reject_realm.c:43-61 | When the first two pages are RAM and the third is DESTROYED, the second request changes both pages. The third request, under RSI_NO_CHANGE_DESTROYED, stops at the DESTROYED page. |
| PlanesIaRipasDestroyedTest.PlaneParams | test/planes/exception/planes_rec_exit_ia_ripas_destroyed/planes_rec_exit_ia_ripas_destroyed_host.c:37-46 | The test's realm has 40-bit IPAs and one auxiliary plane, with a tree per plane unless the monitor supports a single shared tree. Such a realm can be created exactly when the monitor supports planes and one of those two tree modes. |
| PlanesIaRipasDestroyedTest.PlaneRealm | test/planes/exception/planes_rec_exit_ia_ripas_destroyed/planes_rec_exit_ia_ripas_destroyed_host.c:49-55 | val_host_realm_setup without activation succeeds exactly when there is room and the features are supported. It gives a new realm with the test's parameters, no tables and one runnable REC with nothing pending. |
| PlanesIaRipasDestroyedTest.FreshPlaneRealm | test/planes/exception/planes_rec_exit_ia_ripas_destroyed/planes_rec_exit_ia_ripas_destroyed_host.c:57-71 | In a new 40-bit realm without tables, TEST_IPA reads as an unassigned, EMPTY root entry in every tree, and its RIPAS can be initialised. |
| PlanesIaRipasDestroyedTest.MapsDataKept | test/planes/exception/planes_rec_exit_ia_ripas_destroyed/planes_rec_exit_ia_ripas_destroyed_host.c:71-95 | Changes confined to plane 1's tree keep the primary tree's mapping of the data page. |
| PlanesIaRipasDestroyedTest.PlaneTables | test/planes/exception/planes_rec_exit_ia_ripas_destroyed/planes_rec_exit_ia_ripas_destroyed_host.c:71 | The tables of plane 1's tree for an IPA are built down to level 3, given room and the tree. The leaf keeps its state, and only plane 1's tree changes. |
| PlanesIaRipasDestroyedTest.MirrorToPlane | test/planes/exception/planes_rec_exit_ia_ripas_destroyed/planes_rec_exit_ia_ripas_destroyed_host.c:71 | The plane's mapping copies the primary tree's data leaf into plane 1's tree when that tree's leaf is unassigned and there is room. Only plane 1's tree changes. |
| PlanesIaRipasDestroyedTest.TwoPages | test/planes/exception/planes_rec_exit_ia_ripas_destroyed/planes_rec_exit_ia_ripas_destroyed_host.c:58-65 | The two-page allocation succeeds exactly when there are two pages of room. It gives two fresh undelegated pages, and TEST_IPA stays unmapped. |
| PlanesIaRipasDestroyedTest.PrimaryPage | test/planes/exception/planes_rec_exit_ia_ripas_destroyed/planes_rec_exit_ia_ripas_destroyed_host.c:58-77 | The allocation fails point 2 and the mapping point 3. With enough room neither fails, and TEST_IPA is then mapped to the data page in the primary tree only. |
| PlanesIaRipasDestroyedTest.ProtectedPage | test/planes/exception/planes_rec_exit_ia_ripas_destroyed/planes_rec_exit_ia_ripas_destroyed_host.c:57-77 | Given the memory, the protected page is mapped at TEST_IPA in the primary tree. With a tree per plane it is also mapped in the plane's tree, and while that alias lives DATA_DESTROY refuses the page. |
| PlanesIaRipasDestroyedTest.UnmapPlane | test/planes/exception/planes_rec_exit_ia_ripas_destroyed/planes_rec_exit_ia_ripas_destroyed_host.c:86-93 | RTT_AUX_UNMAP_PROTECTED is accepted exactly when the monitor allows it, and the tree then no longer maps the page. Every other tree is unchanged. |
| PlanesIaRipasDestroyedTest.UnmapPlanes | test/planes/exception/planes_rec_exit_ia_ripas_destroyed/planes_rec_exit_ia_ripas_destroyed_host.c:79-95 | The loop over the planes' trees changes only those trees. It never stops at point 4 when every plane's tree maps the page, and when it runs through no plane's tree maps it. |
| PlanesIaRipasDestroyedTest.ClearPlanes | test/planes/exception/planes_rec_exit_ia_ripas_destroyed/planes_rec_exit_ia_ripas_destroyed_host.c:79-95 | Given the mapping the preparation leaves, the unmapping never stops at point 4, and DATA_DESTROY of TEST_IPA is then allowed. |
| PlanesIaRipasDestroyedTest.DestroyPrimary | test/planes/exception/planes_rec_exit_ia_ripas_destroyed/planes_rec_exit_ia_ripas_destroyed_host.c:97-103 | DATA_DESTROY of TEST_IPA is accepted. It leaves the page UNASSIGNED with RIPAS DESTROYED and the data granule delegated. |
| PlanesIaRipasDestroyedTest.DestroyPage | test/planes/exception/planes_rec_exit_ia_ripas_destroyed/planes_rec_exit_ia_ripas_destroyed_host.c:79-103 | Unmapping and destruction never fail at point 4 or 5. The page is left DESTROYED and its granule delegated. |
| PlanesIaRipasDestroyedTest.PageDestroyedKept | test/planes/exception/planes_rec_exit_ia_ripas_destroyed/planes_rec_exit_ia_ripas_destroyed_host.c:105-166 | A destroyed page stays destroyed while the realm's parameters and the tables stay. |
| PlanesIaRipasDestroyedTest.PageReady | test/planes/exception/planes_rec_exit_ia_ripas_destroyed/planes_rec_exit_ia_ripas_destroyed_host.c:152-157 | On a destroyed page an RTT_SET_S2AP call can start at TEST_IPA on every tree. |
| PlanesIaRipasDestroyedTest.FirstRun | test/planes/exception/planes_rec_exit_ia_ripas_destroyed/planes_rec_exit_ia_ripas_destroyed_host.c:105-123 | REALM_ACTIVATE and the first REC_ENTER never fail (points 6 and 7). The exit is what the realm's code did, and after a host call the REC can be entered again. |
| PlanesIaRipasDestroyedTest.RequestS2ap | test/planes/exception/planes_rec_exit_ia_ripas_destroyed/planes_rec_exit_ia_ripas_destroyed_host.c:113-150 | Point 8 comes exactly when the first exit is not a host call. Otherwise REC 0 resumes with TEST_IPA and PAGE_SIZE in gprs[1..2] (point 9 is never reached), and point 10 comes exactly when its exit is not an S2AP change request. |
| PlanesIaRipasDestroyedTest.S2apToTop | test/planes/exception/planes_rec_exit_ia_ripas_destroyed/planes_rec_exit_ia_ripas_destroyed_host.c:152-157 | val_host_set_s2ap's calls change only the RECs. A one-page request at TEST_IPA is carried out in full and leaves REC 0 ready to run with the request complete. |
| PlanesIaRipasDestroyedTest.LastRun | test/planes/exception/planes_rec_exit_ia_ripas_destroyed/planes_rec_exit_ia_ripas_destroyed_host.c:152-166 | The REC_ENTER after the change succeeds exactly when the REC can be entered. A plane's fetch at TEST_IPA then exits with an instruction abort at TEST_IPA. |
| PlanesIaRipasDestroyedTest.ApplyS2ap | test/planes/exception/planes_rec_exit_ia_ripas_destroyed/planes_rec_exit_ia_ripas_destroyed_host.c:152-166 | For a one-page request at TEST_IPA, point 11 is never reached. Point 12 comes exactly when the exit is not an instruction abort at TEST_IPA, and a plane's fetch there gives that abort. |
| PlanesIaRipasDestroyedTest.PreparePage | test/planes/exception/planes_rec_exit_ia_ripas_destroyed/planes_rec_exit_ia_ripas_destroyed_host.c:34-103 | The preparation fails point 1 exactly without room or features, and with enough memory not at 2 or 3. On success TEST_IPA is DESTROYED, the realm is new, and its REC is runnable. |
| PlanesIaRipasDestroyedTest.PlanesRecExitIaRipasDestroyedHost | test/planes/exception/planes_rec_exit_ia_ripas_destroyed/planes_rec_exit_ia_ripas_destroyed_host.c:14-173 | planes_rec_exit_ia_ripas_destroyed_host skips exactly without planes, and fails at point 1 exactly without room or features. Each failure point names what the exits showed. With enough memory, passes exactly for a host call, a one-page S2AP request at TEST_IPA and a plane's fetch there. |
| AttestationRecExitIrqTest.Wrap | test/attestation_measurement/attestation_rec_exit_irq/attestation_rec_exit_irq_realm.c:68-69 | uint64_t arithmetic: a value already in range is unchanged. |
| AttestationRecExitIrqTest.WrapAdd | test/attestation_measurement/attestation_rec_exit_irq/attestation_rec_exit_irq_realm.c:69 | Adding to a wrapped sum and wrapping once gives the same uint64_t value as wrapping only at the end. |
| AttestationRecExitIrqTest.Lengths | test/attestation_measurement/attestation_rec_exit_irq/attestation_rec_exit_irq_realm.c:69 | The token size the calls add up is a sum of returned lengths, never negative. |
| AttestationRecExitIrqTest.LengthsAppend | test/attestation_measurement/attestation_rec_exit_irq/attestation_rec_exit_irq_realm.c:69 | The lengths of two runs of calls add up. |
| AttestationRecExitIrqTest.LinkedAppend | test/attestation_measurement/attestation_rec_exit_irq/attestation_rec_exit_irq_realm.c:54-78 | Two linked runs of calls, the first call of the second following the last of the first, form one linked run. |
| AttestationRecExitIrqTest.AnsweredAppend | test/attestation_measurement/attestation_rec_exit_irq/attestation_rec_exit_irq_realm.c:61-62 | Two runs of calls answered by consecutive replies form one answered run. |
| AttestationRecExitIrqTest.FetchedAppend | test/attestation_measurement/attestation_rec_exit_irq/attestation_rec_exit_irq_realm.c:36-90 | Calls made after calls, the first following the last before, extend what was fetched: the replies, the links and the token size. |
| AttestationRecExitIrqTest.SizeAppend | test/attestation_measurement/attestation_rec_exit_irq/attestation_rec_exit_irq_realm.c:69 | Wrapping the token size after each run gives the wrapped sum of every length. |
| AttestationRecExitIrqTest.ContinueCall | test/attestation_measurement/attestation_rec_exit_irq/attestation_rec_exit_irq_realm.c:57-69 | One RSI_ATTESTATION_TOKEN_CONTINUE call asks for the rest of the page from the offset and takes the next reply's status. It adds the returned length to the offset and the token size, and follows the call before. |
| AttestationRecExitIrqTest.PageCalls | test/attestation_measurement/attestation_rec_exit_irq/attestation_rec_exit_irq_realm.c:55-71 | The inner loop starts at offset 0 in one granule and stops only where the source's condition fails: a status other than INCOMPLETE, or an offset at PAGE_SIZE. It stops short only when the replies run out. |
| AttestationRecExitIrqTest.TokenPass | test/attestation_measurement/attestation_rec_exit_irq/attestation_rec_exit_irq_realm.c:54-78 | The middle loop stays in one pass, from its first granule at offset 0. It ends exactly as PassEnd says: not INCOMPLETE at the last call's granule, or INCOMPLETE with the page full and the next granule outside the token. |
| AttestationRecExitIrqTest.NextPass | test/attestation_measurement/attestation_rec_exit_irq/attestation_rec_exit_irq_realm.c:36-90 | The calls of a new pass, appended to those of earlier passes whose INIT succeeded, keep every call in a successful pass. The last call is the new pass's last. |
| AttestationRecExitIrqTest.RunPass | test/attestation_measurement/attestation_rec_exit_irq/attestation_rec_exit_irq_realm.c:52-88 | One pass after a successful INIT extends the fetched calls from the granule the previous pass ended at. When it finishes, its last call ends the pass as PassEnd says. |
| AttestationRecExitIrqTest.AttestationRecExitIrqRealm | test/attestation_measurement/attestation_rec_exit_irq/attestation_rec_exit_irq_realm.c:14-94 | attestation_rec_exit_irq_realm fails at point 1 exactly when a pass's INIT fails, before any CONTINUE call of it. It fails at point 2 when a pass's last status is not SUCCESS, and with INCOMPLETE only once the token is full. It passes after the requested number of passes, each ended with SUCCESS, and the token size sums every returned length. |
| AttestationRecExitIrqTest.CallsWithinPage | test/attestation_measurement/attestation_rec_exit_irq/attestation_rec_exit_irq_realm.c:55-57 | Every call starts inside its page and asks for exactly the rest of it. |
| AttestationRecExitIrqTest.OffsetWithinPage | test/attestation_measurement/attestation_rec_exit_irq/attestation_rec_exit_irq_realm.c:68-71 | When the monitor never returns more than was asked for, the offset after each call is the old offset plus the length, and at most PAGE_SIZE. |
| AttestationRecExitIrqTest.GranuleAligned | test/attestation_measurement/attestation_rec_exit_irq/attestation_rec_exit_irq_realm.c:73-76 | Every call's granule is a page-aligned offset into the token buffer. |
| AttestationRecExitIrqTest.GranulesGrow | test/attestation_measurement/attestation_rec_exit_irq/attestation_rec_exit_irq_realm.c:73-78 | Granules never move back: a later call is at the same or a later granule. |
| AttestationRecExitIrqTest.GranuleStep | test/attestation_measurement/attestation_rec_exit_irq/attestation_rec_exit_irq_realm.c:73-78 | A call at a new granule continues the same pass, after a page left full and INCOMPLETE. It starts at offset 0 of the next page of the token, which lies inside the token. |
| AttestationRecExitIrqTest.AsWrittenLeavesToken | test/attestation_measurement/attestation_rec_exit_irq/attestation_rec_exit_irq_realm.c:73-78 | With granule a uint64_t pointer, granule += PAGE_SIZE steps 8 pages, and token + max_size lies 8 * max_size bytes on. For a token of two to eight pages, the loop as written goes on after the first page, as intended, but at a granule past the token's end. The intended step goes on at the second page, inside the token. |
| AttestationRecExitIrqTest.AsWrittenSamePages | test/attestation_measurement/attestation_rec_exit_irq/attestation_rec_exit_irq_realm.c:73-78 | After any number of moves, the as-written granule is 8 times the intended one, and it is within its as-written bound exactly when the intended one is within max_size. The loop as written visits as many pages as intended; only the addresses differ. |

## Left out

- The monitor is a value (`Monitor.State`) that every command takes and returns. It is not an object updated in place, because the frame reasoning of a heap-based monitor is too costly to verify. Aliasing between the test's handles and the monitor's state is therefore not modelled.
- The monitor's own implementation is not part of this model. Its commands state only what the tests observe: a refusal is some code other than SUCCESS, and error precedence and exact error codes are not modelled.
- The expected (status, index) tables of the `rmi_*_data.h` headers are not part of this model. The check loops take them, and the codes a refusing monitor returns, as inputs.
- The bodies of the following framework helpers are not part of this model. Each is modelled from its name and its callers' use:
  - `val_host_realm_setup`: `Host.RealmSetup` with default parameters s2sz 40, starting level 0 and no planes;
  - `val_host_realm_create_common` and `val_host_rec_create_common`;
  - `val_host_map_protected_data_to_realm`: `Host.MapProtectedData`;
  - `val_host_map_unprotected` and `val_host_map_ns_shared_region`: `Host.MapUnprotected`;
  - `val_host_create_rtt_levels` and `create_mapping`;
  - the `g_*_prep_sequence` fixtures;
  - `ipa_protected_assigned_empty_prep_sequence`, modelled as `Host.CreateData`;
  - `val_host_set_s2ap` and `val_host_create_aux_mapping`;
  - `validate_rec_exit_ia`.
- The SMC wrappers `val_host_rmi_*` and `val_realm_rsi_*` are the monitor's commands; their encodings and register conventions are not modelled.
- What the realm's code does when a REC runs is an input (`RealmStep`). The realm-side parts of the host tests are not part of this model.
- `LOG`, `val_set_status` and the framework's status bookkeeping are not modelled; a test's outcome is its `Verdict`.
- Memory allocation is a bump allocator that returns fresh, page-aligned host pages. Running out of memory is modelled; fragmentation and freeing are not.
- GranuleUndelegateTest.GranuleUndelegateHost: the realm destruction after the last check (`val_host_realm_destroy`, point 12) is left out, because it is resource cleanup whose body is not shown. The test passes once the wipe sequence holds.
- HaHdAccessTest.MmHaHdAccessHost: the hardware access-flag and dirty-state updates the realm's accesses cause are not modelled, because they are hardware behaviour. The test's visible effect, the refused DBM mapping, is.
- RipasChangeRejectTest: RIPAS is kept as a map of its own and not as the monitor's translation tables, because the realm side sees only RSI_IPA_STATE_SET and RSI_IPA_STATE_GET. The host's answers are inputs.
- PlanesIaRipasDestroyedTest.LastRun: a plane's instruction fetch is modelled against the primary tree's RIPAS at the address, because plane execution is not modelled.
- SetS2apTest.IntentRefused: no refusal is claimed for the RD_STATE_DATA and REC_GRAN_STATE_DATA checks, which pass the realm image that this model does not lay out. The same holds for the two BASE_*_UNALIGNED checks, which depend on what the realm asks for.
- PsciCompleteTest.IntentRefused: no refusal is claimed for the two DATA checks, which pass the realm image. TARGET_OTHER_MPIDR is claimed only when REC 0 did not name REC 2's MPIDR; TARGET_OTHER_OWNER has its own lemma, OtherOwnerRefused.
- RecDestroyTest.RecAuxGranules: the fixture fails its preparation when the parameter page cannot be allocated. The source does not check that allocation and writes through the pointer it got (see Findings). With room for the REC granule alone, the model reports a preparation failure where the source's behaviour is undefined. RecDestroyTest.ParamsAsWritten models the unchecked allocation.
- RecDestroyTest.RecAuxFixture: its "succeeds exactly when memory holds the REC, its parameters and the auxiliary granules" is the corrected fixture's. The as-written one, with room for one page but not two, writes through a null pointer, as RecDestroyTest.RecGranuleOnly states.
- RecDestroyTest.IntentToSeq: when the monitor reports no auxiliary granules, the REC_AUX check passes a parameter slot that was never written, so no refusal is claimed for it.
- SetS2apTest: the realm image used by the DATA checks is an input address, not a laid-out image.
- AttestationRecExitIrqTest.AttestationRecExitIrqRealm: the shared-memory flags and the host's concurrent reads of them are not modelled, because they are cross-world concurrency. The outer loop runs for a given number of passes (`rounds`).
- AttestationRecExitIrqTest.AttestationRecExitIrqRealm: the token's contents and the challenge are not modelled, and neither is the bound MAX_REALM_CCA_TOKEN_SIZE on the stack buffer.
- AttestationRecExitIrqTest.AttestationRecExitIrqRealm: the granule is modelled as a byte offset into the token, stepping a page at a time, as the loop evidently intends (see Findings). The model does not capture the as-written 8-page step or 64-bit pointer overflow.
- AttestationRecExitIrqTest.AttestationRecExitIrqRealm: when the monitor's replies run out, the model gives no verdict (`v == None`).
- RecDestroyTest.CmdRecDestroyHost and SetS2apTest.CmdRttSetS2apHost use the corrected checks of Findings. The code as written is modelled by the as-written members named there.

## Findings

| source | as written | input that shows it | evidently intended | confidence | as-written member | corrected member |
|---|---|---|---|---|---|---|
| test/command/cmd_rtt_set_s2ap/cmd_rtt_set_s2ap_host.c:503-515 | The positive loop passes `c_args.base_valid` in every RTT_SET_S2AP call. It keeps only the returned `x1` in `base`. | A fresh request over two pages, in a realm with one tree, on a monitor that processes one page per call. The first call returns base + PAGE_SIZE; the second still names the old base and is refused (point 4). | Each call starts from the `base` the previous call returned, so the loop reaches `top_valid` | not executed | SetS2apTest.AdvanceAsWritten, SetS2apTest.TwoPagesOneTree | SetS2apTest.AdvanceToTop |
| test/command/cmd_rec_destroy/cmd_rec_destroy_host.c:175-178 | `valid_input_args_prep_sequence` returns VAL_ERROR when the valid REC cannot be made. `cmd_rec_destroy_host` stops at point 1 only when the result equals VAL_TEST_PREP_SEQ_FAILED. | No memory for the valid realm and REC, with VAL_ERROR distinct from VAL_TEST_PREP_SEQ_FAILED. The test goes on into the check loop with the sentinel as the valid REC. | A failed preparation stops the test at point 1 | not executed | RecDestroyTest.ValidInputArgs, RecDestroyTest.FirstCheckAsWritten | RecDestroyTest.CmdRecDestroyHost |
| test/attestation_measurement/attestation_rec_exit_irq/attestation_rec_exit_irq_realm.c:73-78 | `granule` is a `uint64_t *`, so `granule += PAGE_SIZE` moves 8 * PAGE_SIZE bytes. `token + max_size` lies 8 * max_size bytes on, so the loop takes as many pages as intended. What is wrong is the address handed to RSI_ATTESTATION_TOKEN_CONTINUE: page k of the token is asked for at 8 * k * PAGE_SIZE bytes into it. | max_size = 2 * PAGE_SIZE, with the first page left full and INCOMPLETE. The second page's call names a granule 8 pages on, outside `token[]`, which holds at most MAX_REALM_CCA_TOKEN_SIZE bytes. The same holds whenever that size is at most 8 pages. | Each call names the next page of the token, inside `token[]`, and the loop stops once that page lies past max_size bytes | not executed | AttestationRecExitIrqTest.AsWrittenLeavesToken, AttestationRecExitIrqTest.AsWrittenSamePages | AttestationRecExitIrqTest.GranuleStep |
| test/command/cmd_rec_destroy/cmd_rec_destroy_host.c:42-52 | `g_rec_aux_prep_sequence` does not check the pointer `val_host_mem_alloc` returns for the REC's parameters. It writes the GPRs, pc, flags and mpidr through it. Other fixtures of the suite check their allocations. | Free memory for exactly one page: the REC granule is delegated, the parameter allocation returns null, and the fixture writes through it. | A failed allocation returns VAL_TEST_PREP_SEQ_FAILED, as the fixture's other failures do | not executed | RecDestroyTest.ParamsAsWritten, RecDestroyTest.RecGranuleOnly | RecDestroyTest.RecAuxGranules |
