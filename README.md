# Player-synced shared memory for rFactor 2: a Dafny model

`SimInfoSync` reads the rFactor 2 shared-memory regions (telemetry, scoring,
extended, force feedback) that the simulator writes without any locking. A
background loop copies the regions on every tick. It publishes the scoring
and telemetry copies only when they are consistent and belong to the local
player. It also watches the scoring version stamp: a stamp that stops moving
makes it remap the regions, and if the stamp then stays unchanged the
published data is restored to the defaults taken at mapping time.

The model has three modules:

- `Rf2Data` (`rf2data.dfy`) holds the records, reduced to the fields the
  synchronisation reads. Each region copy is a `Snapshot` with its two
  version counters and 128 vehicle slots. A scoring slot has `mID` and
  `mIsPlayer`, a telemetry slot has `mID`. `Frames` holds the four regions
  copied at one moment.
- `SyncSpec` (`sync_spec.dfy`) is the pure specification:
  - `DataVerified` is the version-stamp check. A copy is accepted exactly
    when `mVersionUpdateEnd == mVersionUpdateBegin`.
  - `FirstPlayerSlot` is the player-slot search.
  - `Publish` is the publishing half of a tick.
  - `VersionCheck` and `RestoreCheck` form the two-counter monitor, and
    `MonitorTick` combines them.
  - `Run` drives the monitor through many ticks.
  - `TickSpec` is one whole loop iteration, and `Ticks` runs it over many.
- `SimInfo` (`sim_info_sync.dfy`) holds the class `SimInfoSync`. Its fields
  are the object's fields plus the persistent variables of the update loop.
  Its methods update them in place. `PlayerVerified` is the slot-scanning
  loop. `Tick` is one loop iteration, proved to leave `State()` equal to
  `TickSpec` of the old state.

Reading shared memory is modelled by parameters. `Tick` receives the tick's
copies of the four regions (`input`). It also receives `reopened`: what the
regions would hold if this tick remaps them. A remap runs `start_mmap`
again, so those copies become the new defaults. The constructor receives the
contents of the regions when they are first mapped.

The model follows the code in these places:

- The telemetry feed is not searched by `mID`. The code reuses the scoring
  slot index and compares `mID` at that same position.
  `TelemetryNotSearchedById` shows a player whose `mID` sits at a different
  telemetry slot: that telemetry copy is never published.
- Freeze detection uses tick counters: a check every 71 ticks, and a
  restore 69 ticks after a remap (on the 70th tick counting the remap
  tick). It does not use elapsed time or an explicit ACTIVE/FROZEN state. Apart from the restore to defaults, no per-tick field
  is cleared.

## Model

| member | source | states |
|---|---|---|
| `SyncSpec.DataVerified` | sim_info_sync.py:131-134 | a copy is accepted exactly when `mVersionUpdateEnd == mVersionUpdateBegin` |
| `SyncSpec.FirstPlayerSlot` | sim_info_sync.py:122-129 | the result is the lowest slot at or after `from` whose `mIsPlayer` is exactly 1, or None when no slot in range has the value 1 (other nonzero values do not count) |
| `SyncSpec.Publish` | sim_info_sync.py:131-159 | extended and force-feedback copies are always published. Scoring is published iff its version stamp agrees and some slot has `mIsPlayer == 1`, and the player index becomes the lowest such slot. Otherwise scoring and the index are unchanged. Telemetry is published iff scoring was published, the telemetry stamp agrees, and its `mID` at the player index equals scoring's. When published it equals the copy; otherwise it is unchanged |
| `SyncSpec.PublishIdempotent` | sim_info_sync.py:151-159 | publishing the same pair of copies a second time resolves the same slot and leaves the same published records |
| `SyncSpec.VersionCheck` | sim_info_sync.py:161-172 | `check_counter` stays in [0,70]. Below 70 it only counts up. On the tick it would exceed 70 it resets to 0 and `last_version_update` becomes the current version. The remap fires iff no remap is outstanding, `last_version_update > 0`, and it equals the current version. After a remap `mmap_restarted` holds and `re_version_update` is the current version |
| `SyncSpec.RestoreCheck` | sim_info_sync.py:174-183 | `restore_counter` stays in [0,71] and is 0 whenever `mmap_restarted` is false. A version different from `re_version_update` ends the restarted episode; the same version counts up to 71. The restore fires iff the counter moves from 69 to 70 in a restarted episode |
| `SyncSpec.MonitorTick` | sim_info_sync.py:161-183 | the counter invariant is preserved. A remap and a restore never happen in the same tick. A restore uses up the pending restore, and only a remap creates one |
| `SyncSpec.Run` | sim_info_sync.py:145-183 | the counter invariant holds after any number of ticks, and remaps plus restores never exceed the ticks |
| `SyncSpec.RestoresBoundedByRemaps` | sim_info_sync.py:174-183 | over any run, restores plus a still-pending restore are at most remaps plus the restore pending at the start |
| `SyncSpec.NoRestoreWithoutRemap` | sim_info_sync.py:141-143 | from start-up (counter 71), whatever the versions, the defaults are restored no more often than the regions are remapped, so never before the first remap |
| `SyncSpec.AtMostOneRestorePerEpisode` | sim_info_sync.py:174-183 | in a run with no remap the defaults are restored at most once |
| `SyncSpec.NoSecondRemap` | sim_info_sync.py:165-177 | once `mmap_restarted` holds, no remap happens while the version stays at `re_version_update`, and the episode stays open |
| `SyncSpec.RestoreFiresAfterDelay` | sim_info_sync.py:178-183 | while the version stays at `re_version_update`, the restore fires exactly once, on the tick the counter reaches 70 |
| `SyncSpec.RemapAfterFreeze` | sim_info_sync.py:162-170 | with no remap outstanding and a nonzero version recorded by the last check, a version that stays frozen makes the next check remap, exactly once |
| `SyncSpec.TickSpec` | sim_info_sync.py:145-183 | one iteration keeps the player index within the 128 slots and the counters in range. A remap replaces the defaults with the reopened regions and never coincides with a restore. A restore sets all four published records to the defaults; otherwise they are what `Publish` leaves. The counters follow `MonitorTick` on the published scoring version |
| `SyncSpec.Ticks` | sim_info_sync.py:145-192 | the update loop over any sequence of ticks keeps the player index within the 128 slots and the counters in range, and records one published scoring version per tick |
| `SyncSpec.TicksFollowMonitorRun` | sim_info_sync.py:145-183 | over any sequence of ticks, the loop's final counters, remaps and restores are exactly those of the monitor run over that sequence's published scoring versions |
| `SyncSpec.LoopNeverRestoresWithoutRemap` | sim_info_sync.py:138-183 | from the loop's start-up values, whatever the copies read, the published data is restored to the defaults no more often than the regions are remapped |
| `SyncSpec.TornScoringLeavesViewUnchanged` | sim_info_sync.py:151-159 | a torn scoring copy leaves the player index and the published scoring and telemetry unchanged, unless that tick restores the defaults |
| `SyncSpec.SyncedAfterPublish` | sim_info_sync.py:209-215 | after a tick that publishes both copies and does not restore: the synced scoring slot is the copy's first player slot, and the synced telemetry slot is the telemetry copy's slot at that position, with the same `mID` |
| `SyncSpec.SameSlotPublishes` | sim_info_sync.py:152-159 | player at scoring slot 3 with mID 42 and mID 42 at telemetry slot 3: both copies are published and the index becomes 3 |
| `SyncSpec.TelemetryNotSearchedById` | sim_info_sync.py:156-159 | player at scoring slot 3 with mID 42, and mID 42 only at telemetry slot 7: scoring is published, telemetry is left unchanged |
| `SimInfo.SimInfoSync.constructor` | sim_info_sync.py:28-54 | the player index starts at 99. The defaults are the regions as first mapped, and the published records equal the defaults |
| `SimInfo.SimInfoSync.BeginInfoUpdate` | sim_info_sync.py:138-143 | entering the loop sets the loop variables to their initial values (0, 0, true, 0, 71) and changes nothing else |
| `SimInfo.SimInfoSync.SetDefaultMmap` | sim_info_sync.py:88-93 | all four published records become the defaults; nothing else changes |
| `SimInfo.SimInfoSync.ResetMmap` | sim_info_sync.py:83-98 | the defaults become copies of the reopened regions; nothing else changes |
| `SimInfo.SimInfoSync.PlayerVerified` | sim_info_sync.py:122-129 | returns true iff some slot among 0..127 has `mIsPlayer == 1`. On true the player index is the lowest such slot; on false it is unchanged |
| `SimInfo.SimInfoSync.PublishCopies` | sim_info_sync.py:146-159 | the object's state becomes what `Publish` gives for the old index, old published records and the tick's copies |
| `SimInfo.SimInfoSync.CheckVersion` | sim_info_sync.py:161-172 | the loop variables follow `VersionCheck` on the published scoring version, and the defaults are replaced exactly when it remaps |
| `SimInfo.SimInfoSync.CountRestore` | sim_info_sync.py:174-183 | the loop variables follow `RestoreCheck`, and the published records become the defaults exactly when it fires |
| `SimInfo.SimInfoSync.Tick` | sim_info_sync.py:145-192 | one loop iteration keeps `Valid()` (index in [0,128), counters in range, 128-slot arrays). The new state and the reported remap and restore are those of `TickSpec` |
| `SimInfo.SimInfoSync.SyncedVehicleScoring` | sim_info_sync.py:213-215 | returns the published scoring slot at the player index, which `Valid()` keeps within the 128 slots |
| `SimInfo.SimInfoSync.SyncedVehicleTelemetry` | sim_info_sync.py:209-211 | returns the published telemetry slot at the player index, which `Valid()` keeps within the 128 slots |

## Left out

- Opening and closing the mappings (`start_mmap`, `close`, the body of `reset_mmap`) are left out. They are OS-specific `mmap` and file I/O, including the `BufferError` handling. A remap is modelled as an event that replaces the defaults with `reopened`.
- The `rF2data` record layouts are left out: a foreign binary format. Records keep only the version counters, `mID` and `mIsPlayer`. The extended and force-feedback records are each reduced to one field (`mVersion`, `mForceValue`) that nothing reads; they are only copied whole.
- `copy.deepcopy` is modelled as value semantics: every copy is an immutable datatype value.
- Threading and timing are left out: `startUpdating`, `stopUpdating`, the `data_updating` stop flag and `time.sleep`. The loop is modelled one iteration at a time by `Tick`, and `BeginInfoUpdate` models entering it.
- Console output, `__del__` and the `__main__` demo are left out.
- `players_mid` is a local of `PublishCopies` rather than a persistent variable, because it is only read right after it is assigned.
- Integer widths are not modelled. Version counters and `mID` are unbounded integers; the code only compares them, and the tick counters stay below 72.
- The multi-tick monitor lemmas take any sequence of scoring versions, one per tick. `TicksFollowMonitorRun` shows that the loop itself runs the monitor on the sequence its published scoring produces, so they apply to the loop.
