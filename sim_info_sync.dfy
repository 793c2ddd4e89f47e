/** The player-synced view over the rFactor 2 shared memory. The object keeps
    the default copies taken when the regions were mapped, the last published
    copies, the player's slot index and the persistent variables of the
    update loop; one call of Tick is one iteration of that loop. Reading the
    shared memory is abstracted to the copies passed in. */
module SimInfo {
  import opened Rf2Data
  import opened SyncSpec

  class SimInfoSync {
    /** The player's slot in both vehicle arrays. */
    var playersIndex: int

    /** The published (synced) copies. */
    var lastTele: Telemetry
    var lastScor: Scoring
    var lastExt: Extended
    var lastFfb: ForceFeedback

    /** The copies taken when the regions were last mapped. */
    var defTele: Telemetry
    var defScor: Scoring
    var defExt: Extended
    var defFfb: ForceFeedback

    /** The variables the update loop carries from one iteration to the next. */
    var lastVersionUpdate: int
    var reVersionUpdate: int
    var mmapRestarted: bool
    var checkCounter: int
    var restoreCounter: int

    /** The abstract value of the object. */
    function State(): SyncState
      reads this
    {
      SyncState(
        playersIndex,
        Frames(lastTele, lastScor, lastExt, lastFfb),
        Frames(defTele, defScor, defExt, defFfb),
        Monitor(lastVersionUpdate, reVersionUpdate, mmapRestarted, checkCounter, restoreCounter))
    }

    predicate Valid()
      reads this
    {
      SyncInv(State())
    }

    /** Maps the regions (their contents are `mapped`), keeps them as the
        defaults and publishes the defaults; the player index starts at 99. */
    constructor (mapped: Frames)
      requires WellFormed(mapped)
      ensures Valid()
      ensures State() == SyncState(InitialPlayersIndex, mapped, mapped, InitialMonitor())
    {
      playersIndex := InitialPlayersIndex;
      defTele, defScor, defExt, defFfb := mapped.tele, mapped.scor, mapped.ext, mapped.ffb;
      lastTele, lastScor, lastExt, lastFfb := mapped.tele, mapped.scor, mapped.ext, mapped.ffb;
      lastVersionUpdate, reVersionUpdate, mmapRestarted := 0, 0, true;
      checkCounter, restoreCounter := 0, RestoreIdle;
    }

    /** Entering the update loop initialises its persistent variables. */
    method BeginInfoUpdate()
      requires Valid()
      modifies this`lastVersionUpdate, this`reVersionUpdate, this`mmapRestarted,
               this`checkCounter, this`restoreCounter
      ensures Valid()
      ensures State() == old(State()).(monitor := InitialMonitor())
    {
      lastVersionUpdate, reVersionUpdate, mmapRestarted := 0, 0, true;
      checkCounter, restoreCounter := 0, RestoreIdle;
    }

    /** Publishes the defaults: all four published copies become the
        copies taken at the last mapping. */
    method SetDefaultMmap()
      modifies this`lastTele, this`lastScor, this`lastExt, this`lastFfb
      ensures State() == old(State()).(last := old(State()).defaults)
    {
      lastTele, lastScor, lastExt, lastFfb := defTele, defScor, defExt, defFfb;
    }

    /** Closes and maps the regions again; the defaults become the copies of
        what the reopened regions hold. */
    method ResetMmap(reopened: Frames)
      modifies this`defTele, this`defScor, this`defExt, this`defFfb
      ensures State() == old(State()).(defaults := reopened)
    {
      defTele, defScor, defExt, defFfb := reopened.tele, reopened.scor, reopened.ext, reopened.ffb;
    }

    /** Scans the vehicle slots in order for the first one flagged exactly 1
        as the player's and records its position. */
    method PlayerVerified(inputData: Scoring) returns (found: bool)
      requires |inputData.mVehicles| == MaxMappedVehicles
      modifies this`playersIndex
      ensures found <==> exists i :: IsPlayerSlot(inputData.mVehicles, i)
      ensures found ==> IsFirstPlayerSlot(inputData.mVehicles, playersIndex)
      ensures !found ==> playersIndex == old(playersIndex)
      ensures FirstPlayerSlot(inputData.mVehicles, 0) == if found then Some(playersIndex) else None
    {
      var player := 0;
      while player < MaxMappedVehicles
        invariant 0 <= player <= MaxMappedVehicles
        invariant forall j :: 0 <= j < player ==> inputData.mVehicles[j].mIsPlayer != 1
        invariant playersIndex == old(playersIndex)
      {
        if inputData.mVehicles[player].mIsPlayer == 1 {
          playersIndex := player;
          assert IsPlayerSlot(inputData.mVehicles, player);
          return true;
        }
        player := player + 1;
      }
      return false;
    }

    /** The publishing half of an iteration: the extended and force-feedback
        copies are always published, the scoring copy when it is consistent
        and a player slot is found, the telemetry copy when it is also
        consistent and carries the player's mID at that slot. */
    method PublishCopies(input: Frames)
      requires Valid() && WellFormed(input)
      modifies this`playersIndex, this`lastTele, this`lastScor, this`lastExt, this`lastFfb
      ensures var p := Publish(old(playersIndex), old(State()).last, input);
              State() == old(State()).(playersIndex := p.playersIndex, last := p.last)
    {
      var dataScor := input.scor;
      var dataTele := input.tele;
      lastExt := input.ext;
      lastFfb := input.ffb;
      if DataVerified(dataScor) {
        var found := PlayerVerified(dataScor);
        if found {
          lastScor := dataScor;
          var playersMid := lastScor.mVehicles[playersIndex].mID;
          if DataVerified(dataTele) && dataTele.mVehicles[playersIndex].mID == playersMid {
            lastTele := dataTele;
          }
        }
      }
    }

    /** The periodic check of the published scoring version, which remaps
        the regions when the version has not moved since the previous check. */
    method CheckVersion(reopened: Frames) returns (remapped: bool)
      requires Valid()
      modifies this`lastVersionUpdate, this`reVersionUpdate, this`mmapRestarted, this`checkCounter,
               this`defTele, this`defScor, this`defExt, this`defFfb
      ensures var c := VersionCheck(old(State()).monitor, lastScor.mVersionUpdateEnd);
              remapped == c.fired &&
              State() == old(State()).(monitor := c.monitor,
                                       defaults := if c.fired then reopened else old(State()).defaults)
    {
      checkCounter := checkCounter + 1;
      remapped := false;
      if checkCounter > CheckPeriod {
        if !mmapRestarted && lastVersionUpdate > 0 && lastVersionUpdate == lastScor.mVersionUpdateEnd {
          ResetMmap(reopened);
          remapped := true;
          mmapRestarted := true;
          reVersionUpdate := lastScor.mVersionUpdateEnd;
        }
        lastVersionUpdate := lastScor.mVersionUpdateEnd;
        checkCounter := 0;
      }
    }

    /** The restore delay counter, which publishes the defaults on the tick the
        counter reaches RestoreAt. */
    method CountRestore() returns (restored: bool)
      requires 0 <= restoreCounter <= RestoreIdle
      requires !mmapRestarted ==> restoreCounter == 0
      modifies this`mmapRestarted, this`restoreCounter,
               this`lastTele, this`lastScor, this`lastExt, this`lastFfb
      ensures var d := RestoreCheck(old(State()).monitor, old(lastScor).mVersionUpdateEnd);
              restored == d.fired &&
              State() == old(State()).(monitor := d.monitor,
                                       last := if d.fired then old(State()).defaults else old(State()).last)
    {
      if mmapRestarted {
        if reVersionUpdate != lastScor.mVersionUpdateEnd {
          mmapRestarted := false;
          restoreCounter := 0;
        } else if restoreCounter < RestoreIdle {
          restoreCounter := restoreCounter + 1;
        }
      }
      restored := restoreCounter == RestoreAt;
      if restored {
        SetDefaultMmap();
      }
    }

    /** One iteration of the update loop over this tick's copies `input` of
        the four regions; `reopened` is what the regions hold if this tick
        remaps them. Reports whether the mapping was reset and whether the
        published data was restored to the defaults. */
    method Tick(input: Frames, reopened: Frames) returns (remapped: bool, restored: bool)
      requires Valid() && WellFormed(input) && WellFormed(reopened)
      modifies this
      ensures Valid()
      ensures var t := TickSpec(old(State()), input, reopened);
              State() == t.next && remapped == t.remapped && restored == t.restored
    {
      PublishCopies(input);
      remapped := CheckVersion(reopened);
      restored := CountRestore();
    }

    /** The published scoring slot of the player. */
    function SyncedVehicleScoring(): (v: VehicleScoring)
      reads this
      requires Valid()
      ensures v == SyncedScoring(State())
    {
      lastScor.mVehicles[playersIndex]
    }

    /** The published telemetry slot of the player. */
    function SyncedVehicleTelemetry(): (v: VehicleTelemetry)
      reads this
      requires Valid()
      ensures v == SyncedTelemetry(State())
    {
      lastTele.mVehicles[playersIndex]
    }
  }
}
