/**
 NsvProfile as an object: its two caches and the system sound level, updated in place by the change
 callbacks, with the loops of the source. What was delivered so far is remembered, so the object keeps
 what Profile proves about runs of deliveries.
 */
module ProfileObjects {
  import opened Wrappers
  import P = Profile

  /** The profile keys of the platform that the two tables name. */
  datatype Keys = Keys(ringingTone: string, smsTone: string, emailTone: string, imTone: string,
                       ringingVolume: string, smsVolume: string, emailVolume: string, imVolume: string)

  const CALENDAR_TONE := "/apps/calendar/calendar-alarm-tone"
  const CLOCK_TONE := "/apps/clock/alarm-tone"

  /** category_tone. */
  function ToneRows(k: Keys): seq<P.Row> {
    [P.Row("Ringtone", Some(k.ringingTone)), P.Row("Calendar", Some(CALENDAR_TONE)), P.Row("Clock", Some(CLOCK_TONE)),
     P.Row("SMS", Some(k.smsTone)), P.Row("Email", Some(k.emailTone)), P.Row("Chat", Some(k.imTone))]
  }

  /** category_volume. */
  function VolumeRows(k: Keys): seq<P.Row> {
    [P.Row("Ringtone", Some(k.ringingVolume)), P.Row("Calendar", None), P.Row("Clock", None),
     P.Row("SMS", Some(k.smsVolume)), P.Row("Email", Some(k.emailVolume)), P.Row("Chat", Some(k.imVolume))]
  }

  ghost predicate AllDifferent(names: seq<string>) {
    forall i, j :: 0 <= i < j < |names| ==> names[i] != names[j]
  }

  /** With different keys both tables meet the condition under which a delivery is one write. */
  lemma TablesShareNoKey(k: Keys)
    requires AllDifferent([k.ringingTone, CALENDAR_TONE, CLOCK_TONE, k.smsTone, k.emailTone, k.imTone])
    requires AllDifferent([k.ringingVolume, k.smsVolume, k.emailVolume, k.imVolume])
    ensures P.DistinctKeys(ToneRows(k)) && P.DistinctIds(ToneRows(k))
    ensures P.DistinctKeys(VolumeRows(k)) && P.DistinctIds(VolumeRows(k))
  {
    hide P.DistinctKeys, P.DistinctIds, AllDifferent;
    TonesShareNoKey(k);
    VolumesShareNoKey(k);
  }

  lemma TonesShareNoKey(k: Keys)
    requires AllDifferent([k.ringingTone, CALENDAR_TONE, CLOCK_TONE, k.smsTone, k.emailTone, k.imTone])
    ensures P.DistinctKeys(ToneRows(k)) && P.DistinctIds(ToneRows(k))
  {
    var tones := [k.ringingTone, CALENDAR_TONE, CLOCK_TONE, k.smsTone, k.emailTone, k.imTone];
    assert forall i :: 0 <= i < 6 ==> ToneRows(k)[i].key == Some(tones[i]);
    assert "Ringtone"[0] != "Calendar"[0] && "Clock"[0] != "Email"[0];
  }

  lemma VolumesShareNoKey(k: Keys)
    requires AllDifferent([k.ringingVolume, k.smsVolume, k.emailVolume, k.imVolume])
    ensures P.DistinctKeys(VolumeRows(k)) && P.DistinctIds(VolumeRows(k))
  {
    var volumes := [k.ringingVolume, k.smsVolume, k.emailVolume, k.imVolume];
    assert VolumeRows(k)[0].key == Some(volumes[0]);
    assert forall i :: 3 <= i < 6 ==> VolumeRows(k)[i].key == Some(volumes[i - 2]);
    assert "Ringtone"[0] != "Calendar"[0] && "Clock"[0] != "Email"[0];
  }

  class NsvProfile {
    const toneRows: seq<P.Row>
    const volumeRows: seq<P.Row>
    var tones: map<string, string>
    var volumes: map<string, int>
    var soundLevel: int
    var vibratingAlert: bool
    var silent: bool
    // what was cached at first, what was delivered since, and the signals emitted
    ghost const firstTones: map<string, string>
    ghost const firstVolumes: map<string, int>
    ghost const firstLevel: int
    ghost var toneHistory: seq<P.Delivery<string>>
    ghost var volumeHistory: seq<P.Delivery<int>>
    ghost var levelHistory: seq<int>
    ghost var toneSignals: seq<P.Change<string>>
    ghost var volumeSignals: seq<P.Change<int>>
    ghost var levelSignals: seq<int>

    constructor (keys: Keys, tones: map<string, string>, volumes: map<string, int>, level: int, vibrating: bool, silent: bool)
      ensures Valid() && toneRows == ToneRows(keys) && volumeRows == VolumeRows(keys)
      ensures firstTones == this.tones == tones && firstVolumes == this.volumes == volumes && firstLevel == level
      ensures toneHistory == [] && volumeHistory == [] && levelHistory == []
      ensures vibratingAlert == vibrating && this.silent == silent
    {
      toneRows, volumeRows := ToneRows(keys), VolumeRows(keys);
      this.tones, this.volumes := tones, volumes;
      vibratingAlert, this.silent := vibrating, silent;
      if level <= 1 {
        if level == 1 {
          soundLevel := 50;
        } else {
          soundLevel := 0;
        }
      } else {
        soundLevel := 80;
      }
      firstTones, firstVolumes, firstLevel := tones, volumes, level;
      toneHistory, volumeHistory, levelHistory := [], [], [];
      toneSignals, volumeSignals, levelSignals := [], [], [];
    }

    /** The caches and the signals are those of a run of the deliveries. */
    ghost predicate Valid()
      reads this
    {
      && (tones, toneSignals) == P.Run(toneRows, firstTones, toneHistory, "")
      && (volumes, volumeSignals) == P.Run(volumeRows, firstVolumes, volumeHistory, 0)
      && (soundLevel, levelSignals) == P.Levels(firstLevel, levelHistory)
    }

    // ---------------------------------------------------------------- what the cache promises

    /** The tone of a category is the one delivered last, and each real change was signalled once. */
    lemma TonesAreLastWrites(k: nat)
      requires Valid() && P.DistinctKeys(toneRows) && P.DistinctIds(toneRows)
      requires k < |toneRows| && toneRows[k].key.Some?
      ensures var id, key := toneRows[k].id, toneRows[k].key.value;
              var first := P.Lookup(firstTones, id, "");
              && P.Lookup(tones, id, "") == P.Last(toneHistory, key, first)
              && P.About(toneSignals, id) == P.Changes(toneHistory, key, id, first)
    {
      P.CacheIsLastWrite(toneRows, firstTones, toneHistory, "", k);
    }

    lemma VolumesAreLastWrites(k: nat)
      requires Valid() && P.DistinctKeys(volumeRows) && P.DistinctIds(volumeRows)
      requires k < |volumeRows| && volumeRows[k].key.Some?
      ensures var id, key := volumeRows[k].id, volumeRows[k].key.value;
              var first := P.Lookup(firstVolumes, id, 0);
              && P.Lookup(volumes, id, 0) == P.Last(volumeHistory, key, first)
              && P.About(volumeSignals, id) == P.Changes(volumeHistory, key, id, first)
    {
      P.CacheIsLastWrite(volumeRows, firstVolumes, volumeHistory, 0, k);
    }

    /** The six tones and four volumes, each under the name of its category and by its own platform key. */
    lemma CategoriesAreLastWrites(k: Keys)
      requires Valid() && toneRows == ToneRows(k) && volumeRows == VolumeRows(k)
      requires AllDifferent([k.ringingTone, CALENDAR_TONE, CLOCK_TONE, k.smsTone, k.emailTone, k.imTone])
      requires AllDifferent([k.ringingVolume, k.smsVolume, k.emailVolume, k.imVolume])
      ensures Tone("Ringtone") == P.Last(toneHistory, k.ringingTone, FirstTone("Ringtone"))
      ensures Tone("Calendar") == P.Last(toneHistory, CALENDAR_TONE, FirstTone("Calendar"))
      ensures Tone("Clock") == P.Last(toneHistory, CLOCK_TONE, FirstTone("Clock"))
      ensures Tone("SMS") == P.Last(toneHistory, k.smsTone, FirstTone("SMS"))
      ensures Tone("Email") == P.Last(toneHistory, k.emailTone, FirstTone("Email"))
      ensures Tone("Chat") == P.Last(toneHistory, k.imTone, FirstTone("Chat"))
      ensures Volume("Ringtone") == P.Last(volumeHistory, k.ringingVolume, FirstVolume("Ringtone"))
      ensures Volume("SMS") == P.Last(volumeHistory, k.smsVolume, FirstVolume("SMS"))
      ensures Volume("Email") == P.Last(volumeHistory, k.emailVolume, FirstVolume("Email"))
      ensures Volume("Chat") == P.Last(volumeHistory, k.imVolume, FirstVolume("Chat"))
    {
      hide Valid, P.Last, P.DistinctKeys, P.DistinctIds, AllDifferent;
      TablesShareNoKey(k);
      TonesAreLastWrites(0);
      TonesAreLastWrites(1);
      TonesAreLastWrites(2);
      TonesAreLastWrites(3);
      TonesAreLastWrites(4);
      TonesAreLastWrites(5);
      VolumesAreLastWrites(0);
      VolumesAreLastWrites(3);
      VolumesAreLastWrites(4);
      VolumesAreLastWrites(5);
    }

    function Tone(category: string): string
      reads this
    {
      P.Lookup(tones, category, "")
    }

    function Volume(category: string): int
      reads this
    {
      P.Lookup(volumes, category, 0)
    }

    ghost function FirstTone(category: string): string
      reads this
    {
      P.Lookup(firstTones, category, "")
    }

    ghost function FirstVolume(category: string): int
      reads this
    {
      P.Lookup(firstVolumes, category, 0)
    }

    /** Level signals are changes; delivering the first level again signals one unless it is silent. */
    lemma LevelsAreChanges()
      requires Valid()
      ensures forall k :: 0 < k < |levelSignals| ==> levelSignals[k - 1] != levelSignals[k]
      ensures levelSignals != [] ==> soundLevel == levelSignals[|levelSignals| - 1]
      ensures levelHistory == [firstLevel] ==> (levelSignals != [] <==> firstLevel >= 1)
      ensures levelHistory != [] ==>
                var last := levelHistory[|levelHistory| - 1]; soundLevel == if last <= 0 then 0 else if last == 1 then 40 else 70
    {
      P.LastLevelDecides(firstLevel, levelHistory);
      P.LevelSignalsAreChanges(firstLevel, levelHistory);
      P.SameLevelSignals(firstLevel);
    }

    // ---------------------------------------------------------------- scans

    /** The tone of a row that is compared is there to be compared. */
    ghost predicate Cached(key: string)
      reads this
    {
      forall k :: 0 <= k < |toneRows| && toneRows[k].key == Some(key) ==> toneRows[k].id in tones
    }

    method EmitToneChanged(key: string, val: string)
      requires Cached(key)
      modifies `tones, `toneSignals
      ensures Cached(key)
      ensures var (m, cs) := P.Scan(toneRows, old(tones), key, val, "");
              tones == m && toneSignals == old(toneSignals) + cs
    {
      var i := 0;
      assert toneRows[0..] == toneRows;
      while i < |toneRows|
        invariant i <= |toneRows| && Cached(key)
        invariant var (m, cs) := P.Scan(toneRows[i..], tones, key, val, "");
                  var (m0, cs0) := P.Scan(toneRows, old(tones), key, val, "");
                  m == m0 && toneSignals + cs == old(toneSignals) + cs0
      {
        var row := toneRows[i];
        assert toneRows[i..][0] == row && toneRows[i..][1..] == toneRows[i + 1..];
        if row.key == Some(key) {
          if tones[row.id] == val {
            break;
          }
          toneSignals := toneSignals + [P.Change(row.id, tones[row.id], val)];
          tones := tones[row.id := val];
        }
        i := i + 1;
      }
    }

    method EmitVolumeChanged(key: string, volume: int)
      modifies `volumes, `volumeSignals
      ensures var (m, cs) := P.Scan(volumeRows, old(volumes), key, volume, 0);
              volumes == m && volumeSignals == old(volumeSignals) + cs
    {
      var i := 0;
      assert volumeRows[0..] == volumeRows;
      while i < |volumeRows|
        invariant i <= |volumeRows|
        invariant var (m, cs) := P.Scan(volumeRows[i..], volumes, key, volume, 0);
                  var (m0, cs0) := P.Scan(volumeRows, old(volumes), key, volume, 0);
                  m == m0 && volumeSignals + cs == old(volumeSignals) + cs0
      {
        var row := volumeRows[i];
        assert volumeRows[i..][0] == row && volumeRows[i..][1..] == volumeRows[i + 1..];
        if row.key == Some(key) {
          var cached := if row.id in volumes then volumes[row.id] else 0;
          if cached == volume {
            break;
          }
          volumeSignals := volumeSignals + [P.Change(row.id, cached, volume)];
          volumes := volumes[row.id := volume];
        }
        i := i + 1;
      }
    }

    /** One scan per row. */
    method RescanTones(key: string, val: string)
      requires Cached(key)
      modifies `tones, `toneSignals
      ensures Cached(key)
      ensures var (m, cs) := P.Deliver(toneRows, old(tones), key, val, "");
              tones == m && toneSignals == old(toneSignals) + cs
    {
      for i := 0 to |toneRows|
        invariant Cached(key)
        invariant var (m, cs) := P.Scans(i, toneRows, old(tones), key, val, "");
                  tones == m && toneSignals == old(toneSignals) + cs
      {
        EmitToneChanged(key, val);
      }
    }

    method RescanVolumes(key: string, volume: int)
      modifies `volumes, `volumeSignals
      ensures var (m, cs) := P.Deliver(volumeRows, old(volumes), key, volume, 0);
              volumes == m && volumeSignals == old(volumeSignals) + cs
    {
      for i := 0 to |volumeRows|
        invariant var (m, cs) := P.Scans(i, volumeRows, old(volumes), key, volume, 0);
                  volumes == m && volumeSignals == old(volumeSignals) + cs
      {
        EmitVolumeChanged(key, volume);
      }
    }

    // ---------------------------------------------------------------- deliveries

    /** A tone key of the configuration database changed; the tone loop of the value callback too. */
    method OnToneKey(key: string, val: string)
      requires Valid() && Cached(key)
      modifies `tones, `toneSignals, `toneHistory
      ensures Valid() && toneHistory == old(toneHistory) + [P.Delivery(key, val)]
    {
      RescanTones(key, val);
      P.RunAppend(toneRows, firstTones, toneHistory, P.Delivery(key, val), "");
      toneHistory := toneHistory + [P.Delivery(key, val)];
    }

    method OnVolumeKey(key: string, volume: int)
      requires Valid()
      modifies `volumes, `volumeSignals, `volumeHistory
      ensures Valid() && volumeHistory == old(volumeHistory) + [P.Delivery(key, volume)]
    {
      RescanVolumes(key, volume);
      P.RunAppend(volumeRows, firstVolumes, volumeHistory, P.Delivery(key, volume), 0);
      volumeHistory := volumeHistory + [P.Delivery(key, volume)];
    }

    method OnLevel(level: int)
      requires Valid()
      modifies `soundLevel, `levelSignals, `levelHistory
      ensures Valid() && levelHistory == old(levelHistory) + [level]
    {
      var was := soundLevel;
      if level <= 1 {
        if level == 1 {
          soundLevel := 40;
        } else {
          soundLevel := 0;
        }
      } else {
        soundLevel := 70;
      }
      if soundLevel != was {
        levelSignals := levelSignals + [soundLevel];
      }
      P.LevelsAppend(firstLevel, levelHistory, level);
      levelHistory := levelHistory + [level];
    }

    /**
     A value of some profile changed; number and flag are what it parses to. Vibration and the sound
     level are taken from every profile, the tones and volumes not from the silent one.
     */
    method OnValue(profile: string, key: string, val: string, number: int, flag: bool, vibratingKey: string, levelKey: string)
      requires Valid() && Cached(key)
      modifies this
      ensures Valid() && silent == old(silent)
      ensures vibratingAlert == if key == vibratingKey then flag else old(vibratingAlert)
      ensures levelHistory == if key != vibratingKey && key == levelKey then old(levelHistory) + [number] else old(levelHistory)
      ensures var taken := key != vibratingKey && key != levelKey && profile != "silent";
              && toneHistory == (if taken then old(toneHistory) + [P.Delivery(key, val)] else old(toneHistory))
              && volumeHistory == (if taken then old(volumeHistory) + [P.Delivery(key, number)] else old(volumeHistory))
    {
      hide P.Run, P.Levels;
      if key == vibratingKey {
        vibratingAlert := flag;
      } else if key == levelKey {
        OnLevel(number);
      } else if profile != "silent" {
        OnToneKey(key, val);
        OnVolumeKey(key, number);
      }
    }
  }
}
