/**
 * Run history kept in the player-preferences store. Each saved run writes
 * five values under keys made of a fixed name and a decimal save id; the
 * id is found by probing upward from the current one for a free distance
 * key, and when the id would reach the limit of 5000 stored values (five
 * per run) the whole store is wiped and numbering restarts at 0. Loading
 * reads the runs 0 .. saveID back into five parallel arrays.
 *
 * The store is a map from key to a typed value; reading an absent key, or
 * a key holding a value of the other type, gives 0. Enum values are saved
 * and loaded as their underlying ints.
 */
module SavingService {

  const MaxSaveFiles := 5000
  /** The number of values one run stores. */
  const ValuesPerSave := 5
  const DistanceTravelledKey := "distance"
  const DeathCounterKey := "deathCounter"
  const PlayerTypeKey := "playerType"
  const PlayerSkillLevelKey := "playerSkill"
  const TimesLaunchedKey := "timesLaunched"

  datatype PrefValue = FloatValue(f: real) | IntValue(i: int)

  /** The player-preferences store. */
  type Prefs = map<string, PrefValue>

  /** `PlayerPrefs.GetFloat(key)`: the stored float, or 0. */
  function GetFloat(prefs: Prefs, key: string): (v: real)
    ensures key in prefs && prefs[key].FloatValue? ==> v == prefs[key].f
    ensures !(key in prefs && prefs[key].FloatValue?) ==> v == 0.0
  {
    if key in prefs && prefs[key].FloatValue? then prefs[key].f else 0.0
  }

  /** `PlayerPrefs.GetInt(key)`: the stored int, or 0. */
  function GetInt(prefs: Prefs, key: string): (v: int)
    ensures key in prefs && prefs[key].IntValue? ==> v == prefs[key].i
    ensures !(key in prefs && prefs[key].IntValue?) ==> v == 0
  {
    if key in prefs && prefs[key].IntValue? then prefs[key].i else 0
  }

  predicate IsDigit(c: char)
  {
    '0' <= c <= '9'
  }

  function DigitChar(d: nat): (c: char)
    requires d < 10
    ensures IsDigit(c) && c as int - '0' as int == d
  {
    (d + '0' as int) as char
  }

  function DigitValue(c: char): (d: nat)
    requires IsDigit(c)
    ensures d < 10 && DigitChar(d) == c
  {
    c as int - '0' as int
  }

  /** The C# decimal text of a non-negative int: no sign, no leading zeros. */
  function NatToString(n: nat): (s: string)
    ensures 1 <= |s|
    ensures |s| == 1 <==> n < 10
    ensures forall i | 0 <= i < |s| :: IsDigit(s[i])
    decreases n
  {
    if n < 10 then [DigitChar(n)] else NatToString(n / 10) + [DigitChar(n % 10)]
  }

  /** The value of a string of decimal digits. */
  function ParseDecimal(s: string): nat
    requires forall i | 0 <= i < |s| :: IsDigit(s[i])
    decreases |s|
  {
    if s == [] then 0 else ParseDecimal(s[..|s| - 1]) * 10 + DigitValue(s[|s| - 1])
  }

  /** Reading the decimal text of a number back gives the number. */
  lemma {:induction false} ParseNatToString(n: nat)
    ensures ParseDecimal(NatToString(n)) == n
    decreases n
  {
    var s := NatToString(n);
    if n >= 10 {
      ParseNatToString(n / 10);
      assert s[..|s| - 1] == NatToString(n / 10);
    }
  }

  /** Different numbers have different decimal texts. */
  lemma NatToStringInjective(a: nat, b: nat)
    ensures NatToString(a) == NatToString(b) <==> a == b
  {
    ParseNatToString(a);
    ParseNatToString(b);
  }

  /** The key of one value of run `id`: its name followed by the id. */
  function Key(name: string, id: nat): (k: string)
    ensures |k| == |name| + |NatToString(id)| && k[..|name|] == name
  {
    name + NatToString(id)
  }

  /** Keys with the same name are equal exactly when their ids are. */
  lemma KeyInjective(name: string, i: nat, j: nat)
    ensures Key(name, i) == Key(name, j) <==> i == j
  {
    if Key(name, i) == Key(name, j) {
      assert NatToString(i) == Key(name, i)[|name|..];
      assert NatToString(j) == Key(name, j)[|name|..];
      NatToStringInjective(i, j);
    }
  }

  /** Keys whose names differ in a position both names have are different,
      whatever the ids. */
  lemma KeysOfDifferentNames(p: string, q: string, pos: nat, i: nat, j: nat)
    requires pos < |p| && pos < |q| && p[pos] != q[pos]
    ensures Key(p, i) != Key(q, j)
  {
    assert Key(p, i)[pos] == p[pos];
    assert Key(q, j)[pos] == q[pos];
  }

  /** The five names of a run's values. */
  function RecordNames(): seq<string>
  {
    [DistanceTravelledKey, DeathCounterKey, PlayerTypeKey, PlayerSkillLevelKey, TimesLaunchedKey]
  }

  /** A key of one name and id never equals a key of another name, and
      keys are never empty. */
  lemma RecordKeysDistinct(a: nat, b: nat, i: nat, j: nat)
    requires a < 5 && b < 5
    ensures Key(RecordNames()[a], i) == Key(RecordNames()[b], j) <==> a == b && i == j
    ensures Key(RecordNames()[a], i) != ""
  {
    var p := RecordNames()[a];
    var q := RecordNames()[b];
    if a == b {
      KeyInjective(p, i, j);
    } else if (a == 0 && b == 1) || (a == 1 && b == 0) {
      KeysOfDifferentNames(p, q, 1, i, j);
    } else if (a == 2 && b == 3) || (a == 3 && b == 2) {
      KeysOfDifferentNames(p, q, 6, i, j);
    } else {
      KeysOfDifferentNames(p, q, 0, i, j);
    }
  }

  /** One saved run, enum values as ints. */
  datatype RunRecord = RunRecord(distanceTravelled: real, deathCounter: int, playerType: int, playerSkillLevel: int,
                                 timesLaunched: int)

  /** The five writes of SaveData for run `id`. */
  function WriteRecord(prefs: Prefs, id: nat, r: RunRecord): (p: Prefs)
    ensures forall a | 0 <= a < 5 :: Key(RecordNames()[a], id) in p
  {
    prefs[Key(DistanceTravelledKey, id) := FloatValue(r.distanceTravelled)]
         [Key(DeathCounterKey, id) := IntValue(r.deathCounter)]
         [Key(PlayerTypeKey, id) := IntValue(r.playerType)]
         [Key(PlayerSkillLevelKey, id) := IntValue(r.playerSkillLevel)]
         [Key(TimesLaunchedKey, id) := IntValue(r.timesLaunched)]
  }

  /** Entry `i` of the arrays LoadData builds. The times-launched entry is
      read from the empty key, the value its key variable was initialised
      with and never changed from. */
  function LoadedRecord(prefs: Prefs, i: nat): RunRecord
  {
    RunRecord(GetFloat(prefs, Key(DistanceTravelledKey, i)), GetInt(prefs, Key(DeathCounterKey, i)),
              GetInt(prefs, Key(PlayerTypeKey, i)), GetInt(prefs, Key(PlayerSkillLevelKey, i)), GetInt(prefs, ""))
  }

  /** A run saved under `id` loads back as saved, except that its
      times-launched value is whatever the empty key holds, which the
      save does not touch. */
  lemma SaveThenLoad(prefs: Prefs, id: nat, r: RunRecord)
    ensures LoadedRecord(WriteRecord(prefs, id, r), id) == r.(timesLaunched := GetInt(prefs, ""))
  {
    var p := WriteRecord(prefs, id, r);
    forall a, b | 0 <= a < 5 && 0 <= b < 5
      ensures Key(RecordNames()[a], id) == Key(RecordNames()[b], id) <==> a == b
      ensures Key(RecordNames()[a], id) != ""
    {
      RecordKeysDistinct(a, b, id, id);
    }
    assert RecordNames()[0] == DistanceTravelledKey && RecordNames()[1] == DeathCounterKey;
    assert RecordNames()[2] == PlayerTypeKey && RecordNames()[3] == PlayerSkillLevelKey;
    assert RecordNames()[4] == TimesLaunchedKey;
  }

  /** `key` is none of the five keys of run `id`. */
  predicate NotRecordKey(key: string, id: nat)
  {
    forall a | 0 <= a < 5 :: key != Key(RecordNames()[a], id)
  }

  /** Saving run `id` changes no key but its five. */
  lemma WriteKeepsOtherKeys(prefs: Prefs, id: nat, r: RunRecord, key: string)
    requires NotRecordKey(key, id)
    ensures key in WriteRecord(prefs, id, r) <==> key in prefs
    ensures key in prefs ==> WriteRecord(prefs, id, r)[key] == prefs[key]
  {
    assert RecordNames()[0] == DistanceTravelledKey && RecordNames()[1] == DeathCounterKey;
    assert RecordNames()[2] == PlayerTypeKey && RecordNames()[3] == PlayerSkillLevelKey;
    assert RecordNames()[4] == TimesLaunchedKey;
  }

  /** The keys of another run, and the empty key, are not keys of run `id`. */
  lemma OtherRunKeys(id: nat, j: nat, b: nat)
    requires j != id && b < 5
    ensures NotRecordKey(Key(RecordNames()[b], j), id)
    ensures NotRecordKey("", id)
  {
    forall a | 0 <= a < 5
      ensures Key(RecordNames()[b], j) != Key(RecordNames()[a], id)
      ensures "" != Key(RecordNames()[a], id)
    {
      RecordKeysDistinct(b, a, j, id);
    }
  }

  /** Saving run `id` leaves every other run, and the empty key, as it was. */
  lemma WriteKeepsOtherRecords(prefs: Prefs, id: nat, r: RunRecord, j: nat)
    requires j != id
    ensures LoadedRecord(WriteRecord(prefs, id, r), j) == LoadedRecord(prefs, j)
    ensures "" in WriteRecord(prefs, id, r) <==> "" in prefs
  {
    var names := RecordNames();
    assert names[0] == DistanceTravelledKey && names[1] == DeathCounterKey;
    assert names[2] == PlayerTypeKey && names[3] == PlayerSkillLevelKey;
    OtherRunKeys(id, j, 0);
    WriteKeepsOtherKeys(prefs, id, r, Key(DistanceTravelledKey, j));
    OtherRunKeys(id, j, 1);
    WriteKeepsOtherKeys(prefs, id, r, Key(DeathCounterKey, j));
    OtherRunKeys(id, j, 2);
    WriteKeepsOtherKeys(prefs, id, r, Key(PlayerTypeKey, j));
    OtherRunKeys(id, j, 3);
    WriteKeepsOtherKeys(prefs, id, r, Key(PlayerSkillLevelKey, j));
    WriteKeepsOtherKeys(prefs, id, r, "");
  }

  /** Whether run `id` would exceed the store limit. */
  predicate Overflows(id: int)
  {
    id * ValuesPerSave >= MaxSaveFiles
  }

  /** The probing loop of SaveData from id `id`: the store it leaves and
      the id it settles on. It stops at the first id whose distance key is
      free; when every id from `id` up to the last one below the limit is
      taken, the store is wiped and the id restarts at 0. */
  function Probe(prefs: Prefs, id: nat): (r: (Prefs, nat))
    requires !Overflows(id)
    ensures !Overflows(r.1) && Key(DistanceTravelledKey, r.1) !in r.0
    ensures (forall j: nat | id <= j && !Overflows(j) :: Key(DistanceTravelledKey, j) in prefs) ==> r == (map[], 0)
    ensures !(forall j: nat | id <= j && !Overflows(j) :: Key(DistanceTravelledKey, j) in prefs) ==>
      && r.0 == prefs && id <= r.1
      && forall j: nat | id <= j < r.1 :: Key(DistanceTravelledKey, j) in prefs
    decreases MaxSaveFiles - id * ValuesPerSave
  {
    if Key(DistanceTravelledKey, id) !in prefs then (prefs, id)
    else if Overflows(id + 1) then (map[], 0)
    else Probe(prefs, id + 1)
  }

  /** What SaveData leaves in the store, from id `id`. */
  function SavedStore(prefs: Prefs, id: nat, r: RunRecord): (p: Prefs)
    requires !Overflows(id)
    ensures LoadedRecord(p, Probe(prefs, id).1) == r.(timesLaunched := GetInt(Probe(prefs, id).0, ""))
  {
    var probed := Probe(prefs, id);
    SaveThenLoad(probed.0, probed.1, r);
    WriteRecord(probed.0, probed.1, r)
  }

  /** When a free id exists from `id` on, the save changes no key but the
      five of the id it settles on. */
  lemma SaveWithoutWipeKeepsOtherKeys(prefs: Prefs, id: nat, r: RunRecord, key: string)
    requires !Overflows(id)
    requires exists j: nat | id <= j && !Overflows(j) :: Key(DistanceTravelledKey, j) !in prefs
    requires NotRecordKey(key, Probe(prefs, id).1)
    ensures key in SavedStore(prefs, id, r) <==> key in prefs
    ensures key in prefs ==> SavedStore(prefs, id, r)[key] == prefs[key]
  {
    WriteKeepsOtherKeys(prefs, Probe(prefs, id).1, r, key);
  }

  /** No save ever writes the empty key, so over a store without it every
      loaded times-launched entry is 0, whatever was saved. */
  lemma TimesLaunchedLoadsZero(prefs: Prefs, id: nat, r: RunRecord, i: nat)
    requires !Overflows(id)
    requires "" !in prefs
    ensures "" !in SavedStore(prefs, id, r)
    ensures LoadedRecord(SavedStore(prefs, id, r), i).timesLaunched == 0
  {
    var probed := Probe(prefs, id);
    OtherRunKeys(probed.1, probed.1 + 1, 0);
    WriteKeepsOtherKeys(probed.0, probed.1, r, "");
  }

  class SavingService {
    /** The static save id; it starts at 0 on every launch. */
    var saveID: int
    /** The player-preferences store, which outlives the launch. */
    var prefs: Prefs

    ghost predicate Valid()
      reads this
    {
      0 <= saveID && !Overflows(saveID)
    }

    /** A launch: the statics at their initial values over the stored
        preferences. */
    constructor (prefs: Prefs)
      ensures Valid()
      ensures saveID == 0 && this.prefs == prefs
    {
      saveID := 0;
      this.prefs := prefs;
    }

    /** Probes for a free id (wiping the store on overflow) and writes the
        run's five values under it. */
    method SaveData(distanceTravelled: real, deathCounter: int, playerType: int, playerSkillLevel: int, timesLaunched: int)
      requires Valid()
      modifies this
      ensures Valid()
      ensures saveID == Probe(old(prefs), old(saveID)).1
      ensures prefs == SavedStore(old(prefs), old(saveID),
                                  RunRecord(distanceTravelled, deathCounter, playerType, playerSkillLevel, timesLaunched))
    {
      var distanceKey := Key(DistanceTravelledKey, saveID);
      while distanceKey in prefs
        invariant Valid()
        invariant distanceKey == Key(DistanceTravelledKey, saveID)
        invariant Probe(prefs, saveID) == Probe(old(prefs), old(saveID))
        decreases if prefs == map[] then 0 else 1, MaxSaveFiles - saveID * ValuesPerSave
      {
        saveID := saveID + 1;
        if saveID * ValuesPerSave >= MaxSaveFiles {
          prefs := map[];
          saveID := 0;
        }
        distanceKey := Key(DistanceTravelledKey, saveID);
      }
      var deathCounterKey := Key(DeathCounterKey, saveID);
      var playerTypeKey := Key(PlayerTypeKey, saveID);
      var playerSkillLevelKey := Key(PlayerSkillLevelKey, saveID);
      var timesLaunchedKey := Key(TimesLaunchedKey, saveID);
      prefs := prefs[distanceKey := FloatValue(distanceTravelled)];
      prefs := prefs[deathCounterKey := IntValue(deathCounter)];
      prefs := prefs[playerTypeKey := IntValue(playerType)];
      prefs := prefs[playerSkillLevelKey := IntValue(playerSkillLevel)];
      prefs := prefs[timesLaunchedKey := IntValue(timesLaunched)];
    }

    /** Reads runs 0 .. saveID into five new arrays of length saveID + 1. */
    method LoadData() returns (distances: array<real>, deathCounters: array<int>, playerTypes: array<int>,
                               playerSkillLevels: array<int>, timesLaunchedValues: array<int>)
      requires Valid()
      ensures fresh(distances) && fresh(deathCounters) && fresh(playerTypes) && fresh(playerSkillLevels)
      ensures fresh(timesLaunchedValues)
      ensures distances.Length == deathCounters.Length == playerTypes.Length == playerSkillLevels.Length
           == timesLaunchedValues.Length == saveID + 1
      ensures forall i | 0 <= i <= saveID ::
        LoadedRecord(prefs, i)
        == RunRecord(distances[i], deathCounters[i], playerTypes[i], playerSkillLevels[i], timesLaunchedValues[i])
    {
      var distanceKey := "";
      var deathCounterKey := "";
      var playerTypeKey := "";
      var playerSkillLevelKey := "";
      var timesLaunchedKey := "";
      var arrLength := saveID + 1;
      distances := new real[arrLength];
      deathCounters := new int[arrLength];
      playerTypes := new int[arrLength];
      playerSkillLevels := new int[arrLength];
      timesLaunchedValues := new int[arrLength];
      for i := 0 to saveID + 1
        invariant timesLaunchedKey == ""
        invariant forall j | 0 <= j < i ::
          LoadedRecord(prefs, j)
          == RunRecord(distances[j], deathCounters[j], playerTypes[j], playerSkillLevels[j], timesLaunchedValues[j])
      {
        distanceKey := Key(DistanceTravelledKey, i);
        deathCounterKey := Key(DeathCounterKey, i);
        playerTypeKey := Key(PlayerTypeKey, i);
        playerSkillLevelKey := Key(PlayerSkillLevelKey, i);
        distances[i] := GetFloat(prefs, distanceKey);
        deathCounters[i] := GetInt(prefs, deathCounterKey);
        playerTypes[i] := GetInt(prefs, playerTypeKey);
        playerSkillLevels[i] := GetInt(prefs, playerSkillLevelKey);
        timesLaunchedValues[i] := GetInt(prefs, timesLaunchedKey);
      }
    }
  }
}
