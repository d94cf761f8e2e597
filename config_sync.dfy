/**
 * services/config_sync.py: settings mirrored between the .env file and the
 * store's system settings. The file is a value (whether it exists, its
 * modification time, and the variables `load_dotenv(override=True)` leaves in
 * the environment); the service remembers the last modification time it saw.
 */
module ConfigSync {
  import opened Wrappers
  import opened PyText
  import opened Db

  /** The .env file as the service sees it. */
  datatype EnvFile = EnvFile(present: bool, mtime: int, env: map<string, string>)

  /** `sync_map`: environment variable to setting key, in insertion order. */
  const SyncMap: seq<(string, string)> := [
    ("REMINDER_DELAY_MINUTES", "reminder_delay_minutes"),
    ("REMINDER_CHECK_INTERVAL_MINUTES", "reminder_check_interval"),
    ("REMINDER_ENABLED", "reminder_enabled")
  ]

  /** No two pairs share a first component, and none share a second one. */
  predicate Distinct(pairs: seq<(string, string)>) {
    forall i, j :: 0 <= i < j < |pairs| ==> pairs[i].0 != pairs[j].0 && pairs[i].1 != pairs[j].1
  }

  lemma SyncMapDistinct()
    ensures Distinct(SyncMap)
  {
    assert SyncMap[0].0[9] == 'D' && SyncMap[1].0[9] == 'C' && SyncMap[2].0[9] == 'E';
    assert SyncMap[0].1[9] == 'd' && SyncMap[1].1[9] == 'c' && SyncMap[2].1[9] == 'e';
  }

  /** The dictionary of a list of pairs. */
  function Forward(pairs: seq<(string, string)>): map<string, string> {
    if pairs == [] then map[] else Forward(pairs[..|pairs| - 1])[pairs[|pairs| - 1].0 := pairs[|pairs| - 1].1]
  }

  /** `{v: k for k, v in pairs}` */
  function Reverse(pairs: seq<(string, string)>): map<string, string> {
    if pairs == [] then map[] else Reverse(pairs[..|pairs| - 1])[pairs[|pairs| - 1].1 := pairs[|pairs| - 1].0]
  }

  /** The first components of the pairs. */
  function Firsts(pairs: seq<(string, string)>): set<string> {
    if pairs == [] then {} else Firsts(pairs[..|pairs| - 1]) + {pairs[|pairs| - 1].0}
  }

  /** The second components of the pairs. */
  function Seconds(pairs: seq<(string, string)>): set<string> {
    if pairs == [] then {} else Seconds(pairs[..|pairs| - 1]) + {pairs[|pairs| - 1].1}
  }

  /** Two pairs at different positions differ in both components. */
  lemma DistinctAt(pairs: seq<(string, string)>, i: nat, j: nat)
    requires Distinct(pairs) && i < |pairs| && j < |pairs| && i != j
    ensures pairs[i].0 != pairs[j].0 && pairs[i].1 != pairs[j].1
  {
    if j < i {
      DistinctAt(pairs, j, i);
    }
  }

  /** A prefix of distinct pairs is distinct. */
  lemma DistinctPrefix(pairs: seq<(string, string)>, n: nat)
    requires Distinct(pairs) && n <= |pairs|
    ensures Distinct(pairs[..n])
  {
    forall i, j | 0 <= i < j < n ensures pairs[..n][i].0 != pairs[..n][j].0 && pairs[..n][i].1 != pairs[..n][j].1 {
      assert pairs[..n][i] == pairs[i] && pairs[..n][j] == pairs[j];
    }
  }

  /** Over pairs with distinct first components, the dictionary holds each pair and nothing else. */
  lemma {:induction false} ForwardEntries(pairs: seq<(string, string)>)
    requires Distinct(pairs)
    ensures Forward(pairs).Keys == Firsts(pairs)
    ensures forall i :: 0 <= i < |pairs| ==> pairs[i].0 in Forward(pairs) && Forward(pairs)[pairs[i].0] == pairs[i].1
  {
    if pairs != [] {
      var n := |pairs| - 1;
      DistinctPrefix(pairs, n);
      ForwardEntries(pairs[..n]);
      forall i | 0 <= i < n ensures pairs[i].0 in Forward(pairs) && Forward(pairs)[pairs[i].0] == pairs[i].1 {
        assert pairs[..n][i] == pairs[i];
        DistinctAt(pairs, i, n);
      }
    }
  }

  /** Over pairs with distinct second components, the reversed dictionary holds each pair, turned round, and nothing else. */
  lemma {:induction false} ReverseEntries(pairs: seq<(string, string)>)
    requires Distinct(pairs)
    ensures Reverse(pairs).Keys == Seconds(pairs)
    ensures forall i :: 0 <= i < |pairs| ==> pairs[i].1 in Reverse(pairs) && Reverse(pairs)[pairs[i].1] == pairs[i].0
  {
    if pairs != [] {
      var n := |pairs| - 1;
      DistinctPrefix(pairs, n);
      ReverseEntries(pairs[..n]);
      forall i | 0 <= i < n ensures pairs[i].1 in Reverse(pairs) && Reverse(pairs)[pairs[i].1] == pairs[i].0 {
        assert pairs[..n][i] == pairs[i];
        DistinctAt(pairs, i, n);
      }
    }
  }

  /** The components of a list of three pairs. */
  lemma ThreeKeys(pairs: seq<(string, string)>)
    requires |pairs| == 3
    ensures Firsts(pairs) == {pairs[0].0, pairs[1].0, pairs[2].0}
    ensures Seconds(pairs) == {pairs[0].1, pairs[1].1, pairs[2].1}
  {
    var p2, p1 := pairs[..2], pairs[..1];
    assert p2[..1] == p1 && p2[1] == pairs[1] && p1[..0] == [] && p1[0] == pairs[0];
    assert Firsts(p1) == {pairs[0].0} && Seconds(p1) == {pairs[0].1};
    assert Firsts(p2) == {pairs[0].0, pairs[1].0} && Seconds(p2) == {pairs[0].1, pairs[1].1};
    assert pairs[..2] == p2;
  }

  /** Three distinct pairs make a bijection between their first and their second components. */
  lemma ThreeInvert(pairs: seq<(string, string)>)
    requires |pairs| == 3 && Distinct(pairs)
    ensures |Forward(pairs)| == |Reverse(pairs)| == 3
    ensures forall k :: k in Forward(pairs) ==> Forward(pairs)[k] in Reverse(pairs) && Reverse(pairs)[Forward(pairs)[k]] == k
    ensures forall v :: v in Reverse(pairs) ==> Reverse(pairs)[v] in Forward(pairs) && Forward(pairs)[Reverse(pairs)[v]] == v
  {
    ForwardEntries(pairs);
    ReverseEntries(pairs);
    ThreeKeys(pairs);
    DistinctAt(pairs, 0, 1);
    DistinctAt(pairs, 0, 2);
    DistinctAt(pairs, 1, 2);
  }

  /**
   * `reverse_map` inverts `sync_map`: the two are a bijection between the three
   * variables and the three setting keys.
   */
  lemma ReverseMapInverts()
    ensures |Forward(SyncMap)| == |Reverse(SyncMap)| == 3
    ensures forall k :: k in Forward(SyncMap) ==> Forward(SyncMap)[k] in Reverse(SyncMap) && Reverse(SyncMap)[Forward(SyncMap)[k]] == k
    ensures forall v :: v in Reverse(SyncMap) ==> Reverse(SyncMap)[v] in Forward(SyncMap) && Forward(SyncMap)[Reverse(SyncMap)[v]] == v
  {
    SyncMapDistinct();
    ThreeInvert(SyncMap);
  }

  // ---------------------------------------------------------------------------
  // One pass of the diff-and-write loop
  // ---------------------------------------------------------------------------

  /**
   * Lines 65-68: the setting is written when the stripped environment value
   * differs from the stripped stored value, a falsy stored value comparing as
   * None (so it always differs).
   */
  predicate NeedsWrite(stored: Option<string>, envValue: string) {
    !Truthy(stored) || Strip(envValue) != Strip(stored.value)
  }

  /** `settings.get(key)` */
  function Lookup(settings: map<string, string>, key: string): Option<string> {
    if key in settings then Some(settings[key]) else None
  }

  /** Whether the loop writes the pair's setting, given the settings so far. */
  predicate Writes(settings: map<string, string>, env: map<string, string>, pair: (string, string)) {
    pair.0 in env && NeedsWrite(Lookup(settings, pair.1), env[pair.0])
  }

  /** One iteration of the loop over `pair`. */
  function SyncPair(settings: map<string, string>, env: map<string, string>, pair: (string, string)): map<string, string> {
    if Writes(settings, env, pair) then settings[pair.1 := Strip(env[pair.0])] else settings
  }

  /** The settings after the loop over `pairs`. */
  function Synced(settings: map<string, string>, env: map<string, string>, pairs: seq<(string, string)>): map<string, string> {
    if pairs == [] then settings
    else SyncPair(Synced(settings, env, pairs[..|pairs| - 1]), env, pairs[|pairs| - 1])
  }

  /** The setting keys the loop over `pairs` writes, in order: the `changes` list. */
  function ChangedKeys(settings: map<string, string>, env: map<string, string>, pairs: seq<(string, string)>): seq<string> {
    if pairs == [] then []
    else
      var before := Synced(settings, env, pairs[..|pairs| - 1]);
      ChangedKeys(settings, env, pairs[..|pairs| - 1]) + (if Writes(before, env, pairs[|pairs| - 1]) then [pairs[|pairs| - 1].1] else [])
  }

  /** The loop over the first i + 1 pairs is the loop over the first i, then pair i. */
  lemma SyncStep(settings: map<string, string>, env: map<string, string>, pairs: seq<(string, string)>, i: nat)
    requires i < |pairs|
    ensures Synced(settings, env, pairs[..i + 1]) == SyncPair(Synced(settings, env, pairs[..i]), env, pairs[i])
    ensures ChangedKeys(settings, env, pairs[..i + 1]) == ChangedKeys(settings, env, pairs[..i])
      + (if Writes(Synced(settings, env, pairs[..i]), env, pairs[i]) then [pairs[i].1] else [])
  {
    assert pairs[..i + 1][..i] == pairs[..i];
  }

  /** Settings whose key no pair names are left as they were. */
  lemma {:induction false} SyncLeavesOthers(settings: map<string, string>, env: map<string, string>, pairs: seq<(string, string)>, k: string)
    requires forall i :: 0 <= i < |pairs| ==> pairs[i].1 != k
    ensures k in Synced(settings, env, pairs) <==> k in settings
    ensures k in settings ==> Synced(settings, env, pairs)[k] == settings[k]
  {
    if pairs != [] {
      SyncLeavesOthers(settings, env, pairs[..|pairs| - 1], k);
    }
  }

  /** What the loop leaves under the key of pair j: its stripped variable when set, else what was there. */
  predicate Agrees(before: map<string, string>, r: map<string, string>, env: map<string, string>, pair: (string, string)) {
    && (pair.0 in env ==> pair.1 in r && Strip(r[pair.1]) == Strip(env[pair.0]))
    && (pair.0 !in env ==> Lookup(r, pair.1) == Lookup(before, pair.1))
  }

  /** The iteration over a pair leaves its key in agreement with the environment. */
  lemma PairAgrees(before: map<string, string>, env: map<string, string>, pair: (string, string))
    ensures Agrees(before, SyncPair(before, env, pair), env, pair)
  {
    if pair.0 in env && Writes(before, env, pair) {
      StripIdempotent(env[pair.0]);
    }
  }

  /** An iteration over another key keeps the agreement of this one. */
  lemma OtherPairKeeps(settings: map<string, string>, r: map<string, string>, env: map<string, string>, pair: (string, string), other: (string, string))
    requires Agrees(settings, r, env, pair) && other.1 != pair.1
    ensures Agrees(settings, SyncPair(r, env, other), env, pair)
  {
  }

  /** The last pair's key is untouched by the pairs before it. */
  lemma LastKeyUntouched(settings: map<string, string>, env: map<string, string>, pairs: seq<(string, string)>)
    requires pairs != []
    requires forall i :: 0 <= i < |pairs| - 1 ==> pairs[i].1 != pairs[|pairs| - 1].1
    ensures Lookup(Synced(settings, env, pairs[..|pairs| - 1]), pairs[|pairs| - 1].1) == Lookup(settings, pairs[|pairs| - 1].1)
  {
    var n := |pairs| - 1;
    forall i | 0 <= i < n ensures pairs[..n][i].1 != pairs[n].1 {
      assert pairs[..n][i] == pairs[i];
    }
    SyncLeavesOthers(settings, env, pairs[..n], pairs[n].1);
  }

  /** The last pair's key agrees with the environment after the loop. */
  lemma LastPairAgrees(settings: map<string, string>, env: map<string, string>, pairs: seq<(string, string)>)
    requires pairs != []
    requires forall i :: 0 <= i < |pairs| - 1 ==> pairs[i].1 != pairs[|pairs| - 1].1
    ensures Agrees(settings, Synced(settings, env, pairs), env, pairs[|pairs| - 1])
  {
    var n := |pairs| - 1;
    LastKeyUntouched(settings, env, pairs);
    PairAgrees(Synced(settings, env, pairs[..n]), env, pairs[n]);
  }

  /**
   * After the loop, every mapped setting whose variable is set agrees with it
   * once both are stripped; the ones whose variable is unset are untouched.
   */
  lemma {:induction false} SyncAgrees(settings: map<string, string>, env: map<string, string>, pairs: seq<(string, string)>, j: nat)
    requires Distinct(pairs) && j < |pairs|
    ensures Agrees(settings, Synced(settings, env, pairs), env, pairs[j])
  {
    var n := |pairs| - 1;
    if j < n {
      DistinctPrefix(pairs, n);
      SyncAgrees(settings, env, pairs[..n], j);
      assert pairs[..n][j] == pairs[j];
      DistinctAt(pairs, j, n);
      OtherPairKeeps(settings, Synced(settings, env, pairs[..n]), env, pairs[j], pairs[n]);
    } else {
      forall i | 0 <= i < n ensures pairs[i].1 != pairs[n].1 {
        DistinctAt(pairs, i, n);
      }
      LastPairAgrees(settings, env, pairs);
    }
  }

  /** A loop in which no pair needs a write changes nothing. */
  lemma {:induction false} NothingToWrite(settings: map<string, string>, env: map<string, string>, pairs: seq<(string, string)>)
    requires forall i :: 0 <= i < |pairs| ==> !Writes(settings, env, pairs[i])
    ensures Synced(settings, env, pairs) == settings
    ensures ChangedKeys(settings, env, pairs) == []
  {
    if pairs != [] {
      NothingToWrite(settings, env, pairs[..|pairs| - 1]);
    }
  }

  /**
   * A second pass with the same environment writes nothing, provided no set
   * variable is blank: every stored value then matches its variable.
   */
  lemma SecondPassWritesNothing(settings: map<string, string>, env: map<string, string>, pairs: seq<(string, string)>)
    requires Distinct(pairs)
    requires forall i :: 0 <= i < |pairs| && pairs[i].0 in env ==> Strip(env[pairs[i].0]) != ""
    ensures var r := Synced(settings, env, pairs);
      ChangedKeys(r, env, pairs) == [] && Synced(r, env, pairs) == r
  {
    var r := Synced(settings, env, pairs);
    forall i | 0 <= i < |pairs| ensures !Writes(r, env, pairs[i]) {
      SyncAgrees(settings, env, pairs, i);
      if pairs[i].0 in env {
        assert Strip(r[pairs[i].1]) != "";
      }
    }
    NothingToWrite(r, env, pairs);
  }

  /** The last pair is written whenever its variable is set and its stored value is falsy. */
  lemma LastPairWrites(settings: map<string, string>, env: map<string, string>, pairs: seq<(string, string)>)
    requires pairs != []
    requires forall i :: 0 <= i < |pairs| - 1 ==> pairs[i].1 != pairs[|pairs| - 1].1
    requires pairs[|pairs| - 1].0 in env && !Truthy(Lookup(settings, pairs[|pairs| - 1].1))
    ensures pairs[|pairs| - 1].1 in ChangedKeys(settings, env, pairs)
    ensures Synced(settings, env, pairs)[pairs[|pairs| - 1].1] == Strip(env[pairs[|pairs| - 1].0])
  {
    LastKeyUntouched(settings, env, pairs);
  }

  /**
   * A blank variable is written again on every pass: the empty string it
   * leaves in the store is falsy, so it compares as None next time.
   */
  lemma BlankValueRewritten()
    ensures var env := map[SyncMap[2].0 := " "];
      var r := Synced(map[], env, SyncMap);
      SyncMap[2].1 in ChangedKeys(r, env, SyncMap)
  {
    var env := map[SyncMap[2].0 := " "];
    SyncMapDistinct();
    DistinctAt(SyncMap, 0, 2);
    DistinctAt(SyncMap, 1, 2);
    LastPairWrites(map[], env, SyncMap);
    var r := Synced(map[], env, SyncMap);
    assert Strip(" ") == "";
    LastPairWrites(r, env, SyncMap);
  }

  class ConfigSyncService {
    const db: Database
    /** The modification time seen last, None before the first check. */
    var lastModified: Option<int>

    constructor(db: Database)
      ensures this.db == db && lastModified == None
    {
      this.db := db;
      lastModified := None;
    }

    /**
     * `check_and_sync()`: nothing without a file; the first look only records
     * the time; an unchanged time does nothing; a new time is recorded and the
     * loop runs, the result telling whether it wrote anything.
     */
    method CheckAndSync(file: EnvFile) returns (synced: bool)
      modifies this`lastModified, db`systemSettings
      ensures !file.present ==> !synced && lastModified == old(lastModified) && db.systemSettings == old(db.systemSettings)
      ensures file.present && old(lastModified) == None ==>
        !synced && lastModified == Some(file.mtime) && db.systemSettings == old(db.systemSettings)
      ensures file.present && old(lastModified) == Some(file.mtime) ==>
        !synced && lastModified == old(lastModified) && db.systemSettings == old(db.systemSettings)
      ensures file.present && old(lastModified).Some? && old(lastModified) != Some(file.mtime) ==>
        && lastModified == Some(file.mtime)
        && db.systemSettings == Synced(old(db.systemSettings), file.env, SyncMap)
        && (synced <==> ChangedKeys(old(db.systemSettings), file.env, SyncMap) != [])
    {
      if !file.present {
        return false;
      }
      var currentModified := file.mtime;
      if lastModified.None? {
        lastModified := Some(currentModified);
        return false;
      }
      if Some(currentModified) == lastModified {
        return false;
      }
      lastModified := Some(currentModified);
      var changes := SyncSettings(file.env);
      synced := changes != [];
    }

    /** Lines 57-71: the diff-and-write loop; returns the keys written. */
    method SyncSettings(env: map<string, string>) returns (changes: seq<string>)
      modifies db`systemSettings
      ensures db.systemSettings == Synced(old(db.systemSettings), env, SyncMap)
      ensures changes == ChangedKeys(old(db.systemSettings), env, SyncMap)
    {
      changes := [];
      var i := 0;
      while i < |SyncMap|
        invariant 0 <= i <= |SyncMap|
        invariant db.systemSettings == Synced(old(db.systemSettings), env, SyncMap[..i])
        invariant changes == ChangedKeys(old(db.systemSettings), env, SyncMap[..i])
      {
        var (envKey, dbKey) := SyncMap[i];
        SyncStep(old(db.systemSettings), env, SyncMap, i);
        if envKey in env {
          var dbValue := db.GetSystemSetting(dbKey);
          var envValueNormalized := Strip(env[envKey]);
          var dbValueNormalized := if dbValue.Some? && dbValue.value != "" then Some(Strip(dbValue.value)) else None;
          if Some(envValueNormalized) != dbValueNormalized {
            db.SetSystemSetting(dbKey, envValueNormalized);
            changes := changes + [dbKey];
          }
        }
        i := i + 1;
      }
      assert SyncMap[..i] == SyncMap;
    }

    /**
     * `sync_to_env(db_key, value)`: an unmapped key or a missing file gives
     * False and writes nothing; otherwise the variable is written and the
     * file's new time `newMtime` is recorded, so the next check does nothing.
     */
    method SyncToEnv(dbKey: string, value: string, file: EnvFile, newMtime: int) returns (ok: bool, after: EnvFile)
      modifies this`lastModified
      ensures ok <==> dbKey in Reverse(SyncMap) && file.present
      ensures !ok ==> after == file && lastModified == old(lastModified)
      ensures ok ==> after == EnvFile(true, newMtime, file.env[Reverse(SyncMap)[dbKey] := value])
      ensures ok ==> lastModified == Some(after.mtime)
    {
      var reverseMap := Reverse(SyncMap);
      if dbKey !in reverseMap {
        return false, file;
      }
      var envKey := reverseMap[dbKey];
      if !file.present {
        return false, file;
      }
      after := EnvFile(true, newMtime, file.env[envKey := value]);
      lastModified := Some(after.mtime);
      ok := true;
    }
  }
}
