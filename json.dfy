/**
 * The org.json documents a survey renders itself to: a `JSONObject` is a
 * map from keys to values (it keeps no key order), a `JSONArray` a sequence.
 */
module Json {
  import opened Wrappers

  datatype Json =
    | JNull
    | JBool(b: bool)
    | JNumber(n: int)
    | JString(s: string)
    | JArray(elems: seq<Json>)
    | JObject(fields: map<string, Json>)

  /**
   * `JSONObject.put(key, value)`: a Java null value (`None`) removes the key
   * instead of storing it; any other value replaces what the key held.
   */
  function Put(obj: map<string, Json>, key: string, value: Option<Json>): map<string, Json>
  {
    match value
    case None => obj - {key}
    case Some(v) => obj[key := v]
  }

  /** After a `put`, the key holds the value (or is absent for null), and no other key changes. */
  lemma PutFacts(obj: map<string, Json>, key: string, value: Option<Json>)
    ensures key in Put(obj, key, value) <==> value.Some?
    ensures value.Some? ==> Put(obj, key, value)[key] == value.value
    ensures forall k :: k != key ==> (k in Put(obj, key, value) <==> k in obj)
    ensures forall k :: k != key && k in obj ==> Put(obj, key, value)[k] == obj[k]
  {
  }

  /** `if (flag) obj.put(key, value)`. */
  function PutIf(flag: bool, obj: map<string, Json>, key: string, value: Option<Json>): map<string, Json>
  {
    if flag then Put(obj, key, value) else obj
  }

  /** One statement `if (flag) obj.put(key, value)` of a run of them. */
  datatype GuardedPut = GuardedPut(flag: bool, key: string, value: Option<Json>)

  /** The fields of a fresh `JSONObject` after a run of guarded puts, made in order. */
  function ApplyPuts(puts: seq<GuardedPut>): map<string, Json>
    decreases |puts|
  {
    if puts == [] then map[]
    else
      var last := puts[|puts| - 1];
      PutIf(last.flag, ApplyPuts(puts[..|puts| - 1]), last.key, last.value)
  }

  /** A run extended by one more put applies that put last. */
  lemma ApplyPutsSnoc(init: seq<GuardedPut>, last: GuardedPut)
    ensures ApplyPuts(init + [last]) == PutIf(last.flag, ApplyPuts(init), last.key, last.value)
  {
    assert (init + [last])[..|init|] == init;
  }

  /** The keys a run of guarded puts may write. */
  function PutKeys(puts: seq<GuardedPut>): set<string>
  {
    set i | 0 <= i < |puts| :: puts[i].key
  }

  /** No two puts of the run name the same key. */
  predicate DistinctKeys(puts: seq<GuardedPut>)
  {
    forall i, j :: 0 <= i < j < |puts| ==> puts[i].key != puts[j].key
  }

  /** A run of guarded puts writes no key but its own. */
  lemma {:induction false} ApplyPutsKeys(puts: seq<GuardedPut>)
    ensures ApplyPuts(puts).Keys <= PutKeys(puts)
    decreases |puts|
  {
    if puts != [] {
      var init := puts[..|puts| - 1];
      var last := puts[|puts| - 1];
      ApplyPutsKeys(init);
      PutFacts(ApplyPuts(init), last.key, last.value);
      forall k | k in ApplyPuts(puts)
        ensures k in PutKeys(puts)
      {
        if k != last.key {
          var i :| 0 <= i < |init| && init[i].key == k;
          assert puts[i].key == k;
        } else {
          assert puts[|puts| - 1].key == k;
        }
      }
    }
  }

  /**
   * With distinct keys, each put decides its key on its own: the key is
   * present exactly when the flag is set and the value is not null, and it
   * then holds that value.
   */
  lemma {:induction false} ApplyPutsAt(puts: seq<GuardedPut>, i: int)
    requires DistinctKeys(puts)
    requires 0 <= i < |puts|
    ensures puts[i].key in ApplyPuts(puts) <==> puts[i].flag && puts[i].value.Some?
    ensures puts[i].key in ApplyPuts(puts) ==> ApplyPuts(puts)[puts[i].key] == puts[i].value.value
    decreases |puts|
  {
    var init := puts[..|puts| - 1];
    var last := puts[|puts| - 1];
    PutFacts(ApplyPuts(init), last.key, last.value);
    if i < |puts| - 1 {
      assert init[i] == puts[i];
      ApplyPutsAt(init, i);
    } else {
      ApplyPutsKeys(init);
      assert last.key !in PutKeys(init);
    }
  }
}
