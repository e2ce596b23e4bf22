/**
 * The upload checkpoint store: an insertion-ordered map from record
 * identifier to the last checkpoint written for it, mirrored to a file that
 * holds the map's values in order.
 */
module Progress {
  import opened Types

  /** One checkpoint. The identity fields may be `undefined` when the caller omitted them. */
  datatype UploadProgress = UploadProgress(
    recordId: Text, drama: string, date: Text, account: Text,
    totalBatches: nat, completedBatches: nat, lastUpdated: string)

  /**
   * An insertion-ordered map, as a JavaScript `Map` behaves: `order` lists the
   * keys in the order they were first inserted since their last deletion.
   */
  datatype Store = Store(order: seq<Text>, entries: map<Text, UploadProgress>)

  predicate Distinct(s: seq<Text>)
  {
    forall i, j :: 0 <= i < j < |s| ==> s[i] != s[j]
  }

  /** The key order lists every key once, and each checkpoint sits under its own record identifier. */
  ghost predicate WellFormed(st: Store)
  {
    && Distinct(st.order)
    && (forall k :: k in st.entries <==> k in st.order)
    && (forall k | k in st.entries :: st.entries[k].recordId == k)
  }

  const Empty := Store([], map[])

  /** `map.set(k, v)`: a new key goes last; an existing key keeps its place. */
  function Put(st: Store, k: Text, v: UploadProgress): (r: Store)
    ensures r.entries == st.entries[k := v]
    ensures k in st.order ==> r.order == st.order
    ensures k !in st.order ==> r.order == st.order + [k]
    ensures WellFormed(st) && v.recordId == k ==> WellFormed(r)
  {
    if k in st.order then Store(st.order, st.entries[k := v])
    else Store(st.order + [k], st.entries[k := v])
  }

  /** The sequence without its occurrences of `k`. */
  function Without(s: seq<Text>, k: Text): (r: seq<Text>)
    ensures forall x :: x in r <==> x in s && x != k
    ensures Distinct(s) ==> Distinct(r)
  {
    if s == [] then []
    else if s[0] == k then Without(s[1..], k)
    else
      var rest := Without(s[1..], k);
      assert Distinct(s) ==> s[0] !in s[1..] && Distinct(s[1..]);
      [s[0]] + rest
  }

  /** `map.delete(k)`. */
  function Delete(st: Store, k: Text): (r: Store)
    ensures r.entries == st.entries - {k}
    ensures WellFormed(st) ==> WellFormed(r)
  {
    Store(Without(st.order, k), st.entries - {k})
  }

  /** `Array.from(map.values())`: the checkpoints in key order. */
  function Values(st: Store): (r: seq<UploadProgress>)
    requires WellFormed(st)
    ensures |r| == |st.order|
    ensures forall i :: 0 <= i < |r| ==> r[i] == st.entries[st.order[i]]
  {
    seq(|st.order|, i requires 0 <= i < |st.order| => st.entries[st.order[i]])
  }

  /** Loading a saved list: clear, then `set(p.recordId, p)` for each element in order. */
  function Load(records: seq<UploadProgress>): (r: Store)
    ensures WellFormed(r)
  {
    if records == [] then Empty
    else
      var last := records[|records| - 1];
      Put(Load(records[..|records| - 1]), last.recordId, last)
  }

  /** The values of a well-formed store list each of its checkpoints exactly once. */
  lemma ValuesAreEntries(st: Store)
    requires WellFormed(st)
    ensures forall v :: v in Values(st) <==> exists k :: k in st.entries && st.entries[k] == v
  {
    forall v | exists k :: k in st.entries && st.entries[k] == v
      ensures v in Values(st)
    {
      var k :| k in st.entries && st.entries[k] == v;
      var i :| 0 <= i < |st.order| && st.order[i] == k;
      assert Values(st)[i] == v;
    }
  }

  /** Loading is keyed by record identifier: every identifier in the list becomes a key. */
  lemma {:induction false} LoadKeys(records: seq<UploadProgress>)
    ensures forall k :: k in Load(records).entries <==>
              exists i :: 0 <= i < |records| && records[i].recordId == k
  {
    if records != [] {
      var n := |records| - 1;
      LoadKeys(records[..n]);
      forall k ensures k in Load(records).entries <==>
                 exists i :: 0 <= i < |records| && records[i].recordId == k
      {
        if exists i :: 0 <= i < n && records[..n][i].recordId == k {
          var i :| 0 <= i < n && records[..n][i].recordId == k;
          assert records[i].recordId == k;
        }
        if exists i :: 0 <= i < |records| && records[i].recordId == k {
          var i :| 0 <= i < |records| && records[i].recordId == k;
          if i < n {
            assert records[..n][i].recordId == k;
          }
        }
      }
    }
  }

  /** When an identifier occurs several times, the last occurrence wins. */
  lemma {:induction false} LoadKeepsLast(records: seq<UploadProgress>, i: nat)
    requires i < |records|
    requires forall j :: i < j < |records| ==> records[j].recordId != records[i].recordId
    ensures records[i].recordId in Load(records).entries
    ensures Load(records).entries[records[i].recordId] == records[i]
  {
    var n := |records| - 1;
    if i < n {
      assert records[..n][i] == records[i];
      LoadKeepsLast(records[..n], i);
    }
  }

  /** Loading one more record is one more `set`. */
  lemma LoadSnoc(records: seq<UploadProgress>, r: UploadProgress)
    ensures Load(records + [r]) == Put(Load(records), r.recordId, r)
  {
    assert (records + [r])[..|records|] == records;
  }

  /** The keys and checkpoints of `st` agree with the key list `keys` and the map `target`. */
  ghost predicate Mirrors(st: Store, keys: seq<Text>, target: map<Text, UploadProgress>)
  {
    && st.order == keys
    && (forall x :: x in st.entries <==> x in keys)
    && (forall x | x in st.entries :: x in target && st.entries[x] == target[x])
  }

  /** Setting a key not yet present extends the mirrored key list by that key. */
  lemma PutNewKey(prev: Store, k: Text, keys: seq<Text>, target: map<Text, UploadProgress>)
    requires Mirrors(prev, keys, target)
    requires k !in keys && k in target
    ensures Mirrors(Put(prev, k, target[k]), keys + [k], target)
  {
  }

  lemma TakeOneMore<T>(s: seq<T>, j: nat)
    requires 0 < j <= |s|
    ensures s[..j] == s[..j - 1] + [s[j - 1]]
  {
  }

  /** In a list without repeats, no key occurs before its own position. */
  lemma NotInEarlierKeys(s: seq<Text>, i: nat)
    requires Distinct(s) && i < |s|
    ensures s[i] !in s[..i]
  {
    forall h | 0 <= h < i
      ensures s[..i][h] != s[i]
    {
    }
  }

  /** Loading one more record under a fresh key extends the mirrored key list by that key. */
  lemma LoadFreshKey(rs: seq<UploadProgress>, v: UploadProgress, keys: seq<Text>, target: map<Text, UploadProgress>)
    requires Mirrors(Load(rs), keys, target)
    requires v.recordId !in keys && v.recordId in target && target[v.recordId] == v
    ensures Mirrors(Load(rs + [v]), keys + [v.recordId], target)
  {
    LoadSnoc(rs, v);
    PutNewKey(Load(rs), v.recordId, keys, target);
  }

  /** Loading the first `j` saved values rebuilds the store's first `j` keys and their checkpoints. */
  lemma {:induction false} LoadValuesPrefix(st: Store, j: nat)
    requires WellFormed(st) && j <= |st.order|
    ensures Mirrors(Load(Values(st)[..j]), st.order[..j], st.entries)
  {
    if j > 0 {
      LoadValuesPrefix(st, j - 1);
      var vs := Values(st);
      TakeOneMore(vs, j);
      TakeOneMore(st.order, j);
      NotInEarlierKeys(st.order, j - 1);
      assert vs[j - 1].recordId == st.order[j - 1];
      LoadFreshKey(vs[..j - 1], vs[j - 1], st.order[..j - 1], st.entries);
    }
  }

  /** Saving then loading gives back the same store: same keys, same order, same checkpoints. */
  lemma LoadSavedStore(st: Store)
    requires WellFormed(st)
    ensures Load(Values(st)) == st
  {
    LoadValuesPrefix(st, |st.order|);
    assert Values(st)[..|st.order|] == Values(st);
    assert st.order[..|st.order|] == st.order;
    var loaded := Load(Values(st));
    assert Mirrors(loaded, st.order, st.entries);
    assert loaded.entries == st.entries;
  }

  /** What reading the checkpoint file produced. */
  datatype FileRead = Missing | Unreadable | Parsed(records: seq<UploadProgress>)

  /**
   * `ProgressManager`. `file` is the checkpoint list the file holds: each
   * mutation writes the map's values to it, in key order.
   */
  class ProgressManager {
    var progressMap: Store
    var file: seq<UploadProgress>

    ghost predicate Valid()
      reads this
    {
      WellFormed(progressMap)
    }

    /** The file holds the map's values in key order. */
    ghost predicate Synced()
      requires Valid()
      reads this
    {
      file == Values(progressMap)
    }

    /** The constructor loads whatever the file holds; a missing or unreadable file gives an empty map. */
    constructor (disk: FileRead)
      ensures Valid()
      ensures disk.Parsed? ==> progressMap == Load(disk.records) && file == disk.records
      ensures !disk.Parsed? ==> progressMap == Empty && file == []
    {
      progressMap := Empty;
      file := if disk.Parsed? then disk.records else [];
      new;
      LoadProgress(disk);
    }

    /**
     * `loadProgress`: on a readable file, clear the map and set each record
     * under its identifier; on a missing or unreadable file, change nothing.
     */
    method LoadProgress(disk: FileRead)
      requires Valid()
      modifies this
      ensures Valid()
      ensures disk.Parsed? ==> progressMap == Load(disk.records)
      ensures !disk.Parsed? ==> progressMap == old(progressMap)
      ensures file == old(file)
    {
      if !disk.Parsed? {
        return;
      }
      var records := disk.records;
      progressMap := Empty;
      for i := 0 to |records|
        invariant progressMap == Load(records[..i])
        invariant file == old(file)
      {
        assert records[..i + 1][..i] == records[..i];
        progressMap := Put(progressMap, records[i].recordId, records[i]);
      }
      assert records[..|records|] == records;
    }

    /** `saveProgress`: the file receives the map's values in key order. */
    method SaveProgress()
      requires Valid()
      modifies this
      ensures Valid() && progressMap == old(progressMap)
      ensures file == Values(progressMap)
    {
      file := Values(progressMap);
    }

    /** `getProgress`: the checkpoint stored under `recordId`, if any. */
    function GetProgress(recordId: Text): (r: Option<UploadProgress>)
      reads this
      ensures r.Some? <==> recordId in progressMap.entries
      ensures r.Some? ==> r.value == progressMap.entries[recordId]
    {
      if recordId in progressMap.entries then Some(progressMap.entries[recordId]) else None
    }

    /**
     * `updateProgress`: the entry for `recordId` becomes exactly the given
     * fields, stamped with `now`; other keys are unchanged; the file is rewritten.
     */
    method UpdateProgress(recordId: Text, drama: string, date: Text, account: Text,
                          totalBatches: nat, completedBatches: nat, now: string)
      requires Valid()
      modifies this
      ensures Valid()
      ensures progressMap == Put(old(progressMap), recordId,
                                 UploadProgress(recordId, drama, date, account,
                                                totalBatches, completedBatches, now))
      ensures file == Values(progressMap)
    {
      var progress := UploadProgress(recordId, drama, date, account, totalBatches, completedBatches, now);
      progressMap := Put(progressMap, recordId, progress);
      SaveProgress();
    }

    /** `clearProgress`: removes `recordId` and rewrites the file; an absent key changes nothing. */
    method ClearProgress(recordId: Text, drama: string)
      requires Valid()
      modifies this
      ensures Valid()
      ensures recordId in old(progressMap.entries) ==>
                progressMap == Delete(old(progressMap), recordId) && file == Values(progressMap)
      ensures recordId !in old(progressMap.entries) ==>
                progressMap == old(progressMap) && file == old(file)
    {
      if recordId in progressMap.entries {
        progressMap := Delete(progressMap, recordId);
        SaveProgress();
      }
    }

    /** `clearAllProgress`: the map is empty and the file holds no checkpoint. */
    method ClearAllProgress()
      requires Valid()
      modifies this
      ensures Valid()
      ensures progressMap == Empty && file == []
    {
      progressMap := Empty;
      SaveProgress();
    }

    /** `getAllProgress`: one checkpoint per key, in key order. */
    function GetAllProgress(): (r: seq<UploadProgress>)
      requires Valid()
      reads this
      ensures |r| == |progressMap.order|
      ensures forall i :: 0 <= i < |r| ==> r[i] == progressMap.entries[progressMap.order[i]]
    {
      Values(progressMap)
    }
  }

  /** `set` replaces only the given key's checkpoint. */
  lemma PutTouchesOnlyItsKey(st: Store, k: Text, v: UploadProgress, other: Text)
    requires other != k
    ensures other in Put(st, k, v).entries <==> other in st.entries
    ensures other in st.entries ==> Put(st, k, v).entries[other] == st.entries[other]
    ensures Put(st, k, v).entries[k] == v
  {
  }

  /** `delete` removes only the given key. */
  lemma DeleteTouchesOnlyItsKey(st: Store, k: Text, other: Text)
    requires other != k
    ensures k !in Delete(st, k).entries
    ensures other in Delete(st, k).entries <==> other in st.entries
    ensures other in st.entries ==> Delete(st, k).entries[other] == st.entries[other]
  {
  }
}
