/**
 * The backup service: snapshots of a document's content kept in the browser's key/value
 * store under keys `design_backup_<id>`, capped at ten by pruning the oldest after every
 * automatic backup.
 */
module Backup {
  import opened Wrappers
  import opened DocData
  import Text
  import Sorting

  const KeyPrefix: string := "design_backup_"
  const MaxBackups: nat := 10

  datatype Metadata = Metadata(modificationId: Option<string>, reason: string)

  datatype BackupData = BackupData(
    id: string,
    timestamp: int,
    name: string,
    data: WebUIData,
    metadata: Metadata)

  /**
   * What the store holds under a key: a serialised backup, or some other text. Other text
   * under a backup key makes `JSON.parse` throw unless it is empty (empty values are skipped).
   */
  datatype Stored = Saved(backup: BackupData) | Other(text: string)

  function StorageKey(id: string): string
  {
    KeyPrefix + id
  }

  predicate IsBackupKey(k: string)
  {
    Text.StartsWith(k, KeyPrefix)
  }

  /** Newest first: the comparator `(a, b) => b.timestamp - a.timestamp`. */
  function Newest(): (BackupData, BackupData) -> bool
  {
    Sorting.Descending((b: BackupData) => b.timestamp)
  }

  /** The backups the store holds under backup keys. */
  function BackupSet(items: map<string, Stored>): set<BackupData>
  {
    set k | k in items && IsBackupKey(k) && items[k].Saved? :: items[k].backup
  }

  /** Some backup key holds non-empty text that is not a backup, so listing fails. */
  predicate Corrupt(items: map<string, Stored>)
  {
    exists k :: k in items && IsBackupKey(k) && items[k].Other? && items[k].text != ""
  }

  /** Every backup is stored under the key built from its own id, as the service writes them. */
  predicate WellFormed(items: map<string, Stored>)
  {
    forall k :: k in items && IsBackupKey(k) && items[k].Saved? ==> k == StorageKey(items[k].backup.id)
  }

  predicate NoDuplicates<T(==)>(s: seq<T>)
  {
    forall i, j :: 0 <= i < j < |s| ==> s[i] != s[j]
  }

  lemma {:induction false} DistinctCard<T>(s: seq<T>)
    ensures |set x | x in s| <= |s|
  {
    if s != [] {
      DistinctCard(s[1..]);
      assert (set x | x in s) == (set x | x in s[1..]) + {s[0]};
    }
  }

  /** A list without repeats has exactly as many distinct elements as entries. */
  lemma {:induction false} DistinctCardExact<T>(s: seq<T>)
    requires NoDuplicates(s)
    ensures |set x | x in s| == |s|
  {
    if s != [] {
      DistinctCardExact(s[1..]);
      assert s[0] !in s[1..] by {
        forall j | 0 <= j < |s[1..]| ensures s[1..][j] != s[0] {
          assert s[1..][j] == s[j + 1];
        }
      }
      assert (set x | x in s) == (set x | x in s[1..]) + {s[0]};
    }
  }

  lemma StorageKeyIsBackupKey(id: string)
    ensures IsBackupKey(StorageKey(id))
  {
    assert StorageKey(id)[..|KeyPrefix|] == KeyPrefix;
  }

  /** In a well-formed store each backup sits under its own key. */
  lemma StoredUnderOwnKey(items: map<string, Stored>, b: BackupData)
    requires WellFormed(items) && b in BackupSet(items)
    ensures StorageKey(b.id) in items && items[StorageKey(b.id)] == Saved(b)
  {
    var k :| k in items && IsBackupKey(k) && items[k].Saved? && items[k].backup == b;
  }

  /** In a well-formed store distinct backups have distinct keys. */
  lemma DistinctKeys(items: map<string, Stored>, b1: BackupData, b2: BackupData)
    requires WellFormed(items) && b1 in BackupSet(items) && b2 in BackupSet(items) && b1 != b2
    ensures StorageKey(b1.id) != StorageKey(b2.id)
  {
    StoredUnderOwnKey(items, b1);
    StoredUnderOwnKey(items, b2);
  }

  /**
   * The relation between the store before and after `cleanupOldBackups`: nothing but backup
   * keys disappears and nothing is added; when listing succeeds on a well-formed store, every
   * backup stays when there are at most `MaxBackups`, otherwise exactly `MaxBackups` remain,
   * and none removed is newer than one kept; when listing fails, nothing changes.
   */
  ghost predicate CleanedUp(before: map<string, Stored>, after: map<string, Stored>)
  {
    && after.Keys <= before.Keys
    && (forall k :: k in after ==> after[k] == before[k])
    && (forall k :: k in before && !IsBackupKey(k) ==> k in after)
    && (Corrupt(before) ==> after == before)
    && (!Corrupt(before) && WellFormed(before) ==>
          && BackupSet(after) <= BackupSet(before)
          && |BackupSet(after)| == (if |BackupSet(before)| <= MaxBackups then |BackupSet(before)| else MaxBackups)
          && (forall gone, kept :: gone in BackupSet(before) - BackupSet(after) && kept in BackupSet(after)
                ==> gone.timestamp <= kept.timestamp))
  }

  /** The browser's key/value store, seen through the backup service. */
  class BackupStore {
    var items: map<string, Stored>

    constructor (initial: map<string, Stored>)
      ensures items == initial
    {
      items := initial;
    }

    /** `getAllBackups`: every stored backup, newest first, or nothing when one entry does not parse. */
    method GetAllBackups() returns (r: seq<BackupData>)
      ensures Corrupt(items) ==> r == []
      ensures !Corrupt(items) ==> Sorting.Sorted(r, Newest())
      ensures !Corrupt(items) ==> forall b :: b in r <==> b in BackupSet(items)
      ensures !Corrupt(items) && WellFormed(items) ==> NoDuplicates(r)
    {
      var keys := items.Keys;
      var found: seq<BackupData> := [];
      while keys != {}
        invariant keys <= items.Keys
        invariant forall k :: k in items && k !in keys && IsBackupKey(k) ==> !(items[k].Other? && items[k].text != "")
        invariant forall b :: b in found <==>
                    exists k :: k in items && k !in keys && IsBackupKey(k) && items[k] == Saved(b)
        invariant WellFormed(items) ==> NoDuplicates(found)
        decreases keys
      {
        var k :| k in keys;
        keys := keys - {k};
        if IsBackupKey(k) {
          match items[k]
          case Other(text) =>
            if text != "" {
              assert IsBackupKey(k) && items[k].Other? && items[k].text != "";
              return [];
            }
          case Saved(b) =>
            if WellFormed(items) {
              assert k == StorageKey(b.id);
              forall i | 0 <= i < |found| ensures found[i] != b {
                var ki :| ki in items && ki !in keys + {k} && IsBackupKey(ki) && items[ki] == Saved(found[i]);
                assert ki == StorageKey(found[i].id);
              }
            }
            found := found + [b];
        }
      }
      forall b | b in BackupSet(items) ensures b in found {
        var k :| k in items && IsBackupKey(k) && items[k].Saved? && items[k].backup == b;
        assert items[k] == Saved(b);
      }
      forall b | b in found ensures b in BackupSet(items) {
        var k :| k in items && IsBackupKey(k) && items[k] == Saved(b);
        assert items[k].backup == b;
      }
      Sorting.DescendingIsPreorder((b: BackupData) => b.timestamp);
      Sorting.SortSorted(found, Newest());
      r := Sorting.Sort(found, Newest());
      assert forall b :: b in r <==> b in multiset(found);
      if WellFormed(items) {
        SortedKeepsDistinct(found, r);
      }
    }

    /** `getBackup`: the backup stored for `id`, or null when it is missing or does not parse. */
    function GetBackup(id: string): (r: Option<BackupData>)
      reads this
      ensures r.Some? <==> StorageKey(id) in items && items[StorageKey(id)].Saved?
      ensures r.Some? ==> r.value == items[StorageKey(id)].backup
    {
      if StorageKey(id) in items && items[StorageKey(id)].Saved? then Some(items[StorageKey(id)].backup)
      else None
    }

    /** `restoreFromBackup`: a copy of the stored document content, or null for an unknown id. */
    function RestoreFromBackup(id: string): (r: Option<WebUIData>)
      reads this
      ensures r.None? <==> GetBackup(id).None?
      ensures r.Some? ==> r.value == items[StorageKey(id)].backup.data
    {
      match GetBackup(id)
      case None => None
      case Some(b) => Some(b.data)
    }

    /** `deleteBackup`: removes the key of `id` and reports success. */
    method DeleteBackup(id: string) returns (ok: bool)
      modifies this
      ensures ok
      ensures items == old(items) - {StorageKey(id)}
      ensures GetBackup(id).None?
    {
      items := items - {StorageKey(id)};
      ok := true;
    }

    /** `cleanupOldBackups`: deletes every backup beyond the ten newest. */
    method CleanupOldBackups()
      modifies this
      ensures CleanedUp(old(items), items)
    {
      ghost var before := items;
      var backups := GetAllBackups();
      if |backups| > MaxBackups {
        var doomed := backups[MaxBackups..];
        for i := 0 to |doomed|
          invariant items == before - (set j | 0 <= j < i :: StorageKey(doomed[j].id))
        {
          var _ := DeleteBackup(doomed[i].id);
        }
        assert items == before - (set j | 0 <= j < |doomed| :: StorageKey(doomed[j].id));
        if !Corrupt(before) && WellFormed(before) {
          PruneKeepsNewest(before, items, backups);
        }
      } else if !Corrupt(before) {
        assert (set b | b in backups) == BackupSet(before);
        DistinctCard(backups);
      }
    }

    /** `createAutoBackup`: stores a copy of `data` under a fresh `auto_` id, then prunes old backups. */
    method CreateAutoBackup(data: WebUIData, reason: string, modificationId: Option<string>,
                            now: int, nonce: string, shownTime: string) returns (id: string)
      modifies this
      ensures id == "auto_" + Text.IntToString(now) + "_" + nonce
      ensures CleanedUp(old(items)[StorageKey(id) := Saved(AutoBackup(id, data, reason, modificationId, now, shownTime))], items)
    {
      id := "auto_" + Text.IntToString(now) + "_" + nonce;
      items := items[StorageKey(id) := Saved(AutoBackup(id, data, reason, modificationId, now, shownTime))];
      CleanupOldBackups();
    }

    /** `createManualBackup`: stores a copy of `data` under a fresh `manual_` id; never prunes. */
    method CreateManualBackup(data: WebUIData, title: string, now: int, nonce: string, shownTime: string)
      returns (id: string)
      modifies this
      ensures id == "manual_" + Text.IntToString(now) + "_" + nonce
      ensures items == old(items)[StorageKey(id) := Saved(ManualBackup(id, data, title, now, shownTime))]
    {
      id := "manual_" + Text.IntToString(now) + "_" + nonce;
      items := items[StorageKey(id) := Saved(ManualBackup(id, data, title, now, shownTime))];
    }

    /** `clearAllBackups`: deletes every listed backup; other keys are untouched. */
    method ClearAllBackups()
      modifies this
      ensures items.Keys <= old(items).Keys
      ensures forall k :: k in items ==> items[k] == old(items)[k]
      ensures forall k :: k in old(items) && !IsBackupKey(k) ==> k in items
      ensures Corrupt(old(items)) ==> items == old(items)
      ensures !Corrupt(old(items)) && WellFormed(old(items)) ==> BackupSet(items) == {}
    {
      ghost var before := items;
      var backups := GetAllBackups();
      for i := 0 to |backups|
        invariant items == before - (set j | 0 <= j < i :: StorageKey(backups[j].id))
      {
        var _ := DeleteBackup(backups[i].id);
      }
      if !Corrupt(before) && WellFormed(before) {
        forall k | k in before && IsBackupKey(k) && before[k].Saved?
          ensures k in (set j | 0 <= j < |backups| :: StorageKey(backups[j].id))
        {
          var b := before[k].backup;
          assert b in BackupSet(before);
          var j :| 0 <= j < |backups| && backups[j] == b;
          assert k == StorageKey(backups[j].id);
        }
      }
    }
  }

  /** The backup `createAutoBackup` writes. */
  function AutoBackup(id: string, data: WebUIData, reason: string, modificationId: Option<string>,
                      now: int, shownTime: string): (b: BackupData)
    ensures b.id == id && b.timestamp == now && b.data == data
    ensures b.metadata == Metadata(modificationId, reason)
  {
    BackupData(id, now, "自動バックアップ (" + shownTime + ")", data, Metadata(modificationId, reason))
  }

  /** The backup `createManualBackup` writes: an empty label is replaced by a dated default. */
  function ManualBackup(id: string, data: WebUIData, title: string, now: int, shownTime: string): (b: BackupData)
    ensures b.id == id && b.timestamp == now && b.data == data
    ensures b.name != ""
    ensures title != "" ==> b.name == title
    ensures b.metadata == Metadata(None, "手動バックアップ")
  {
    BackupData(id, now, if title != "" then title else "手動バックアップ (" + shownTime + ")",
               data, Metadata(None, "手動バックアップ"))
  }

  /** A sequence has no duplicates exactly when no element occurs in it twice. */
  lemma {:induction false} NoDuplicatesCount<T>(s: seq<T>)
    ensures NoDuplicates(s) <==> forall x :: multiset(s)[x] <= 1
  {
    if s != [] {
      var t := s[1..];
      assert s == [s[0]] + t;
      NoDuplicatesCount(t);
      assert multiset(s) == multiset{s[0]} + multiset(t);
      if NoDuplicates(s) {
        assert NoDuplicates(t) by {
          forall i, j | 0 <= i < j < |t| ensures t[i] != t[j] {
            assert t[i] == s[i + 1] && t[j] == s[j + 1];
          }
        }
        assert s[0] !in multiset(t);
      }
      if forall x :: multiset(s)[x] <= 1 {
        assert forall x :: multiset(t)[x] <= 1 by {
          forall x ensures multiset(t)[x] <= 1 {
            assert multiset(s)[x] <= 1;
          }
        }
        assert multiset(s)[s[0]] <= 1;
        forall i, j | 0 <= i < j < |s| ensures s[i] != s[j] {
          if i == 0 {
            assert s[j] == t[j - 1];
          } else {
            assert s[i] == t[i - 1] && s[j] == t[j - 1];
          }
        }
      }
    }
  }

  lemma SortedKeepsDistinct(s: seq<BackupData>, r: seq<BackupData>)
    requires NoDuplicates(s) && multiset(r) == multiset(s)
    ensures NoDuplicates(r)
  {
    NoDuplicatesCount(s);
    NoDuplicatesCount(r);
  }

  /** Deleting the keys of every backup after the first ten of the newest-first list keeps the ten newest. */
  lemma PruneKeepsNewest(before: map<string, Stored>, after: map<string, Stored>, backups: seq<BackupData>)
    requires WellFormed(before) && !Corrupt(before)
    requires |backups| > MaxBackups
    requires Sorting.Sorted(backups, Newest()) && NoDuplicates(backups)
    requires forall b :: b in backups <==> b in BackupSet(before)
    requires after == before - (set j | 0 <= j < |backups[MaxBackups..]| :: StorageKey(backups[MaxBackups..][j].id))
    ensures BackupSet(after) == set b | b in backups[..MaxBackups]
    ensures CleanedUp(before, after)
  {
    var kept := backups[..MaxBackups];
    var doomed := backups[MaxBackups..];
    forall b | b in BackupSet(after) ensures b in kept {
      var k :| k in after && IsBackupKey(k) && after[k].Saved? && after[k].backup == b;
      assert b in backups;
    }
    forall b | b in kept ensures b in BackupSet(after) {
      assert b in BackupSet(before);
      StoredUnderOwnKey(before, b);
      var i :| 0 <= i < MaxBackups && kept[i] == b;
      forall j | 0 <= j < |doomed| ensures StorageKey(doomed[j].id) != StorageKey(b.id) {
        assert doomed[j] == backups[MaxBackups + j] != backups[i];
        DistinctKeys(before, doomed[j], b);
      }
      var k := StorageKey(b.id);
      StorageKeyIsBackupKey(b.id);
      assert k in after && after[k] == Saved(b);
    }
    DistinctCardExact(kept);
    DistinctCardExact(backups);
    assert (set b | b in backups) == BackupSet(before);
    forall gone, keep | gone in BackupSet(before) - BackupSet(after) && keep in BackupSet(after)
      ensures gone.timestamp <= keep.timestamp
    {
      var i :| 0 <= i < |backups| && backups[i] == gone;
      var j :| 0 <= j < MaxBackups && kept[j] == keep;
      assert Newest()(backups[j], backups[i]);
    }
  }

  /**
   * Writing a backup under its own key keeps a store well-formed and listable, so the pruning
   * after `createAutoBackup` leaves at most ten backups, the newest ones.
   */
  lemma WriteKeepsListable(items: map<string, Stored>, b: BackupData)
    requires WellFormed(items) && !Corrupt(items)
    ensures WellFormed(items[StorageKey(b.id) := Saved(b)])
    ensures !Corrupt(items[StorageKey(b.id) := Saved(b)])
    ensures b in BackupSet(items[StorageKey(b.id) := Saved(b)])
  {
    var after := items[StorageKey(b.id) := Saved(b)];
    StorageKeyIsBackupKey(b.id);
    assert after[StorageKey(b.id)].backup == b;
  }
}
