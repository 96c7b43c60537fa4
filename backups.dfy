/** The backup list kept under the storage key `bubbleBoardBackups`. Auto-saves
    and manual backups append to the SAME list; they differ only in the length at
    which one oldest entry is shifted out (5 and 10) and in the description. */
module Backups {
  import opened Collections
  import opened Cards
  import opened History

  const FormatVersion: string := "1.0"
  const AutoBackupCap: nat := 5
  const ManualBackupCap: nat := 10
  const ManualDescription: string := "Manual backup"

  datatype Backup = Backup(cards: seq<Card>, timestamp: Timestamp, version: string, description: Option<string>)

  /** The backup `saveCards` appends after writing the collection. The list only
      loses an entry when it grows past 5, and then only one: a list that manual
      backups made longer keeps its length. */
  function AutoBackup(backups: seq<Backup>, cards: seq<Card>, now: Timestamp): (r: seq<Backup>)
    ensures |r| == if |backups| < AutoBackupCap then |backups| + 1 else |backups|
    ensures r[|r| - 1] == Backup(cards, now, FormatVersion, None)
  {
    PushBounded(backups, Backup(cards, now, FormatVersion, None), AutoBackupCap)
  }

  /** The backup `createBackup` appends, tagged "Manual backup"; the list keeps at most 10. */
  function ManualBackup(backups: seq<Backup>, cards: seq<Card>, now: Timestamp): (r: seq<Backup>)
    ensures |r| == if |backups| < ManualBackupCap then |backups| + 1 else |backups|
    ensures r[|r| - 1] == Backup(cards, now, FormatVersion, Some(ManualDescription))
  {
    PushBounded(backups, Backup(cards, now, FormatVersion, Some(ManualDescription)), ManualBackupCap)
  }

  /** Both paths keep the newest entries before the appended one, in order: only
      the oldest entry can be shifted out. */
  lemma BackupsKeepNewest(backups: seq<Backup>, cards: seq<Card>, now: Timestamp)
    ensures var r := AutoBackup(backups, cards, now); r[..|r| - 1] == backups[|backups| + 1 - |r|..]
    ensures var r := ManualBackup(backups, cards, now); r[..|r| - 1] == backups[|backups| + 1 - |r|..]
  {
  }

  /** Neither path lets a list of at most 10 backups grow beyond 10. */
  lemma BackupListBounded(backups: seq<Backup>, cards: seq<Card>, now: Timestamp)
    requires |backups| <= ManualBackupCap
    ensures |AutoBackup(backups, cards, now)| <= ManualBackupCap
    ensures |ManualBackup(backups, cards, now)| <= ManualBackupCap
  {
  }

  /** Why the list is not two rings: after manual backups fill it to 10, an
      auto-save still leaves 10 entries and evicts the oldest, manual or not. */
  lemma AutoSaveKeepsFullList(backups: seq<Backup>, cards: seq<Card>, now: Timestamp)
    requires |backups| == ManualBackupCap
    ensures AutoBackup(backups, cards, now) == backups[1..] + [Backup(cards, now, FormatVersion, None)]
  {
  }

  /** What the page keeps in local storage: the collection under `bubbleBoardCards`
      (`None` before the first save), the backup list under `bubbleBoardBackups`
      and the instant under `bubbleBoardLastBackup`. */
  datatype Storage = Storage(savedCards: Option<seq<Card>>, backups: seq<Backup>, lastBackup: Option<Timestamp>)

  /** Storage after `saveCards` at `now`: the collection, one more auto-backup and the save instant. */
  function Save(store: Storage, cards: seq<Card>, now: Timestamp): Storage {
    Storage(Some(cards), AutoBackup(store.backups, cards, now), Some(now))
  }

  /** Which backup `restoreFromBackup(index)` reads: entry `index` when `index >= 0`,
      the newest entry otherwise. `None` is the case the source cannot handle: an
      index past the end yields `undefined`. */
  function BackupToRestore(backups: seq<Backup>, index: int): (r: Option<Backup>)
    requires backups != []
    ensures index < 0 ==> r == Some(backups[|backups| - 1])
    ensures 0 <= index ==> (r.Some? <==> index < |backups|)
    ensures 0 <= index < |backups| ==> r == Some(backups[index])
  {
    if index >= 0 then
      if index < |backups| then Some(backups[index]) else None
    else Some(backups[|backups| - 1])
  }
}
