/** The seen-alert ledger: the `seen_alerts` table, keyed by alert id, with
    the time each alert was first and last seen. */
module Storage {

  /** A UTC instant in whole seconds. The table stores ISO-8601 text of one
      fixed width, and such text sorts in the same order as the instants. */
  type Timestamp = int

  datatype SeenRecord = SeenRecord(firstSeenAt: Timestamp, lastSeenAt: Timestamp)

  /** The table after `db_mark_seen(alertId)` at time `now`: an insert if the
      id is new, then a refresh of `last_seen_at`. */
  function Upsert(records: map<string, SeenRecord>, alertId: string, now: Timestamp)
    : (r: map<string, SeenRecord>)
    ensures r.Keys == records.Keys + {alertId}
    ensures alertId !in records ==> r[alertId] == SeenRecord(now, now)
    ensures alertId in records ==> r[alertId] == SeenRecord(records[alertId].firstSeenAt, now)
    ensures forall id :: id in records && id != alertId ==> r[id] == records[id]
    ensures |r| == if alertId in records then |records| else |records| + 1
  {
    var inserted := if alertId in records then records else records[alertId := SeenRecord(now, now)];
    inserted[alertId := inserted[alertId].(lastSeenAt := now)]
  }

  /** The ids whose record a prune with `cutoff` deletes. */
  function Expired(records: map<string, SeenRecord>, cutoff: Timestamp): (ids: set<string>)
    ensures ids <= records.Keys
    ensures forall id :: id in records ==> (id in ids <==> records[id].lastSeenAt < cutoff)
  {
    set id | id in records && records[id].lastSeenAt < cutoff
  }

  /** The table after `DELETE ... WHERE last_seen_at < cutoff`. */
  function Pruned(records: map<string, SeenRecord>, cutoff: Timestamp): (r: map<string, SeenRecord>)
    ensures r.Keys == records.Keys - Expired(records, cutoff)
    ensures forall id :: id in r ==> r[id] == records[id] && r[id].lastSeenAt >= cutoff
  {
    map id | id in records && records[id].lastSeenAt >= cutoff :: records[id]
  }

  /** The records a prune deletes and the records it keeps add up to the table. */
  lemma PrunedCount(records: map<string, SeenRecord>, cutoff: Timestamp)
    ensures |Pruned(records, cutoff)| + |Expired(records, cutoff)| == |records|
  {
    var kept := Pruned(records, cutoff).Keys;
    var gone := Expired(records, cutoff);
    assert kept !! gone;
    assert kept + gone == records.Keys;
    assert |kept + gone| == |kept| + |gone|;
    assert |Pruned(records, cutoff)| == |kept|;
    assert |records| == |records.Keys|;
  }

  /** Marking an id twice keeps one record whose first sighting is the
      earlier one and whose last sighting is the later call's time. */
  lemma {:induction false} UpsertTwice(records: map<string, SeenRecord>, alertId: string, t1: Timestamp, t2: Timestamp)
    ensures var once := Upsert(records, alertId, t1);
      var twice := Upsert(once, alertId, t2);
      twice.Keys == once.Keys &&
      twice[alertId] == SeenRecord(once[alertId].firstSeenAt, t2) &&
      twice[alertId].firstSeenAt == (if alertId in records then records[alertId].firstSeenAt else t1)
  {
  }

  class SeenLedger {
    var records: map<string, SeenRecord>

    /** `db_init`: an empty table. */
    constructor ()
      ensures records == map[]
    {
      records := map[];
    }

    /** `db_seen`: whether a record with this id exists. */
    method IsSeen(alertId: string) returns (seen: bool)
      ensures seen <==> alertId in records
    {
      seen := alertId in records;
    }

    /** `db_mark_seen`: insert the id if it is new, then refresh its last
        sighting. */
    method MarkSeen(alertId: string, now: Timestamp)
      modifies this
      ensures records == Upsert(old(records), alertId, now)
      ensures alertId in records && records[alertId].lastSeenAt == now
    {
      // INSERT OR IGNORE
      if alertId !in records {
        records := records[alertId := SeenRecord(now, now)];
      }
      // UPDATE ... SET last_seen_at
      records := records[alertId := records[alertId].(lastSeenAt := now)];
    }

    /** `db_prune_seen_before`: delete every record last seen before the
        cutoff and report how many went. */
    method PruneSeenBefore(cutoff: Timestamp) returns (removed: nat)
      modifies this
      ensures records == Pruned(old(records), cutoff)
      ensures removed == |Expired(old(records), cutoff)|
      ensures removed == |old(records)| - |records|
    {
      PrunedCount(records, cutoff);
      removed := |Expired(records, cutoff)|;
      records := Pruned(records, cutoff);
    }
  }
}
