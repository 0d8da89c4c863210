// Health classification of the key pool, computed from a snapshot of the
// key manager: its metrics table, its key count and its current index.
module ApiHealth {
  import opened Wrappers
  import Text
  import KM = KeyManager

  /** What the health functions read from the key manager. */
  datatype Snapshot = Snapshot(metrics: map<string, KM.KeyMetrics>, keyCount: nat, currentIndex: nat)

  datatype HealthMetrics = HealthMetrics(
    totalKeys: nat,
    healthyKeys: nat,
    currentKeyIndex: nat,
    metrics: map<string, KM.KeyMetrics>)

  datatype HealthStatus = HealthyPool | DegradedPool | CriticalPool

  /** The snapshot of a well-formed key manager. */
  function SnapshotOf(km: KM.KeyManager): (s: Snapshot)
    requires km.Valid()
    reads km
    ensures s.keyCount == |km.keys| && s.metrics.Keys == KM.Masks(km.keys)
  {
    Snapshot(km.GetMetrics(), km.GetKeyCount(), km.GetCurrentKeyIndex())
  }

  /** The masked keys whose record says healthy. */
  function HealthyMasks(m: map<string, KM.KeyMetrics>): (h: set<string>)
    ensures h <= m.Keys
    ensures forall k | k in m :: k in h <==> m[k].status == KM.Healthy
  {
    set k | k in m && m[k].status == KM.Healthy
  }

  /** getAPIHealthMetrics: healthy records are counted, keys are counted; a
    * failure to read the key manager yields all zeros and an empty table. */
  function GetAPIHealthMetrics(read: Result<Snapshot>): (r: HealthMetrics)
    ensures read.Err? ==> r == HealthMetrics(0, 0, 0, map[])
    ensures read.Ok? ==> r.totalKeys == read.value.keyCount && r.metrics == read.value.metrics
                         && r.currentKeyIndex == read.value.currentIndex
                         && r.healthyKeys == |HealthyMasks(read.value.metrics)|
                         && r.healthyKeys <= |read.value.metrics|
  {
    match read
    case Err(_) => HealthMetrics(0, 0, 0, map[])
    case Ok(s) =>
      KM.SubsetCard(HealthyMasks(s.metrics), s.metrics.Keys);
      HealthMetrics(s.keyCount, |HealthyMasks(s.metrics)|, s.currentIndex, s.metrics)
  }

  /** For a well-formed key manager there are never more healthy records than keys. */
  lemma HealthyKeysAtMostTotal(km: KM.KeyManager)
    requires km.Valid()
    ensures var h := GetAPIHealthMetrics(Ok(SnapshotOf(km)));
            h.healthyKeys <= h.totalKeys
  {
    KM.MasksBound(km.keys);
  }

  /** Once every record is healthy, every record counts as healthy. */
  lemma AllRecordsHealthy(m: map<string, KM.KeyMetrics>)
    requires forall k | k in m :: m[k].status == KM.Healthy
    ensures |HealthyMasks(m)| == |m|
  {
    assert HealthyMasks(m) == m.Keys;
  }

  /** Keys that share a mask share a record: a freshly loaded pool of three
    * or more keys shorter than sixteen characters, all healthy, has one
    * healthy record however many keys it has, and is reported degraded. */
  lemma SharedMasksLookDegraded(keys: seq<string>)
    requires |keys| >= 3
    requires forall i | 0 <= i < |keys| :: |keys[i]| < 16
    ensures var s := Snapshot(KM.InitialMetrics(keys), |keys|, 0);
            && (forall k | k in s.metrics :: s.metrics[k].status == KM.Healthy)
            && GetAPIHealthMetrics(Ok(s)).healthyKeys == 1
            && GetHealthStatus(Ok(s)) == DegradedPool
  {
    assert KM.MaskKey(keys[0]) == "***";
    assert forall k | k in keys :: KM.MaskKey(k) == "***";
    assert KM.Masks(keys) == {"***"};
    var m := KM.InitialMetrics(keys);
    assert HealthyMasks(m) == {"***"};
  }

  function IsAPIHealthy(read: Result<Snapshot>): (b: bool)
    ensures b <==> GetAPIHealthMetrics(read).healthyKeys > 0
  {
    GetAPIHealthMetrics(read).healthyKeys > 0
  }

  /** critical with no healthy record; degraded when the healthy records are
    * fewer than half the keys (real division); healthy otherwise. */
  function GetHealthStatus(read: Result<Snapshot>): (st: HealthStatus)
    ensures var h := GetAPIHealthMetrics(read);
            && (st == CriticalPool <==> h.healthyKeys == 0)
            && (st == DegradedPool <==> h.healthyKeys > 0 && 2 * h.healthyKeys < h.totalKeys)
            && (st == HealthyPool <==> h.healthyKeys > 0 && 2 * h.healthyKeys >= h.totalKeys)
  {
    var h := GetAPIHealthMetrics(read);
    if h.healthyKeys == 0 then CriticalPool
    else if 2 * h.healthyKeys < h.totalKeys then DegradedPool
    else HealthyPool
  }

  /** The pool is usable exactly when its status is not critical; an
    * unreadable key manager is critical. */
  lemma HealthyIffNotCritical(read: Result<Snapshot>)
    ensures IsAPIHealthy(read) <==> GetHealthStatus(read) != CriticalPool
    ensures read.Err? ==> GetHealthStatus(read) == CriticalPool && !IsAPIHealthy(read)
  {
  }

  function StatusName(st: HealthStatus): string
  {
    match st
    case HealthyPool => "healthy"
    case DegradedPool => "degraded"
    case CriticalPool => "critical"
  }

  function StatusEmoji(st: HealthStatus): string
  {
    match st
    case HealthyPool => "\U{2705}"
    case DegradedPool => "\U{26A0}\U{FE0F}"
    case CriticalPool => "\U{274C}"
  }

  /** "<emoji> <STATUS>: <healthy>/<total> keys available". */
  function GetHealthSummary(read: Result<Snapshot>): (s: string)
    ensures var st := GetHealthStatus(read);
            var h := GetAPIHealthMetrics(read);
            && s == StatusEmoji(st) + " " + Text.Upper(StatusName(st)) + ": "
                    + Text.NatToString(h.healthyKeys) + "/" + Text.NatToString(h.totalKeys) + " keys available"
            && Text.StartsWith(s, StatusEmoji(st) + " " + Text.Upper(StatusName(st)) + ": ")
            && Text.EndsWith(s, Text.NatToString(h.healthyKeys) + "/" + Text.NatToString(h.totalKeys) + " keys available")
  {
    var h := GetAPIHealthMetrics(read);
    var st := GetHealthStatus(read);
    var prefix := StatusEmoji(st) + " " + Text.Upper(StatusName(st)) + ": ";
    var suffix := Text.NatToString(h.healthyKeys) + "/" + Text.NatToString(h.totalKeys) + " keys available";
    var s := prefix + suffix;
    assert s == StatusEmoji(st) + " " + Text.Upper(StatusName(st)) + ": "
                + Text.NatToString(h.healthyKeys) + "/" + Text.NatToString(h.totalKeys) + " keys available";
    assert s[..|prefix|] == prefix;
    assert s[|s| - |suffix|..] == suffix;
    s
  }

  /** The first character of a summary tells the three statuses apart. */
  lemma SummaryShowsStatus(a: Result<Snapshot>, b: Result<Snapshot>)
    requires GetHealthStatus(a) != GetHealthStatus(b)
    ensures GetHealthSummary(a)[0] != GetHealthSummary(b)[0]
  {
  }
}
