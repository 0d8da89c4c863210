// The pool of Bytez API keys: loading the pool from the environment,
// per-key health records (kept per MASKED key), failing a key and rotating
// cyclically to the next healthy one.
module KeyManager {
  import opened Wrappers
  import Text

  datatype KeyStatus = Healthy | Failed

  /** Usage record of one masked key; times are milliseconds since the epoch. */
  datatype KeyMetrics = KeyMetrics(
    usageCount: nat,
    errorCount: nat,
    lastUsed: Option<nat>,
    lastError: Option<nat>,
    status: KeyStatus,
    failureReason: Option<string>)

  datatype RotationEvent = RotationEvent(timestamp: nat, fromKey: string, toKey: string, reason: string)

  const NoKeysError := "No Bytez API keys found in environment variables. Please configure BYTEZ_API_KEY or BYTEZ_API_KEY_1."
  const ExhaustedError := "All API keys exhausted. Please check your Bytez API keys or wait for rate limits to reset."
  const RotationReason := "Key rotation due to failure"

  const FreshMetrics := KeyMetrics(0, 0, None, None, Healthy, None)

  /** The form in which a key appears in logs and in the metrics table. */
  function MaskKey(key: string): (m: string)
    ensures |key| < 16 ==> m == "***"
    ensures |key| >= 16 ==> |m| == 15 && m[..8] == key[..8] && m[8..11] == "..." && m[11..] == key[|key| - 4..]
  {
    if |key| < 16 then "***" else key[..8] + "..." + key[|key| - 4..]
  }

  /** A mask never shows a whole key of sixteen characters or more. */
  lemma MaskHidesLongKeys(key: string)
    requires |key| >= 16
    ensures MaskKey(key) != key
  {
  }

  /** Every key shorter than sixteen characters shares one metrics record. */
  lemma ShortKeysShareMask(a: string, b: string)
    requires |a| < 16 && |b| < 16
    ensures MaskKey(a) == MaskKey(b)
  {
  }

  // ------------------------------------------------------------------
  // Loading the key pool from the environment

  /** `process.env[name]`, reading a missing variable as the falsy "". */
  function EnvValue(env: map<string, string>, name: string): string
  {
    if name in env then env[name] else ""
  }

  /** The first variable when it is set and non-empty, otherwise the second. */
  function EnvEither(env: map<string, string>, a: string, b: string): string
  {
    if EnvValue(env, a) != "" then EnvValue(env, a) else EnvValue(env, b)
  }

  function NumberedName(i: nat): string
  {
    "BYTEZ_API_KEY_" + Text.NatToString(i)
  }

  function PublicNumberedName(i: nat): string
  {
    "NEXT_PUBLIC_BYTEZ_API_KEY_" + Text.NatToString(i)
  }

  /** The i-th numbered key (1-based), "" when neither spelling is set. */
  function NumberedKey(env: map<string, string>, i: nat): string
  {
    EnvEither(env, NumberedName(i), PublicNumberedName(i))
  }

  /** Numbered key i is set under one of its two names. */
  predicate KeySet(env: map<string, string>, i: nat)
  {
    NumberedKey(env, i) != ""
  }

  /** `ks` are the numbered keys 1, 2, ..., |ks| and key |ks| + 1 is missing. */
  predicate IsNumberedRun(env: map<string, string>, ks: seq<string>)
  {
    (forall i | 1 <= i <= |ks| :: KeySet(env, i) && ks[i - 1] == NumberedKey(env, i))
    && !KeySet(env, |ks| + 1)
  }

  /** The numbered run of an environment is unique. */
  lemma NumberedRunUnique(env: map<string, string>, a: seq<string>, b: seq<string>)
    requires IsNumberedRun(env, a) && IsNumberedRun(env, b)
    ensures a == b
  {
    assert |a| == |b|;
    assert forall i | 0 <= i < |a| :: a[i] == NumberedKey(env, i + 1) == b[i];
  }

  function TrimAll(parts: seq<string>): (r: seq<string>)
    ensures |r| == |parts| && forall i | 0 <= i < |parts| :: r[i] == Text.Trim(parts[i])
  {
    seq(|parts|, i requires 0 <= i < |parts| => Text.Trim(parts[i]))
  }

  /** `.filter(Boolean)` on strings: drop the empty ones, keep the order. */
  function NonEmpty(parts: seq<string>): (r: seq<string>)
    ensures forall i | 0 <= i < |r| :: r[i] != "" && r[i] in parts
    ensures forall p | p in parts && p != "" :: p in r
  {
    if parts == [] then []
    else if parts[0] == "" then NonEmpty(parts[1..])
    else [parts[0]] + NonEmpty(parts[1..])
  }

  /** The filter keeps the order of the parts: filtering a concatenation
    * concatenates the filtered pieces, so the pool is in list order. */
  lemma {:induction false} NonEmptyAppend(a: seq<string>, b: seq<string>)
    ensures NonEmpty(a + b) == NonEmpty(a) + NonEmpty(b)
  {
    if a == [] {
      assert a + b == b;
    } else {
      assert (a + b)[0] == a[0] && (a + b)[1..] == a[1..] + b;
      NonEmptyAppend(a[1..], b);
      if a[0] != "" {
        assert NonEmpty(a + b) == [a[0]] + (NonEmpty(a[1..]) + NonEmpty(b));
      }
    }
  }

  /** The pool when no numbered key is set: the comma-separated list if that
    * variable is set (even if it yields no key), else the single key if set. */
  function FallbackKeys(env: map<string, string>): seq<string>
  {
    var commaSeparated := EnvEither(env, "BYTEZ_API_KEYS", "NEXT_PUBLIC_BYTEZ_API_KEYS");
    if commaSeparated != "" then NonEmpty(TrimAll(Text.Split(commaSeparated, ',')))
    else
      var single := EnvEither(env, "BYTEZ_API_KEY", "NEXT_PUBLIC_BYTEZ_API_KEY");
      if single != "" then [single] else []
  }

  /** Keys from the fallback variables are never empty; keys from the
    * comma-separated list carry no surrounding whitespace and no comma. */
  lemma FallbackKeysWellFormed(env: map<string, string>)
    ensures forall k | k in FallbackKeys(env) :: k != ""
    ensures EnvEither(env, "BYTEZ_API_KEYS", "NEXT_PUBLIC_BYTEZ_API_KEYS") != "" ==>
              forall k | k in FallbackKeys(env) :: Text.Trim(k) == k && ',' !in k
  {
    var commaSeparated := EnvEither(env, "BYTEZ_API_KEYS", "NEXT_PUBLIC_BYTEZ_API_KEYS");
    if commaSeparated != "" {
      var parts := Text.Split(commaSeparated, ',');
      var trimmed := TrimAll(parts);
      forall k | k in FallbackKeys(env)
        ensures Text.Trim(k) == k && ',' !in k
      {
        TrimmedPart(parts, k);
      }
    }
  }

  lemma TrimmedPart(parts: seq<string>, k: string)
    requires forall i | 0 <= i < |parts| :: ',' !in parts[i]
    requires k in TrimAll(parts)
    ensures Text.Trim(k) == k && ',' !in k
  {
    var i :| 0 <= i < |parts| && TrimAll(parts)[i] == k;
    Text.TrimIdempotent(parts[i]);
    Text.TrimKeepsOut(parts[i], ',');
  }

  /** The environment variable whose value supplied numbered key i. */
  function Witness(env: map<string, string>, i: nat): string
  {
    if EnvValue(env, NumberedName(i)) != "" then NumberedName(i) else PublicNumberedName(i)
  }

  lemma PrefixCancel(p: string, a: string, b: string)
    requires p + a == p + b
    ensures a == b
  {
    assert a == (p + a)[|p|..];
    assert b == (p + b)[|p|..];
  }

  /** Different numbered keys are read from different environment variables. */
  lemma WitnessInjective(env: map<string, string>, i: nat, j: nat)
    requires Witness(env, i) == Witness(env, j)
    ensures i == j
  {
    var wi, wj := Witness(env, i), Witness(env, j);
    assert NumberedName(i)[0] == 'B' && PublicNumberedName(i)[0] == 'N';
    assert NumberedName(j)[0] == 'B' && PublicNumberedName(j)[0] == 'N';
    if wi == NumberedName(i) && wj == NumberedName(j) {
      PrefixCancel("BYTEZ_API_KEY_", Text.NatToString(i), Text.NatToString(j));
    } else if wi == PublicNumberedName(i) && wj == PublicNumberedName(j) {
      PrefixCancel("NEXT_PUBLIC_BYTEZ_API_KEY_", Text.NatToString(i), Text.NatToString(j));
    }
    Text.NatToStringInjective(i, j);
  }

  /** An injective function maps 1 .. m - 1 to m - 1 different values. */
  lemma {:induction false} InjectiveImageCard(f: nat -> string, m: nat)
    requires m >= 1
    requires forall a: nat, b: nat | 1 <= a < m && 1 <= b < m && f(a) == f(b) :: a == b
    ensures |set j: nat | 1 <= j < m :: f(j)| == m - 1
  {
    if m == 1 {
      assert (set j: nat | 1 <= j < m :: f(j)) == {};
    } else {
      InjectiveImageCard(f, m - 1);
      var below := set j: nat | 1 <= j < m - 1 :: f(j);
      assert (set j: nat | 1 <= j < m :: f(j)) == below + {f(m - 1)};
      assert f(m - 1) !in below;
    }
  }

  lemma {:induction false} SubsetCard(a: set<string>, b: set<string>)
    requires a <= b
    ensures |a| <= |b|
  {
    if a != {} {
      var x :| x in a;
      SubsetCard(a - {x}, b - {x});
    }
  }

  /** Numbered keys 1 .. i come from i different variables, so the loop of
    * loadKeys ends. */
  lemma KeyCountBound(env: map<string, string>, i: nat)
    requires forall j | 1 <= j <= i :: Witness(env, j) in env.Keys
    ensures i <= |env.Keys|
  {
    var f := (j: nat) => Witness(env, j);
    forall a: nat, b: nat | 1 <= a < i + 1 && 1 <= b < i + 1 && f(a) == f(b)
      ensures a == b
    {
      WitnessInjective(env, a, b);
    }
    InjectiveImageCard(f, i + 1);
    SubsetCard(set j: nat | 1 <= j < i + 1 :: f(j), env.Keys);
  }

  /** loadKeys: the numbered keys 1, 2, ... up to the first missing one; when
    * there is none, the fallback variables. */
  method LoadKeys(env: map<string, string>) returns (keys: seq<string>)
    ensures KeySet(env, 1) ==> |keys| > 0 && IsNumberedRun(env, keys)
    ensures !KeySet(env, 1) ==> keys == FallbackKeys(env)
  {
    keys := [];
    var i: nat := 1;
    while true
      invariant i == |keys| + 1 && i <= |env.Keys| + 1
      invariant forall j | 1 <= j < i :: KeySet(env, j) && keys[j - 1] == NumberedKey(env, j)
      invariant forall j | 1 <= j < i :: Witness(env, j) in env.Keys
      decreases |env.Keys| + 1 - i
    {
      var key := NumberedKey(env, i);
      if key == "" {
        break;
      }
      assert Witness(env, i) in env.Keys;
      KeyCountBound(env, i);
      keys := keys + [key];
      i := i + 1;
    }
    if |keys| == 0 {
      keys := FallbackKeys(env);
    }
  }

  // ------------------------------------------------------------------
  // Health of a key and the rotation order

  /** The set of masked keys of a pool: the keys of its metrics table. */
  function Masks(keys: seq<string>): set<string>
  {
    set k | k in keys :: MaskKey(k)
  }

  /** There are never more metrics records than keys. */
  lemma {:induction false} MasksBound(keys: seq<string>)
    ensures |Masks(keys)| <= |keys|
  {
    if keys != [] {
      MasksBound(keys[1..]);
      assert Masks(keys) == Masks(keys[1..]) + {MaskKey(keys[0])};
    }
  }

  lemma MasksSnoc(ks: seq<string>, k: string)
    ensures Masks(ks + [k]) == Masks(ks) + {MaskKey(k)}
  {
    assert forall x | x in ks + [k] :: x in ks || x == k;
  }

  /** The metrics table right after loading: one fresh record per masked key. */
  function InitialMetrics(keys: seq<string>): (m: map<string, KeyMetrics>)
    ensures m.Keys == Masks(keys)
    ensures forall k | k in m :: m[k] == FreshMetrics
  {
    map k | k in Masks(keys) :: FreshMetrics
  }

  /** The record of key i says healthy. */
  predicate HealthyAt(keys: seq<string>, metrics: map<string, KeyMetrics>, i: nat)
    requires i < |keys|
  {
    MaskKey(keys[i]) in metrics && metrics[MaskKey(keys[i])].status == Healthy
  }

  /** The index after `(i + 1) % n`. */
  function Next(i: nat, n: nat): (j: nat)
    requires i < n
    ensures j < n
  {
    if i + 1 == n then 0 else i + 1
  }

  lemma NextMod(i: nat, n: nat)
    requires i < n
    ensures (i + 1) % n == Next(i, n)
  {
  }

  /** The index reached from `start` after e rotation steps. */
  function Pos(start: nat, e: nat, n: nat): (p: nat)
    requires start < n
    ensures p < n
  {
    if e == 0 then start else Next(Pos(start, e - 1, n), n)
  }

  /** Within one lap, e steps from `start` land on start + e, wrapped once. */
  lemma {:induction false} PosClosedForm(start: nat, e: nat, n: nat)
    requires start < n && e <= n
    ensures Pos(start, e, n) == if start + e < n then start + e else start + e - n
  {
    if e > 0 {
      PosClosedForm(start, e - 1, n);
    }
  }

  /** Key at `Pos(start, e)` has a healthy record. */
  predicate HealthyAfter(keys: seq<string>, metrics: map<string, KeyMetrics>, start: nat, e: nat)
    requires start < |keys|
  {
    HealthyAt(keys, metrics, Pos(start, e, |keys|))
  }

  /** The least step e in [d, |keys|] that lands on a healthy key. Step |keys|
    * lands on `start` itself, so the current key is tried last. */
  function FirstHealthyStep(keys: seq<string>, metrics: map<string, KeyMetrics>, start: nat, d: nat): (r: Option<nat>)
    requires start < |keys| && 1 <= d
    ensures r.Some? ==> d <= r.value <= |keys| && HealthyAfter(keys, metrics, start, r.value)
    decreases |keys| + 1 - d
  {
    if d > |keys| then None
    else if HealthyAfter(keys, metrics, start, d) then Some(d)
    else FirstHealthyStep(keys, metrics, start, d + 1)
  }

  /** The step found is the least healthy one, and no step finds nothing only
    * when no step from d on is healthy. */
  lemma {:induction false} FirstHealthyStepLeast(keys: seq<string>, metrics: map<string, KeyMetrics>, start: nat, d: nat)
    requires start < |keys| && 1 <= d
    ensures var r := FirstHealthyStep(keys, metrics, start, d);
            && (r.Some? ==> forall e | d <= e < r.value :: !HealthyAfter(keys, metrics, start, e))
            && (r.None? ==> forall e | d <= e <= |keys| :: !HealthyAfter(keys, metrics, start, e))
    decreases |keys| + 1 - d
  {
    if d <= |keys| && !HealthyAfter(keys, metrics, start, d) {
      FirstHealthyStepLeast(keys, metrics, start, d + 1);
    }
  }

  /** rotateKey's loop: step cyclically from `start`, `(i + 1) % n` at a time,
    * until a key's record is healthy; after n steps without one the index is
    * back at `start`. */
  method FindHealthy(keys: seq<string>, metrics: map<string, KeyMetrics>, start: nat)
    returns (step: Option<nat>, index: nat)
    requires start < |keys|
    ensures step == FirstHealthyStep(keys, metrics, start, 1)
    ensures index == if step.Some? then Pos(start, step.value, |keys|) else start
  {
    var n := |keys|;
    index := start;
    var i := 0;
    while i < n
      invariant 0 <= i <= n
      invariant index == Pos(start, i, n)
      invariant FirstHealthyStep(keys, metrics, start, 1) == FirstHealthyStep(keys, metrics, start, i + 1)
    {
      var nextIndex := (index + 1) % n;
      NextMod(index, n);
      var nextKey := keys[nextIndex];
      if MaskKey(nextKey) in metrics && metrics[MaskKey(nextKey)].status == Healthy {
        return Some(i + 1), nextIndex;
      }
      index := nextIndex;
      i := i + 1;
    }
    PosClosedForm(start, n, n);
    return None, index;
  }

  /** Rotation finds a key exactly when some key of the pool is healthy. */
  lemma {:induction false} RotationFindsHealthyKey(keys: seq<string>, metrics: map<string, KeyMetrics>, start: nat)
    requires start < |keys|
    ensures FirstHealthyStep(keys, metrics, start, 1).Some? <==>
            exists k | 0 <= k < |keys| :: HealthyAt(keys, metrics, k)
  {
    var n := |keys|;
    FirstHealthyStepLeast(keys, metrics, start, 1);
    if exists k | 0 <= k < n :: HealthyAt(keys, metrics, k) {
      var k :| 0 <= k < n && HealthyAt(keys, metrics, k);
      var e := if k > start then k - start else k + n - start;
      PosClosedForm(start, e, n);
      assert HealthyAfter(keys, metrics, start, e);
    }
  }

  /** initializeMetrics: one fresh record per masked key, a later key with
    * the same mask overwriting the earlier one's record. */
  method InitializeMetrics(keys: seq<string>) returns (m: map<string, KeyMetrics>)
    ensures m == InitialMetrics(keys)
  {
    m := map[];
    var i := 0;
    while i < |keys|
      invariant 0 <= i <= |keys|
      invariant m.Keys == Masks(keys[..i])
      invariant forall k | k in m :: m[k] == FreshMetrics
    {
      assert keys[..i + 1] == keys[..i] + [keys[i]];
      MasksSnoc(keys[..i], keys[i]);
      m := m[MaskKey(keys[i]) := FreshMetrics];
      i := i + 1;
    }
    assert keys[..i] == keys;
    assert m.Keys == InitialMetrics(keys).Keys;
  }

  class KeyManager {
    var keys: seq<string>
    var currentIndex: nat
    var metrics: map<string, KeyMetrics>
    var lastEvent: Option<RotationEvent>

    /** The current index points into the pool and the table holds
      * exactly one record per masked key of the pool. */
    predicate Valid()
      reads this
    {
      (if |keys| == 0 then currentIndex == 0 else currentIndex < |keys|)
      && metrics.Keys == Masks(keys)
    }

    /** Reads the pool from `env` and gives each masked key a fresh record. */
    constructor(env: map<string, string>)
      ensures Valid()
      ensures KeySet(env, 1) ==> |keys| > 0 && IsNumberedRun(env, keys)
      ensures !KeySet(env, 1) ==> keys == FallbackKeys(env)
      ensures currentIndex == 0 && metrics == InitialMetrics(keys) && lastEvent == None
    {
      var loaded := LoadKeys(env);
      var m := InitializeMetrics(loaded);
      keys := loaded;
      currentIndex := 0;
      lastEvent := None;
      metrics := m;
    }

    /** The key in use; a key whose record says failed is first rotated
      * away from. A returned key always has a healthy record. */
    method GetCurrentKey(now: nat) returns (r: Result<string>)
      requires Valid()
      modifies this
      ensures Valid() && keys == old(keys) && metrics == old(metrics)
      ensures |keys| == 0 ==> r == Err(NoKeysError) && currentIndex == old(currentIndex) && lastEvent == old(lastEvent)
      ensures r.Ok? ==> r.value == keys[currentIndex] && HealthyAt(keys, metrics, currentIndex)
      ensures |keys| > 0 && HealthyAt(keys, metrics, old(currentIndex)) ==>
                r == Ok(keys[old(currentIndex)]) && currentIndex == old(currentIndex) && lastEvent == old(lastEvent)
      ensures |keys| > 0 && !HealthyAt(keys, metrics, old(currentIndex)) ==>
                (r.Err? <==> FirstHealthyStep(keys, metrics, old(currentIndex), 1).None?)
                && (r.Err? ==> r.error == ExhaustedError && currentIndex == old(currentIndex) && lastEvent == old(lastEvent))
      ensures |keys| > 0 && !HealthyAt(keys, metrics, old(currentIndex)) && r.Ok? ==>
                var step := FirstHealthyStep(keys, metrics, old(currentIndex), 1);
                step.Some? && currentIndex == Pos(old(currentIndex), step.value, |keys|)
                && lastEvent == Some(RotationEvent(now, MaskKey(keys[old(currentIndex)]), MaskKey(keys[currentIndex]), RotationReason))
    {
      if |keys| == 0 {
        return Err(NoKeysError);
      }
      var key := keys[currentIndex];
      if metrics[MaskKey(key)].status == Failed {
        var rotated := RotateKey(now);
        if !rotated {
          return Err(ExhaustedError);
        }
        return Ok(keys[currentIndex]);
      }
      return Ok(key);
    }

    function GetCurrentKeyIndex(): (i: nat)
      requires Valid()
      reads this
      ensures |keys| > 0 ==> i < |keys|
    {
      currentIndex
    }

    /** Marks the record of the current key failed, counting the error. */
    method MarkCurrentKeyAsFailed(reason: string, now: nat)
      requires Valid() && |keys| > 0
      modifies this
      ensures Valid() && keys == old(keys) && currentIndex == old(currentIndex) && lastEvent == old(lastEvent)
      ensures var mk := MaskKey(keys[currentIndex]);
              var m := old(metrics)[mk];
              metrics == old(metrics)[mk := m.(status := Failed, errorCount := m.errorCount + 1,
                                               lastError := Some(now), failureReason := Some(reason))]
      ensures !HealthyAt(keys, metrics, currentIndex)
      ensures forall j | 0 <= j < |keys| && MaskKey(keys[j]) == MaskKey(keys[currentIndex]) :: !HealthyAt(keys, metrics, j)
      ensures forall j | 0 <= j < |keys| && MaskKey(keys[j]) != MaskKey(keys[currentIndex]) ::
                HealthyAt(keys, metrics, j) == HealthyAt(keys, old(metrics), j)
    {
      var mk := MaskKey(keys[currentIndex]);
      var m := metrics[mk];
      metrics := metrics[mk := m.(status := Failed, errorCount := m.errorCount + 1,
                                  lastError := Some(now), failureReason := Some(reason))];
    }

    /** Steps cyclically from the current key to the first key whose record
      * is healthy; when none is, every key is visited and the index ends back
      * where it started. */
    method RotateKey(now: nat) returns (rotated: bool)
      requires Valid() && |keys| > 0
      modifies this
      ensures Valid() && keys == old(keys) && metrics == old(metrics)
      ensures var step := FirstHealthyStep(keys, metrics, old(currentIndex), 1);
              rotated == step.Some?
              && currentIndex == (if step.Some? then Pos(old(currentIndex), step.value, |keys|) else old(currentIndex))
              && lastEvent == (if step.Some? then
                                 Some(RotationEvent(now, MaskKey(keys[old(currentIndex)]), MaskKey(keys[currentIndex]), RotationReason))
                               else old(lastEvent))
      ensures rotated ==> HealthyAt(keys, metrics, currentIndex)
    {
      var step, index := FindHealthy(keys, metrics, currentIndex);
      if step.Some? {
        var fromKey := MaskKey(keys[currentIndex]);
        currentIndex := index;
        lastEvent := Some(RotationEvent(now, fromKey, MaskKey(keys[index]), RotationReason));
        return true;
      }
      return false;
    }

    /** Counts one more use of the current key. */
    method RecordSuccess(now: nat)
      requires Valid() && |keys| > 0
      modifies this
      ensures Valid() && keys == old(keys) && currentIndex == old(currentIndex) && lastEvent == old(lastEvent)
      ensures var mk := MaskKey(keys[currentIndex]);
              var m := old(metrics)[mk];
              metrics == old(metrics)[mk := m.(usageCount := m.usageCount + 1, lastUsed := Some(now))]
    {
      var mk := MaskKey(keys[currentIndex]);
      var m := metrics[mk];
      metrics := metrics[mk := m.(usageCount := m.usageCount + 1, lastUsed := Some(now))];
    }

    /** Hands out the last rotation event once. */
    method GetAndClearLastEvent() returns (e: Option<RotationEvent>)
      modifies this
      ensures e == old(lastEvent) && lastEvent == None
      ensures keys == old(keys) && currentIndex == old(currentIndex) && metrics == old(metrics)
    {
      e := lastEvent;
      lastEvent := None;
    }

    /** A copy of the metrics table: one record per masked key of the pool. */
    function GetMetrics(): (m: map<string, KeyMetrics>)
      requires Valid()
      reads this
      ensures m.Keys == Masks(keys)
      ensures forall k | k in m :: m[k] == metrics[k]
      ensures |m| <= |keys|
    {
      MasksBound(keys);
      metrics
    }

    function GetKeyCount(): (n: nat)
      requires Valid()
      reads this
      ensures n == |keys| && |metrics| <= n
    {
      MasksBound(keys);
      |keys|
    }

    /** Marks every record healthy again and drops its failure reason;
      * counters and times are kept. */
    method ResetAllKeys()
      requires Valid()
      modifies this
      ensures Valid() && keys == old(keys) && currentIndex == old(currentIndex) && lastEvent == old(lastEvent)
      ensures metrics.Keys == old(metrics).Keys
      ensures forall k | k in metrics :: metrics[k] == old(metrics)[k].(status := Healthy, failureReason := None)
    {
      metrics := ResetRecords(metrics);
    }
  }

  /** resetAllKeys' loop over the records: each one healthy, without a
    * failure reason, its counters and times kept. */
  method ResetRecords(m0: map<string, KeyMetrics>) returns (m: map<string, KeyMetrics>)
    ensures m.Keys == m0.Keys
    ensures forall k | k in m :: m[k] == m0[k].(status := Healthy, failureReason := None)
  {
    m := m0;
    var todo := m.Keys;
    while todo != {}
      invariant todo <= m.Keys && m.Keys == m0.Keys
      invariant forall k | k in m ::
                  m[k] == if k in todo then m0[k] else m0[k].(status := Healthy, failureReason := None)
      decreases |todo|
    {
      var k :| k in todo;
      m := m[k := m[k].(status := Healthy, failureReason := None)];
      todo := todo - {k};
    }
  }
}
