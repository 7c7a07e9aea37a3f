/** Time-based rotation over a pool of four API keys held in the environment:
    every six hours, counted from 2024-01-01T00:00:00Z, the next key is used. */
module KeyRotation {
  import opened Wrappers
  import opened JsSemantics

  /** Number of key slots in the pool. */
  const KEY_COUNT: int := 4
  /** Length of one rotation interval: six hours in milliseconds. */
  const ROTATION_INTERVAL_MS: int := 6 * 60 * 60 * 1000
  /** 2024-01-01T00:00:00Z in milliseconds since the Unix epoch. */
  const EPOCH_MS: int := 1704067200000
  /** Prefix of the environment variable names of the key slots. */
  const KEY_PREFIX: string := "GEMINI_API_KEY"

  /** The environment the handler is given: variable names to their string values. */
  type Env = map<string, string>

  /** The number of whole intervals elapsed since the epoch (negative before it):
      `now` lies in the interval starting at `EPOCH_MS + k * ROTATION_INTERVAL_MS`. */
  function IntervalNumber(now: int): (k: int)
    ensures EPOCH_MS + k * ROTATION_INTERVAL_MS <= now < EPOCH_MS + (k + 1) * ROTATION_INTERVAL_MS
  {
    FloorDiv(now - EPOCH_MS, ROTATION_INTERVAL_MS)
  }

  /** The zero-based slot index, computed with JavaScript's truncating `%`:
      in `[0, 4)` from the epoch on, in `(-4, 0]` before it, and always
      congruent to the interval number modulo four. */
  function KeyIndex(now: int): (i: int)
    ensures now >= EPOCH_MS ==> 0 <= i < KEY_COUNT
    ensures now < EPOCH_MS ==> -KEY_COUNT < i <= 0
    ensures (IntervalNumber(now) - i) % KEY_COUNT == 0
  {
    TruncRem(IntervalNumber(now), KEY_COUNT)
  }

  /** The environment variable name of a slot with the given one-based suffix. */
  function SlotName(suffix: int): (name: string)
    ensures |name| > |KEY_PREFIX| && name[..|KEY_PREFIX|] == KEY_PREFIX
    ensures name[|KEY_PREFIX|..] == NumberToString(suffix)
  {
    KEY_PREFIX + NumberToString(suffix)
  }

  /** The name of the variable consulted at time `now`: the prefix followed
      by a numeral that reads back as the slot index plus one. */
  function KeyName(now: int): (name: string)
    ensures |name| > |KEY_PREFIX| && name[..|KEY_PREFIX|] == KEY_PREFIX
    ensures ParseInteger(name[|KEY_PREFIX|..]) == Some(KeyIndex(now) + 1)
  {
    NumberToStringRoundTrip(KeyIndex(now) + 1);
    SlotName(KeyIndex(now) + 1)
  }

  /** `getRotatingApiKey` with the clock reading passed in: the value of the
      computed slot when it is set and non-empty, and `None` (JavaScript `null`)
      otherwise. No other slot is looked at. */
  function GetRotatingApiKey(env: Env, now: int): (r: Option<string>)
    ensures r.Some? <==> KeyName(now) in env && env[KeyName(now)] != ""
    ensures r.Some? ==> r.value == env[KeyName(now)]
  {
    var name := KeyName(now);
    if name in env && Truthy(Some(env[name])) then Some(env[name]) else None
  }

  /** Distinct suffixes name distinct variables. */
  lemma SlotNameInjective(m: int, n: int)
    requires m != n
    ensures SlotName(m) != SlotName(n)
  {
    var sm, sn := SlotName(m), SlotName(n);
    assert sm[|KEY_PREFIX|..] == NumberToString(m);
    assert sn[|KEY_PREFIX|..] == NumberToString(n);
    NumberToStringInjective(m, n);
  }

  /** Different slot indices give different variable names, so the key
      name changes exactly when the index does. */
  lemma KeyNameDeterminesIndex(t1: int, t2: int)
    ensures KeyName(t1) == KeyName(t2) <==> KeyIndex(t1) == KeyIndex(t2)
  {
    if KeyIndex(t1) != KeyIndex(t2) {
      SlotNameInjective(KeyIndex(t1) + 1, KeyIndex(t2) + 1);
    }
  }

  /** From the epoch on, the name is the prefix followed by one digit from 1 to 4. */
  lemma KeyNameInPool(now: int)
    requires now >= EPOCH_MS
    ensures KeyName(now) == KEY_PREFIX + [DigitChar(KeyIndex(now) + 1)]
    ensures |KeyName(now)| == |KEY_PREFIX| + 1 && '1' <= KeyName(now)[|KEY_PREFIX|] <= '4'
  {
  }

  /** Every instant of the interval `[EPOCH_MS + k * I, EPOCH_MS + (k + 1) * I)` has interval number `k`. */
  lemma IntervalNumberOfBucket(now: int, k: int)
    requires EPOCH_MS + k * ROTATION_INTERVAL_MS <= now < EPOCH_MS + (k + 1) * ROTATION_INTERVAL_MS
    ensures IntervalNumber(now) == k
  {
    FloorDivUnique(now - EPOCH_MS, ROTATION_INTERVAL_MS, k);
  }

  /** Two instants in the same six-hour interval use the same key name. */
  lemma SameBucketSameKey(t1: int, t2: int, k: int)
    requires EPOCH_MS + k * ROTATION_INTERVAL_MS <= t1 < EPOCH_MS + (k + 1) * ROTATION_INTERVAL_MS
    requires EPOCH_MS + k * ROTATION_INTERVAL_MS <= t2 < EPOCH_MS + (k + 1) * ROTATION_INTERVAL_MS
    ensures KeyName(t1) == KeyName(t2)
  {
    IntervalNumberOfBucket(t1, k);
    IntervalNumberOfBucket(t2, k);
  }

  /** One interval later the interval number is one larger. */
  lemma NextIntervalNumber(now: int)
    ensures IntervalNumber(now + ROTATION_INTERVAL_MS) == IntervalNumber(now) + 1
  {
    IntervalNumberOfBucket(now + ROTATION_INTERVAL_MS, IntervalNumber(now) + 1);
  }

  /** From the epoch on, the index is the interval number modulo four. */
  lemma KeyIndexIsIntervalModulo(now: int)
    requires now >= EPOCH_MS
    ensures KeyIndex(now) == IntervalNumber(now) % KEY_COUNT
  {
  }

  /** From the epoch on, each new interval advances the index by one, modulo four. */
  lemma NextIntervalAdvancesIndex(now: int)
    requires now >= EPOCH_MS
    ensures KeyIndex(now + ROTATION_INTERVAL_MS) == (KeyIndex(now) + 1) % KEY_COUNT
  {
    NextIntervalNumber(now);
  }

  /** Four intervals (24 hours) later the same key name is used, except
      exactly in the three intervals just before the epoch, whose indices
      -3, -2, -1 are followed 24 hours later by 1, 2, 3. */
  lemma PeriodOfFourIntervals(now: int)
    ensures KeyName(now + KEY_COUNT * ROTATION_INTERVAL_MS) == KeyName(now)
            <==> !(EPOCH_MS - 3 * ROTATION_INTERVAL_MS <= now < EPOCH_MS)
  {
    var later := now + KEY_COUNT * ROTATION_INTERVAL_MS;
    var k := IntervalNumber(now);
    IntervalNumberOfBucket(later, k + KEY_COUNT);
    KeyNameDeterminesIndex(later, now);
    IndexPeriod(k);
    assert EPOCH_MS - 3 * ROTATION_INTERVAL_MS <= now < EPOCH_MS <==> -3 <= k <= -1;
  }

  /** The truncating remainder repeats after four steps except from -3, -2, -1 to 1, 2, 3. */
  lemma IndexPeriod(k: int)
    ensures TruncRem(k + KEY_COUNT, KEY_COUNT) == TruncRem(k, KEY_COUNT) <==> !(-3 <= k <= -1)
  {
    var a, b := TruncRem(k + KEY_COUNT, KEY_COUNT), TruncRem(k, KEY_COUNT);
    if -3 <= k <= -1 {
      assert b < 0 <= a;
    }
  }

  /** The truncating `%` breaks the period across the epoch: the interval just
      before it reads slot name suffix "0", four intervals later suffix "4". */
  lemma PeriodBreaksAcrossEpoch()
    ensures KeyName(EPOCH_MS - ROTATION_INTERVAL_MS) == "GEMINI_API_KEY0"
    ensures KeyName(EPOCH_MS + 3 * ROTATION_INTERVAL_MS) == "GEMINI_API_KEY4"
  {
    IntervalNumberOfBucket(EPOCH_MS - ROTATION_INTERVAL_MS, -1);
    IntervalNumberOfBucket(EPOCH_MS + 3 * ROTATION_INTERVAL_MS, 3);
  }

  /** Before the epoch the names leave the pool: suffixes "0", "-1", "-2"
      (and "1" when the interval number is a multiple of four). */
  lemma PreEpochKeyNames()
    ensures KeyName(EPOCH_MS - 1) == "GEMINI_API_KEY0"
    ensures KeyName(EPOCH_MS - 2 * ROTATION_INTERVAL_MS) == "GEMINI_API_KEY-1"
    ensures KeyName(EPOCH_MS - 3 * ROTATION_INTERVAL_MS) == "GEMINI_API_KEY-2"
    ensures KeyName(EPOCH_MS - 4 * ROTATION_INTERVAL_MS) == "GEMINI_API_KEY1"
  {
    IntervalNumberOfBucket(EPOCH_MS - 1, -1);
    IntervalNumberOfBucket(EPOCH_MS - 2 * ROTATION_INTERVAL_MS, -2);
    IntervalNumberOfBucket(EPOCH_MS - 3 * ROTATION_INTERVAL_MS, -3);
    IntervalNumberOfBucket(EPOCH_MS - 4 * ROTATION_INTERVAL_MS, -4);
  }

  /** The result depends on the computed slot only: two environments that agree
      on that one variable give the same key, whatever the other slots hold. */
  lemma OnlySelectedSlotConsulted(env1: Env, env2: Env, now: int)
    requires KeyName(now) in env1 <==> KeyName(now) in env2
    requires KeyName(now) in env1 ==> env1[KeyName(now)] == env2[KeyName(now)]
    ensures GetRotatingApiKey(env1, now) == GetRotatingApiKey(env2, now)
  {
  }

  /** From the epoch on, a key that is returned is the value of one of the four pool slots. */
  lemma RotatedKeyFromPool(env: Env, now: int)
    requires now >= EPOCH_MS
    requires GetRotatingApiKey(env, now).Some?
    ensures exists suffix :: 1 <= suffix <= KEY_COUNT && SlotName(suffix) in env
                            && env[SlotName(suffix)] == GetRotatingApiKey(env, now).value
  {
    var suffix := KeyIndex(now) + 1;
    assert SlotName(suffix) == KeyName(now);
  }
}
