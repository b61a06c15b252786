/** How often a room is snapshotted: the interval rule, and what a trace of
    non-overlapping checks makes of it. Times are nanoseconds. */
module Pacing {
  import opened Wrappers
  import Redis = RedisStateRepository

  type Time = Redis.Time

  const SECOND := Redis.SECOND
  const MINUTE := 60 * SECOND

  function Interval(ops: nat): int {
    if ops > 100 then 1 * MINUTE
    else if ops > 20 then 5 * MINUTE
    else 15 * MINUTE
  }

  predicate Due(last: Time, interval: int, now: int) {
    last.None? || now - last.value >= interval
  }

  /** What a stored time reads back as. */
  function Floor(t: int): int {
    t - t % SECOND
  }

  /** One check: the rows counted, the clock when the rule is evaluated, the clock
      just before generating, and which of its remote calls succeeded. */
  datatype Check = Check(
    ops: nat, now: int, taken: int,
    readOk: bool, countOk: bool, generateOk: bool, storeOk: bool)

  /** A failed read of the stored time counts as "never". */
  function Seen(last: Time, c: Check): Time {
    if c.readOk then last else None
  }

  predicate Decides(last: Time, c: Check) {
    c.countOk && Due(Seen(last, c), Interval(c.ops), c.now)
  }

  predicate Snaps(last: Time, c: Check) {
    Decides(last, c) && c.generateOk
  }

  predicate Fails(last: Time, c: Check) {
    !c.countOk || (Decides(last, c) && !c.generateOk)
  }

  function Stored(last: Time, c: Check): Time {
    if Snaps(last, c) && c.storeOk then Some(Floor(c.taken)) else last
  }

  function After(start: Time, cs: seq<Check>): Time {
    if cs == [] then start else Stored(After(start, cs[..|cs| - 1]), cs[|cs| - 1])
  }

  predicate SnapsAt(start: Time, cs: seq<Check>, i: nat)
    requires i < |cs|
  {
    Snaps(After(start, cs[..i]), cs[i])
  }

  /** One check ends before the next begins. */
  ghost predicate OneAtATime(cs: seq<Check>) {
    && (forall i :: 0 <= i < |cs| ==> cs[i].now <= cs[i].taken)
    && (forall i :: 0 <= i < |cs| - 1 ==> cs[i].taken <= cs[i + 1].now)
  }

  lemma {:induction false} TimesGrow(cs: seq<Check>, i: nat, j: nat)
    requires OneAtATime(cs) && i < j < |cs|
    ensures cs[i].taken <= cs[j].now
    decreases j
  {
    if i < j - 1 {
      TimesGrow(cs, i, j - 1);
    }
  }

  /** Until the next snapshot, the stored time is the last one's, floored. */
  lemma {:induction false} StoredUntilNext(start: Time, cs: seq<Check>, i: nat, j: nat)
    requires i < j <= |cs| && SnapsAt(start, cs, i) && cs[i].storeOk
    requires forall k :: i < k < j ==> !SnapsAt(start, cs, k)
    ensures After(start, cs[..j]) == Some(Floor(cs[i].taken))
    decreases j
  {
    assert cs[..j][..j - 1] == cs[..j - 1];
    if i < j - 1 {
      StoredUntilNext(start, cs, i, j - 1);
      assert !SnapsAt(start, cs, j - 1);
    }
  }

  /** Successive snapshots are more than the interval less one second apart, the
      interval being the one the second check chose; so never within 59 seconds, more
      than 4:59 apart with at most 100 actions since, more than 14:59 with at most 20. */
  lemma SnapshotsSpaced(start: Time, cs: seq<Check>, i: nat, j: nat)
    requires OneAtATime(cs) && i < j < |cs|
    requires SnapsAt(start, cs, i) && SnapsAt(start, cs, j)
    requires forall k :: i < k < j ==> !SnapsAt(start, cs, k)
    requires cs[i].storeOk && cs[j].readOk
    ensures cs[j].taken - cs[i].taken > Interval(cs[j].ops) - SECOND
    ensures cs[j].taken - cs[i].taken > 59_000_000_000
    ensures cs[j].ops <= 100 ==> cs[j].taken - cs[i].taken > 299_000_000_000
    ensures cs[j].ops <= 20 ==> cs[j].taken - cs[i].taken > 899_000_000_000
  {
    StoredUntilNext(start, cs, i, j);
  }

  /** The one-second slack is real: a snapshot at 0.999999999 s is stored as 0 s, and
      the next busy one is decided 60 s later by the stored time. */
  lemma SpacingIsTight() returns (cs: seq<Check>)
    ensures |cs| == 2 && OneAtATime(cs) && SnapsAt(None, cs, 0) && SnapsAt(None, cs, 1)
    ensures forall c :: c in cs ==> c.readOk && c.countOk && c.generateOk && c.storeOk
    ensures cs[1].taken - cs[0].taken == 59_000_000_001 && cs[1].ops > 100
  {
    var c0 := Check(0, SECOND - 1, SECOND - 1, true, true, true, true);
    var c1 := Check(101, MINUTE, MINUTE, true, true, true, true);
    cs := [c0, c1];
    assert cs[..0] == [] && cs[..1] == [c0] && [c0][..0] == [];
    assert After(None, cs[..1]) == Some(0);
  }

  /** A failed read makes the spacing void: the next check snapshots at once. */
  lemma FailedReadSnapsAtOnce(start: Time, cs: seq<Check>, i: nat)
    requires i < |cs| && !cs[i].readOk && cs[i].countOk && cs[i].generateOk
    ensures SnapsAt(start, cs, i)
  {
  }

  /** Nor can the read or the store be spared: with either failing once, two snapshots of
      an idle room follow each other within a nanosecond. */
  lemma SpacingNeedsReadAndStore(readOk: bool, storeOk: bool) returns (cs: seq<Check>)
    requires !readOk || !storeOk
    ensures |cs| == 2 && OneAtATime(cs) && SnapsAt(None, cs, 0) && SnapsAt(None, cs, 1)
    ensures cs[0].storeOk == storeOk && cs[1].readOk == readOk && cs[0].readOk && cs[1].storeOk
    ensures cs[1].ops == 0 && cs[1].taken - cs[0].taken == 1
  {
    var c0 := Check(0, 0, 0, true, true, true, storeOk);
    var c1 := Check(0, 1, 1, readOk, true, true, true);
    cs := [c0, c1];
    assert cs[..0] == [] && cs[..1] == [c0] && [c0][..0] == [];
    if !readOk {
      FailedReadSnapsAtOnce(None, cs, 1);
    }
  }

  /** With checks at most `gap` apart whose counts succeed, a room that was snapshotted
      is decided on again within 15 minutes and `gap`; within 5 minutes and `gap` if every
      check counts more than 20 actions, and within one minute and `gap` if more than 100. */
  lemma {:induction false} DecidedInTime(start: Time, cs: seq<Check>, i: nat, n: nat, gap: int, least: nat, wait: int)
    returns (k: nat)
    requires OneAtATime(cs) && i < n < |cs|
    requires SnapsAt(start, cs, i) && cs[i].storeOk
    requires wait == if least > 100 then 60_000_000_000 else if least > 20 then 300_000_000_000 else 900_000_000_000
    requires forall j :: i < j <= n ==> cs[j].countOk && cs[j].ops >= least && cs[j].now - cs[j - 1].now <= gap
    requires cs[n].now >= cs[i].taken + wait
    ensures i < k <= n && Decides(After(start, cs[..k]), cs[k])
    ensures cs[k].now <= cs[i].taken + wait + gap
    decreases n
  {
    if cs[n - 1].now >= cs[i].taken + wait {
      k := DecidedInTime(start, cs, i, n - 1, gap, least, wait);
    } else if exists j :: i < j < n && SnapsAt(start, cs, j) {
      k :| i < k < n && SnapsAt(start, cs, k);
      TimesGrow(cs, k, n);
      NowsGrow(cs, k, n - 1);
    } else {
      k := n;
      StoredUntilNext(start, cs, i, n);
    }
  }

  lemma {:induction false} NowsGrow(cs: seq<Check>, i: nat, j: nat)
    requires OneAtATime(cs) && i <= j < |cs|
    ensures cs[i].now <= cs[j].now
  {
    if i < j {
      TimesGrow(cs, i, j);
    }
  }

  /** Checks that do not snapshot leave the stored time as it was. */
  lemma {:induction false} FailuresKeepTime(start: Time, cs: seq<Check>, i: nat, j: nat)
    requires i <= j <= |cs| && forall k :: i <= k < j ==> !SnapsAt(start, cs, k)
    ensures After(start, cs[..j]) == After(start, cs[..i])
    decreases j
  {
    if i < j {
      assert cs[..j][..j - 1] == cs[..j - 1];
      FailuresKeepTime(start, cs, i, j - 1);
      assert !SnapsAt(start, cs, j - 1);
    }
  }

  /** So a due snapshot that could not be generated is tried again at the very next
      check, and at every check until it succeeds: rows and time only increase. */
  lemma DueUntilDone(start: Time, cs: seq<Check>, i: nat, j: nat)
    requires OneAtATime(cs) && i <= j < |cs|
    requires cs[i].readOk && Decides(After(start, cs[..i]), cs[i])
    requires forall k :: i <= k < j ==> !SnapsAt(start, cs, k)
    requires cs[j].countOk && cs[j].ops >= cs[i].ops
    ensures Decides(After(start, cs[..j]), cs[j])
  {
    FailuresKeepTime(start, cs, i, j);
    NowsGrow(cs, i, j);
  }

  /** The seven-day expiry of the stored time never changes a decision: by then every
      interval has passed. */
  lemma ExpiryNeverDecides(last: int, c: Check)
    requires c.now - last >= 7 * 24 * 60 * 60_000_000_000
    ensures Decides(Some(last), c) == Decides(None, c)
  {
  }
}
