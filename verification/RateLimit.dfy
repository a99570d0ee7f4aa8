/** The token bucket of internal/ratelimit/ratelimit.go.

    One call of the Redis script is the function `Step`.  A trace is the sequence of clock
    values with which one key was called, and the spec functions below are indexed by the
    position `k` of a call in its trace. */
module RateLimit {
  import opened Options

  datatype Config = Config(capacity: real, rate: real)

  /** The two hash fields the script keeps per key. */
  datatype Bucket = Bucket(tokens: real, lastRefill: real)

  const IDLE_SECONDS: real := 3600.0

  function Min(x: real, y: real): real { if x <= y then x else y }
  function Max(x: real, y: real): real { if x <= y then y else x }

  /** The tokens that flow in over a span of time: rate times span, under a name of its own, so that
      the proofs need not look at the product. */
  function Earned(c: Config, span: real): real { span * c.rate }

  lemma EarnedIs(c: Config, span: real)
    ensures Earned(c, span) == c.rate * span
  {}

  lemma EarnedSum(c: Config, x: real, y: real)
    ensures Earned(c, x + y) == Earned(c, x) + Earned(c, y)
    ensures Earned(c, 0.0) == 0.0
  {}

  lemma EarnedOrder(c: Config, x: real, y: real)
    requires c.rate >= 0.0 && x <= y
    ensures Earned(c, x) <= Earned(c, y)
    ensures Earned(c, 0.0) == 0.0
  {}

  /** The number of tokens a call at `now` finds, before it takes any. */
  function Refill(c: Config, b: Option<Bucket>, now: real): real
  {
    match b
    case None => c.capacity
    case Some(Bucket(tokens, lastRefill)) =>
      Min(c.capacity, tokens + Earned(c, Max(0.0, now - lastRefill)))
  }

  function Take(level: real): real { if level >= 1.0 then level - 1.0 else level }

  function Step(c: Config, b: Option<Bucket>, now: real): Bucket
  {
    Bucket(Take(Refill(c, b, now)), now)
  }

  // ---- Traces ----

  /** The bucket as the first `k` calls left it. */
  function State(c: Config, ts: seq<real>, k: nat): Option<Bucket>
    requires k <= |ts|
  {
    if k == 0 then None else Some(Step(c, State(c, ts, k - 1), ts[k - 1]))
  }

  function Level(c: Config, ts: seq<real>, k: nat): real
    requires k < |ts|
  {
    Refill(c, State(c, ts, k), ts[k])
  }

  predicate Accepted(c: Config, ts: seq<real>, k: nat)
    requires k < |ts|
  {
    Level(c, ts, k) >= 1.0
  }

  function Decisions(c: Config, ts: seq<real>): (d: seq<bool>)
    ensures |d| == |ts|
    ensures forall i :: 0 <= i < |ts| ==> d[i] == Accepted(c, ts, i)
  {
    seq(|ts|, i requires 0 <= i < |ts| => Accepted(c, ts, i))
  }

  /** How many of the decisions j .. k-1 are "accept". */
  function Granted(d: seq<bool>, j: nat, k: nat): nat
    requires j <= k <= |d|
  {
    if j == k then 0 else Granted(d, j, k - 1) + if d[k - 1] then 1 else 0
  }

  ghost predicate Monotone(ts: seq<real>)
  {
    forall i, j :: 0 <= i <= j < |ts| ==> ts[i] <= ts[j]
  }

  /** The upward movement of the clock between calls `j` and `k`; backward steps count zero. */
  function Upward(ts: seq<real>, j: nat, k: nat): real
    requires j <= k < |ts|
  {
    if j == k then 0.0 else Upward(ts, j, k - 1) + Max(0.0, ts[k] - ts[k - 1])
  }

  /** The clock does not go back between calls `j` and `k`. */
  ghost predicate NoBackStep(ts: seq<real>, j: nat, k: nat)
    requires j <= k < |ts|
  {
    forall i :: j < i <= k ==> ts[i - 1] <= ts[i]
  }

  lemma {:induction false} UpwardIsWidth(ts: seq<real>, j: nat, k: nat)
    requires j <= k < |ts| && NoBackStep(ts, j, k)
    ensures Upward(ts, j, k) == ts[k] - ts[j]
  {
    if j < k { UpwardIsWidth(ts, j, k - 1); }
  }

  lemma {:induction false} GrantedSplits(d: seq<bool>, i: nat, j: nat, k: nat)
    requires i <= j <= k <= |d|
    ensures Granted(d, i, k) == Granted(d, i, j) + Granted(d, j, k)
  {
    if j < k { GrantedSplits(d, i, j, k - 1); }
  }

  // ---- The bucket is a sliding window ----

  /** What the window from call `j` on leaves for call `k`, once the calls granted by `d` in
      between are subtracted.  Its width is measured in upward clock movement. */
  function Room(c: Config, ts: seq<real>, d: seq<bool>, j: nat, k: nat): real
    requires |d| == |ts| && j <= k < |ts|
  {
    c.capacity + c.rate * Upward(ts, j, k) - Granted(d, j, k) as real
  }

  function Slack(c: Config, ts: seq<real>, d: seq<bool>, j: nat, k: nat): real
    requires |d| == |ts| && j <= k < |ts|
  {
    c.capacity + Earned(c, Upward(ts, j, k)) - Granted(d, j, k) as real
  }

  lemma RoomIsSlack(c: Config, ts: seq<real>, d: seq<bool>, j: nat, k: nat)
    requires |d| == |ts| && j <= k < |ts|
    ensures Room(c, ts, d, j, k) == Slack(c, ts, d, j, k)
  {
    EarnedIs(c, Upward(ts, j, k));
    hide Earned, Upward, Granted;
  }

  function Gain(c: Config, ts: seq<real>, k: nat): real
    requires 0 < k < |ts|
  {
    Earned(c, Max(0.0, ts[k] - ts[k - 1]))
  }

  lemma SlackStep(c: Config, ts: seq<real>, d: seq<bool>, j: nat, k: nat)
    requires |d| == |ts| && j < k < |ts|
    ensures Slack(c, ts, d, j, k) ==
            Slack(c, ts, d, j, k - 1) + Gain(c, ts, k) - (if d[k - 1] then 1.0 else 0.0)
  {
    hide Earned;
    EarnedSum(c, Upward(ts, j, k - 1), Max(0.0, ts[k] - ts[k - 1]));
  }

  lemma LevelStep(c: Config, ts: seq<real>, k: nat)
    requires 0 < k < |ts|
    ensures Level(c, ts, k) ==
            Min(c.capacity, Level(c, ts, k - 1) - (if Decisions(c, ts)[k - 1] then 1.0 else 0.0) + Gain(c, ts, k))
  {}

  lemma {:induction false} LevelAtMostSlack(c: Config, ts: seq<real>, j: nat, k: nat)
    requires j <= k < |ts|
    ensures Level(c, ts, k) <= Slack(c, ts, Decisions(c, ts), j, k)
  {
    hide Earned;
    EarnedSum(c, 0.0, 0.0);
    if j < k {
      LevelAtMostSlack(c, ts, j, k - 1);
      SlackStep(c, ts, Decisions(c, ts), j, k);
      LevelStep(c, ts, k);
    }
  }

  lemma {:induction false} SomeSlackIsTight(c: Config, ts: seq<real>, k: nat) returns (j: nat)
    requires k < |ts|
    ensures j <= k && Level(c, ts, k) == Slack(c, ts, Decisions(c, ts), j, k)
  {
    hide Earned;
    EarnedSum(c, 0.0, 0.0);
    if Level(c, ts, k) == c.capacity {
      j := k;
    } else {
      j := SomeSlackIsTight(c, ts, k - 1);
      SlackStep(c, ts, Decisions(c, ts), j, k);
      LevelStep(c, ts, k);
    }
  }

  /** `level` is the minimum of the room over all windows that end at call `k`. */
  ghost predicate IsLeastSlack(c: Config, ts: seq<real>, d: seq<bool>, k: nat, level: real)
    requires |d| == |ts| && k < |ts|
  {
    && (forall j :: 0 <= j <= k ==> level <= Slack(c, ts, d, j, k))
    && (exists j :: 0 <= j <= k && level == Slack(c, ts, d, j, k))
  }

  lemma LevelIsLeastSlack(c: Config, ts: seq<real>, k: nat)
    requires k < |ts|
    ensures IsLeastSlack(c, ts, Decisions(c, ts), k, Level(c, ts, k))
    ensures Decisions(c, ts)[k] <==> forall j :: 0 <= j <= k ==> Slack(c, ts, Decisions(c, ts), j, k) >= 1.0
  {
    hide Earned;
    var d := Decisions(c, ts);
    forall j | 0 <= j <= k ensures Level(c, ts, k) <= Slack(c, ts, d, j, k) {
      LevelAtMostSlack(c, ts, j, k);
    }
    var j := SomeSlackIsTight(c, ts, k);
  }

  /** The level before a call is the least room of all windows ending at it, so the call is
      accepted exactly when no window would overflow.  There is no assumption on the times. */
  lemma WindowLaw(c: Config, ts: seq<real>, k: nat)
    requires k < |ts|
    ensures var d, level := Decisions(c, ts), Level(c, ts, k);
            && (forall j :: 0 <= j <= k ==> level <= Room(c, ts, d, j, k))
            && (exists j :: 0 <= j <= k && level == Room(c, ts, d, j, k))
            && (d[k] <==> forall j :: 0 <= j <= k ==> Room(c, ts, d, j, k) >= 1.0)
  {
    LevelIsLeastSlack(c, ts, k);
    hide Room, Slack, Level, Decisions;
    var d := Decisions(c, ts);
    forall j | 0 <= j <= k ensures Room(c, ts, d, j, k) == Slack(c, ts, d, j, k) { RoomIsSlack(c, ts, d, j, k); }
  }

  /** An emptied bucket holds, `wait` seconds later, rate times wait tokens, up to the capacity; so it
      has `n` of them exactly from n / rate seconds on. */
  lemma EmptyBucketRefills(c: Config, since: real, wait: real, n: nat)
    requires c.rate > 0.0 && wait >= 0.0 && n as real <= c.capacity
    ensures var level := Refill(c, Some(Bucket(0.0, since)), since + wait);
            && level == Min(c.capacity, c.rate * wait)
            && (level >= n as real <==> wait >= n as real / c.rate)
  {
    EarnedIs(c, wait);
    assert n as real == c.rate * (n as real / c.rate);
    if wait >= n as real / c.rate { EarnedOrder(c, n as real / c.rate, wait); EarnedIs(c, n as real / c.rate); }
    else { EarnedStrict(c, wait, n as real / c.rate); EarnedIs(c, n as real / c.rate); }
    assert since + wait - since == wait;
    hide Earned;
  }

  lemma EarnedStrict(c: Config, x: real, y: real)
    requires c.rate > 0.0 && x < y
    ensures Earned(c, x) < Earned(c, y)
  {}

  // ---- The reference limiter: a log of accepted times ----

  function CountSince(log: seq<real>, s: real): nat
  {
    if log == [] then 0
    else CountSince(log[..|log| - 1], s) + if log[|log| - 1] >= s then 1 else 0
  }

  /** A call fits when every window of wall-clock time ending now, whatever its start, would
      still hold at most capacity + rate * width accepted calls. */
  ghost predicate LogAdmits(c: Config, log: seq<real>, now: real)
  {
    forall s: real :: s <= now ==> FitsSince(c, log, now, s)
  }

  predicate FitsSince(c: Config, log: seq<real>, now: real, s: real)
  {
    CountSince(log, s) as real + 1.0 <= c.capacity + c.rate * (now - s)
  }

  lemma FitsIs(c: Config, log: seq<real>, now: real, s: real)
    ensures FitsSince(c, log, now, s) <==> CountSince(log, s) as real + 1.0 <= c.capacity + Earned(c, now - s)
  {
    EarnedIs(c, now - s);
    hide Earned, CountSince;
  }

  ghost function LogAfter(c: Config, ts: seq<real>, k: nat): seq<real>
    requires k <= |ts|
  {
    if k == 0 then []
    else
      var log := LogAfter(c, ts, k - 1);
      if LogAdmits(c, log, ts[k - 1]) then log + [ts[k - 1]] else log
  }

  function GrantedTimes(ts: seq<real>, d: seq<bool>, k: nat): seq<real>
    requires |d| == |ts| && k <= |ts|
  {
    if k == 0 then []
    else GrantedTimes(ts, d, k - 1) + if d[k - 1] then [ts[k - 1]] else []
  }

  lemma CountSinceAppend(log: seq<real>, x: real, s: real)
    ensures CountSince(log + [x], s) == CountSince(log, s) + if x >= s then 1 else 0
  {
    assert (log + [x])[..|log|] == log;
  }

  /** If the calls from `j` on are the ones no earlier than `s`, counting by time and counting
      by position agree. */
  lemma {:induction false} CountsAgree(ts: seq<real>, d: seq<bool>, j: nat, k: nat, s: real)
    requires |d| == |ts| && j <= k <= |ts|
    requires forall i :: 0 <= i < j ==> ts[i] < s
    requires forall i :: j <= i < k ==> ts[i] >= s
    ensures CountSince(GrantedTimes(ts, d, k), s) == Granted(d, j, k)
  {
    if k > 0 {
      if d[k - 1] {
        CountSinceAppend(GrantedTimes(ts, d, k - 1), ts[k - 1], s);
      } else {
        assert GrantedTimes(ts, d, k) == GrantedTimes(ts, d, k - 1);
      }
      if j < k { CountsAgree(ts, d, j, k - 1, s); } else { CountsAgree(ts, d, j - 1, k - 1, s); }
    }
  }

  lemma {:induction false} CountCoversWindow(ts: seq<real>, d: seq<bool>, j: nat, k: nat)
    requires |d| == |ts| && j < |ts| && j <= k <= |ts| && Monotone(ts)
    ensures Granted(d, j, k) <= CountSince(GrantedTimes(ts, d, k), ts[j])
  {
    if j < k {
      if d[k - 1] {
        CountSinceAppend(GrantedTimes(ts, d, k - 1), ts[k - 1], ts[j]);
      } else {
        assert GrantedTimes(ts, d, k) == GrantedTimes(ts, d, k - 1);
      }
      CountCoversWindow(ts, d, j, k - 1);
    }
  }

  lemma {:induction false} FirstSince(ts: seq<real>, k: nat, s: real) returns (j: nat)
    requires k < |ts| && Monotone(ts) && s <= ts[k]
    ensures j <= k && ts[j] >= s
    ensures forall i :: 0 <= i < j ==> ts[i] < s
  {
    j := k;
    if k > 0 && ts[k - 1] >= s { j := FirstSince(ts, k - 1, s); }
  }

  lemma WindowAdmits(c: Config, ts: seq<real>, d: seq<bool>, k: nat, s: real)
    requires |d| == |ts| && k < |ts| && Monotone(ts) && c.rate >= 0.0 && s <= ts[k]
    requires forall j :: 0 <= j <= k ==> Slack(c, ts, d, j, k) >= 1.0
    ensures FitsSince(c, GrantedTimes(ts, d, k), ts[k], s)
  {
    FitsIs(c, GrantedTimes(ts, d, k), ts[k], s);
    hide Earned, FitsSince;
    var j := FirstSince(ts, k, s);
    CountsAgree(ts, d, j, k, s);
    assert Slack(c, ts, d, j, k) >= 1.0;
    UpwardIsWidth(ts, j, k);
    EarnedOrder(c, ts[k] - ts[j], ts[k] - s);
    hide GrantedTimes, CountSince, Granted, Upward;
  }

  lemma WindowOverflows(c: Config, ts: seq<real>, d: seq<bool>, j: nat, k: nat)
    requires |d| == |ts| && j <= k < |ts| && Monotone(ts) && Slack(c, ts, d, j, k) < 1.0
    ensures !FitsSince(c, GrantedTimes(ts, d, k), ts[k], ts[j])
  {
    FitsIs(c, GrantedTimes(ts, d, k), ts[k], ts[j]);
    hide Earned, FitsSince;
    CountCoversWindow(ts, d, j, k);
    UpwardIsWidth(ts, j, k);
    hide GrantedTimes, CountSince, Granted, Upward;
  }

  lemma LeastSlackMatchesLog(c: Config, ts: seq<real>, d: seq<bool>, k: nat, level: real)
    requires |d| == |ts| && k < |ts| && Monotone(ts) && c.rate >= 0.0
    requires IsLeastSlack(c, ts, d, k, level)
    ensures level >= 1.0 <==> LogAdmits(c, GrantedTimes(ts, d, k), ts[k])
  {
    hide Earned, GrantedTimes, CountSince, Slack, FitsSince;
    if level >= 1.0 {
      forall s: real | s <= ts[k]
        ensures FitsSince(c, GrantedTimes(ts, d, k), ts[k], s)
      {
        WindowAdmits(c, ts, d, k, s);
      }
    } else {
      var j :| 0 <= j <= k && level == Slack(c, ts, d, j, k);
      WindowOverflows(c, ts, d, j, k);
      assert ts[j] <= ts[k];
    }
  }

  /** The constant-size bucket makes, call by call, the decisions of the limiter that remembers
      every accepted call. */
  lemma {:induction false} BucketEqualsLog(c: Config, ts: seq<real>, k: nat)
    requires k <= |ts| && Monotone(ts) && c.rate >= 0.0
    ensures LogAfter(c, ts, k) == GrantedTimes(ts, Decisions(c, ts), k)
    ensures k < |ts| ==> (Decisions(c, ts)[k] <==> LogAdmits(c, LogAfter(c, ts, k), ts[k]))
  {
    if k > 0 {
      BucketEqualsLog(c, ts, k - 1);
      var d := Decisions(c, ts);
      assert GrantedTimes(ts, d, k) == GrantedTimes(ts, d, k - 1) + if d[k - 1] then [ts[k - 1]] else [];
    }
    if k < |ts| {
      LevelIsLeastSlack(c, ts, k);
      LeastSlackMatchesLog(c, ts, Decisions(c, ts), k, Level(c, ts, k));
    }
  }

  // ---- Optimality ----

  /** Every granted call keeps each window that ends at it within capacity + rate * width. */
  ghost predicate WithinEnvelope(c: Config, ts: seq<real>, d: seq<bool>)
    requires |d| == |ts|
  {
    forall j, k :: 0 <= j <= k < |ts| && d[k] ==> EnvelopeHolds(c, ts, d, j, k)
  }

  predicate EnvelopeHolds(c: Config, ts: seq<real>, d: seq<bool>, j: nat, k: nat)
    requires |d| == |ts| && j <= k < |ts|
  {
    Granted(d, j, k + 1) as real <= c.capacity + c.rate * Upward(ts, j, k)
  }

  /** Every denied call would have overflowed some window. */
  ghost predicate DeniesOnlyWhenFull(c: Config, ts: seq<real>, d: seq<bool>)
    requires |d| == |ts|
  {
    forall k :: 0 <= k < |ts| && !d[k] ==> exists j :: 0 <= j <= k && Room(c, ts, d, j, k) < 1.0
  }

  lemma EnvelopeIs(c: Config, ts: seq<real>, d: seq<bool>, j: nat, k: nat)
    requires |d| == |ts| && j <= k < |ts|
    ensures EnvelopeHolds(c, ts, d, j, k) <==> Granted(d, j, k + 1) as real <= c.capacity + Earned(c, Upward(ts, j, k))
  {
    EarnedIs(c, Upward(ts, j, k));
    hide Earned, Upward, Granted;
  }

  lemma SlackIsEnvelope(c: Config, ts: seq<real>, d: seq<bool>, j: nat, k: nat)
    requires |d| == |ts| && j <= k < |ts| && d[k]
    ensures Slack(c, ts, d, j, k) >= 1.0 <==>
            Granted(d, j, k + 1) as real <= c.capacity + Earned(c, Upward(ts, j, k))
  {}

  lemma BucketIsGreedy(c: Config, ts: seq<real>)
    ensures WithinEnvelope(c, ts, Decisions(c, ts))
    ensures DeniesOnlyWhenFull(c, ts, Decisions(c, ts))
  {
    hide Earned, EnvelopeHolds, Room, Slack;
    var d := Decisions(c, ts);
    forall k | 0 <= k < |ts|
      ensures d[k] <==> forall j :: 0 <= j <= k ==> Room(c, ts, d, j, k) >= 1.0
    {
      WindowLaw(c, ts, k);
    }
    forall j, k | 0 <= j <= k < |ts| && d[k] ensures EnvelopeHolds(c, ts, d, j, k) {
      SlackIsEnvelope(c, ts, d, j, k);
      RoomIsSlack(c, ts, d, j, k);
      EnvelopeIs(c, ts, d, j, k);
    }
  }

  lemma {:induction false} GreedyDominates(c: Config, ts: seq<real>, own: seq<bool>, d: seq<bool>, k: nat)
    requires |own| == |d| == |ts| && k <= |ts|
    requires WithinEnvelope(c, ts, d) && DeniesOnlyWhenFull(c, ts, own)
    ensures Granted(d, 0, k) <= Granted(own, 0, k)
  {
    hide Earned, Room, EnvelopeHolds;
    if k > 0 {
      GreedyDominates(c, ts, own, d, k - 1);
      if d[k - 1] && !own[k - 1] {
        var j :| 0 <= j <= k - 1 && Room(c, ts, own, j, k - 1) < 1.0;
        RoomIsSlack(c, ts, own, j, k - 1);
        EnvelopeIs(c, ts, d, j, k - 1);
        assert Granted(d, j, k) as real <= c.capacity + Earned(c, Upward(ts, j, k - 1));
        assert Granted(d, j, k) <= Granted(own, j, k - 1);
        GreedyDominates(c, ts, own, d, j);
        GrantedSplits(d, 0, j, k);
        GrantedSplits(own, 0, j, k - 1);
      }
    }
  }

  /** No way of deciding the same requests that respects the envelope is ever ahead. */
  lemma BucketIsOptimal(c: Config, ts: seq<real>, d: seq<bool>, k: nat)
    requires |d| == |ts| && k <= |ts|
    requires WithinEnvelope(c, ts, d)
    ensures Granted(d, 0, k) <= Granted(Decisions(c, ts), 0, k)
  {
    BucketIsGreedy(c, ts);
    GreedyDominates(c, ts, Decisions(c, ts), d, k);
  }

  // ---- Backward clocks ----

  /** Over any trace, also one whose times move backward, the calls accepted in total stay
      within capacity + rate * (sum of the upward time steps). */
  lemma TotalBound(c: Config, ts: seq<real>, j: nat, k: nat)
    requires j <= k < |ts| && c.rate >= 0.0 && c.capacity >= 0.0
    ensures EnvelopeHolds(c, ts, Decisions(c, ts), j, k)
  {
    TotalEarned(c, ts, j, k);
    EnvelopeIs(c, ts, Decisions(c, ts), j, k);
    hide Earned, Upward, Granted, Decisions, EnvelopeHolds;
  }

  lemma TotalEarned(c: Config, ts: seq<real>, j: nat, k: nat)
    requires j <= k < |ts| && c.rate >= 0.0 && c.capacity >= 0.0
    ensures Granted(Decisions(c, ts), j, k + 1) as real <= c.capacity + Earned(c, Upward(ts, j, k))
  {
    hide Earned;
    LevelAtMostSlack(c, ts, j, k);
    if !Accepted(c, ts, k) { LevelNonNegative(c, ts, k); }
  }

  lemma {:induction false} LevelNonNegative(c: Config, ts: seq<real>, k: nat)
    requires k < |ts| && c.rate >= 0.0 && c.capacity >= 0.0
    ensures Level(c, ts, k) >= 0.0
  {
    hide Earned;
    if k > 0 {
      LevelNonNegative(c, ts, k - 1);
      EarnedOrder(c, 0.0, Max(0.0, ts[k] - ts[k - 1]));
    }
  }

  /** From call `j` to call `k`, at most capacity + rate * width calls are accepted. */
  predicate WindowHolds(c: Config, ts: seq<real>, j: nat, k: nat)
    requires j <= k < |ts|
  {
    Granted(Decisions(c, ts), j, k + 1) as real <= c.capacity + c.rate * (ts[k] - ts[j])
  }

  lemma WindowIs(c: Config, ts: seq<real>, j: nat, k: nat)
    requires j <= k < |ts|
    ensures WindowHolds(c, ts, j, k) <==>
            Granted(Decisions(c, ts), j, k + 1) as real <= c.capacity + Earned(c, ts[k] - ts[j])
  {
    EarnedIs(c, ts[k] - ts[j]);
    hide Earned, Decisions, Granted;
  }

  /** In wall-clock time, the bound holds of every stretch in which the clock does not go back,
      whatever it did before. */
  lemma StretchBound(c: Config, ts: seq<real>, j: nat, k: nat)
    requires j <= k < |ts| && c.rate >= 0.0 && c.capacity >= 0.0 && NoBackStep(ts, j, k)
    ensures WindowHolds(c, ts, j, k)
  {
    hide Earned, Decisions, Granted, Upward, NoBackStep, WindowHolds;
    TotalEarned(c, ts, j, k);
    WindowIs(c, ts, j, k);
    UpwardIsWidth(ts, j, k);
  }

  /** Every window of wall-clock time, from a call to one that is no earlier by the clock, holds at
      most capacity + rate * width accepted calls. */
  ghost predicate WindowBound(c: Config, ts: seq<real>)
  {
    forall j, k :: 0 <= j <= k < |ts| && ts[j] <= ts[k] ==> WindowHolds(c, ts, j, k)
  }

  /** A clock that swings between `high` and 0, from the top. */
  function Swing(high: real, n: nat): (ts: seq<real>)
    ensures |ts| == n && forall i :: 0 <= i < n ==> ts[i] == if i % 2 == 0 then high else 0.0
  {
    seq(n, i => if i % 2 == 0 then high else 0.0)
  }

  /** Each swing upward fills the bucket again. */
  lemma {:induction false} SwingFills(c: Config, high: real, n: nat, k: nat)
    requires c.capacity >= 0.0 && c.rate >= 0.0 && high >= 0.0 && Earned(c, high) == c.capacity
    requires k < n && k % 2 == 0
    ensures Level(c, Swing(high, n), k) == c.capacity
  {
    hide Earned;
    var ts := Swing(high, n);
    if k > 0 {
      LevelNonNegative(c, ts, k - 1);
      LevelStep(c, ts, k);
      assert ts[k] == high && ts[k - 1] == 0.0;
    }
  }

  /** So at least every other call is accepted. */
  lemma {:induction false} SwingGrants(c: Config, high: real, n: nat, k: nat)
    requires c.capacity >= 1.0 && c.rate >= 0.0 && high >= 0.0 && Earned(c, high) == c.capacity && k <= n
    ensures Granted(Decisions(c, Swing(high, n)), 0, k) >= (k + 1) / 2
  {
    hide Earned, Level;
    if k > 0 {
      SwingGrants(c, high, n, k - 1);
      if k % 2 == 1 { SwingFills(c, high, n, k - 1); }
    }
  }

  lemma SwingHeight(c: Config) returns (high: real)
    requires c.capacity >= 0.0 && c.rate > 0.0
    ensures high >= 0.0 && Earned(c, high) == c.capacity
  {
    high := c.capacity / c.rate;
  }

  /** Whatever the configuration, a swinging clock overruns it: more than the capacity is accepted
      in a window of no width. */
  lemma SwingOverruns(c: Config) returns (ts: seq<real>)
    requires c.capacity >= 1.0 && c.rate > 0.0
    ensures ts != [] && ts[0] == ts[|ts| - 1]
    ensures Granted(Decisions(c, ts), 0, |ts|) as real > c.capacity
    ensures !WindowBound(c, ts)
  {
    hide Earned, Decisions, Granted, WindowHolds;
    var high := SwingHeight(c);
    var m: nat := c.capacity.Floor;
    ts := Swing(high, 2 * m + 1);
    SwingGrants(c, high, 2 * m + 1, 2 * m + 1);
    assert ts[0] == high && ts[2 * m] == high && ts[2 * m] - ts[0] == 0.0;
    EarnedOrder(c, 0.0, 0.0);
    WindowIs(c, ts, 0, 2 * m);
    assert !WindowHolds(c, ts, 0, 2 * m);
  }

  lemma {:induction false} TooSmallGrantsNothing(c: Config, ts: seq<real>, j: nat, k: nat)
    requires c.capacity < 1.0 && j <= k <= |ts|
    ensures Granted(Decisions(c, ts), j, k) == 0
  {
    if j < k {
      TooSmallGrantsNothing(c, ts, j, k - 1);
      assert Level(c, ts, k - 1) <= c.capacity;
    }
  }

  /** A configuration keeps every window on every trace, also when the clock goes back, exactly if
      it never refills (or is too small ever to accept). */
  lemma WindowBoundIff(c: Config)
    requires c.capacity >= 0.0 && c.rate >= 0.0
    ensures (forall ts :: WindowBound(c, ts)) <==> c.rate == 0.0 || c.capacity < 1.0
  {
    if c.rate == 0.0 || c.capacity < 1.0 {
      forall ts ensures WindowBound(c, ts) {
        hide WindowHolds;
        forall j, k | 0 <= j <= k < |ts| && ts[j] <= ts[k] ensures WindowHolds(c, ts, j, k) {
          NoRefillWindow(c, ts, j, k);
        }
      }
    } else {
      var ts := SwingOverruns(c);
    }
    hide WindowBound, Earned, Decisions;
  }

  lemma NoRefillWindow(c: Config, ts: seq<real>, j: nat, k: nat)
    requires c.capacity >= 0.0 && c.rate >= 0.0 && (c.rate == 0.0 || c.capacity < 1.0)
    requires j <= k < |ts| && ts[j] <= ts[k]
    ensures WindowHolds(c, ts, j, k)
  {
    hide Earned, Decisions, Granted, WindowHolds;
    WindowIs(c, ts, j, k);
    EarnedOrder(c, 0.0, ts[k] - ts[j]);
    if c.capacity < 1.0 {
      TooSmallGrantsNothing(c, ts, j, k + 1);
    } else {
      TotalEarned(c, ts, j, k);
      NoRateEarnsNothing(c, Upward(ts, j, k));
    }
  }

  lemma NoRateEarnsNothing(c: Config, span: real)
    requires c.rate == 0.0
    ensures Earned(c, span) == 0.0
  {}

  // ---- Denied requests are free ----

  /** From `from` on, the two buckets are indistinguishable. */
  ghost predicate Alike(c: Config, a: Option<Bucket>, b: Option<Bucket>, from: real)
  {
    forall t: real :: t >= from ==> Refill(c, a, t) == Refill(c, b, t)
  }

  lemma DenialLeavesBucketAlike(c: Config, b: Option<Bucket>, now: real)
    requires c.rate >= 0.0 && Refill(c, b, now) < 1.0
    requires b.Some? ==> b.value.lastRefill <= now
    ensures Alike(c, b, Some(Step(c, b, now)), now)
  {
    hide Earned;
    forall t: real | t >= now ensures Refill(c, b, t) == Refill(c, Some(Step(c, b, now)), t) {
      EarnedOrder(c, 0.0, t - now);
      if b.Some? {
        EarnedSum(c, now - b.value.lastRefill, t - now);
        assert now - b.value.lastRefill + (t - now) == t - b.value.lastRefill;
      }
    }
  }

  /** The sub-trace of the first `k` calls that keeps the marked ones. */
  function Kept(ts: seq<real>, keep: seq<bool>, k: nat): (r: seq<real>)
    requires |keep| == |ts| && k <= |ts|
    ensures |r| <= k
  {
    if k == 0 then [] else Kept(ts, keep, k - 1) + if keep[k - 1] then [ts[k - 1]] else []
  }

  lemma {:induction false} KeptPrefix(ts: seq<real>, keep: seq<bool>, j: nat, k: nat)
    requires |keep| == |ts| && j <= k <= |ts|
    ensures Kept(ts, keep, j) <= Kept(ts, keep, k)
  {
    if j < k { KeptPrefix(ts, keep, j, k - 1); }
  }

  lemma {:induction false} StateOfPrefix(c: Config, xs: seq<real>, ys: seq<real>, k: nat)
    requires xs <= ys && k <= |xs|
    ensures State(c, xs, k) == State(c, ys, k)
  {
    if k > 0 { StateOfPrefix(c, xs, ys, k - 1); }
  }

  ghost predicate DropsOnlyDenied(c: Config, ts: seq<real>, keep: seq<bool>)
    requires |keep| == |ts|
  {
    forall i :: 0 <= i < |ts| && !keep[i] ==> !Accepted(c, ts, i)
  }

  lemma {:induction false} DroppingKeepsStateAlike(c: Config, ts: seq<real>, keep: seq<bool>, k: nat)
    requires |keep| == |ts| && k < |ts| && Monotone(ts) && c.rate >= 0.0
    requires DropsOnlyDenied(c, ts, keep)
    ensures var sub := Kept(ts, keep, k);
            Alike(c, State(c, ts, k), State(c, sub, |sub|), ts[k])
  {
    hide Earned;
    if k > 0 {
      DroppingKeepsStateAlike(c, ts, keep, k - 1);
      var before, after := Kept(ts, keep, k - 1), Kept(ts, keep, k);
      var now := ts[k - 1];
      assert Refill(c, State(c, ts, k - 1), now) == Refill(c, State(c, before, |before|), now);
      if keep[k - 1] {
        StateOfPrefix(c, before, after, |before|);
        assert State(c, ts, k) == State(c, after, |after|);
      } else {
        assert !Accepted(c, ts, k - 1);
        DenialLeavesBucketAlike(c, State(c, ts, k - 1), now);
        assert after == before;
      }
    }
  }

  /** Deleting any set of denied calls leaves the level, hence the decision, of every other
      call unchanged. */
  lemma DeniedCallsAreFree(c: Config, ts: seq<real>, keep: seq<bool>, k: nat)
    requires |keep| == |ts| && k < |ts| && Monotone(ts) && c.rate >= 0.0
    requires DropsOnlyDenied(c, ts, keep) && keep[k]
    ensures var sub, pos := Kept(ts, keep, |ts|), |Kept(ts, keep, k)|;
            pos < |sub| && sub[pos] == ts[k] && Level(c, sub, pos) == Level(c, ts, k)
  {
    hide Earned;
    KeptPrefix(ts, keep, k, k + 1);
    KeptPrefix(ts, keep, k + 1, |ts|);
    DroppingKeepsStateAlike(c, ts, keep, k);
    StateOfPrefix(c, Kept(ts, keep, k), Kept(ts, keep, |ts|), |Kept(ts, keep, k)|);
  }

  // ---- Expiry of the key ----

  /** One call: the caller's clock goes into the bucket, Redis's own clock drives the expiry. */
  datatype Call = Call(now: real, server: real)

  predicate Lapsed(calls: seq<Call>, k: nat)
    requires 0 < k < |calls|
  {
    calls[k].server >= calls[k - 1].server + IDLE_SECONDS
  }

  /** The bucket call `k` finds when the key vanishes after an idle hour. */
  function Found(c: Config, calls: seq<Call>, k: nat): Option<Bucket>
    requires k < |calls|
  {
    if k == 0 || Lapsed(calls, k) then None
    else Some(Step(c, Found(c, calls, k - 1), calls[k - 1].now))
  }

  function ExpiringLevel(c: Config, calls: seq<Call>, k: nat): real
    requires k < |calls|
  {
    Refill(c, Found(c, calls, k), calls[k].now)
  }

  function Times(calls: seq<Call>): (ts: seq<real>)
    ensures |ts| == |calls| && forall i :: 0 <= i < |ts| ==> ts[i] == calls[i].now
  {
    seq(|calls|, i requires 0 <= i < |calls| => calls[i].now)
  }

  function OneClock(ts: seq<real>): (calls: seq<Call>)
    ensures |calls| == |ts| && forall i :: 0 <= i < |ts| ==> calls[i] == Call(ts[i], ts[i])
  {
    seq(|ts|, i requires 0 <= i < |ts| => Call(ts[i], ts[i]))
  }

  /** The time between two calls would fill the bucket from empty. */
  predicate GapRefills(c: Config, calls: seq<Call>, i: nat)
    requires 0 < i < |calls|
  {
    c.rate * Max(0.0, calls[i].now - calls[i - 1].now) >= c.capacity
  }

  lemma GapIs(c: Config, calls: seq<Call>, i: nat)
    requires 0 < i < |calls|
    ensures GapRefills(c, calls, i) <==> Earned(c, Max(0.0, calls[i].now - calls[i - 1].now)) >= c.capacity
  {
    EarnedIs(c, Max(0.0, calls[i].now - calls[i - 1].now));
    hide Earned, Max;
  }

  /** Losing the key is invisible whenever the idle time would have refilled the bucket. */
  lemma {:induction false} ExpiryInvisible(c: Config, calls: seq<Call>, k: nat)
    requires k < |calls| && c.rate >= 0.0 && c.capacity >= 0.0
    requires forall i :: 0 < i < |calls| && Lapsed(calls, i) ==> GapRefills(c, calls, i)
    ensures ExpiringLevel(c, calls, k) == Level(c, Times(calls), k)
  {
    hide Earned, GapRefills;
    var ts := Times(calls);
    if k > 0 {
      ExpiryInvisible(c, calls, k - 1);
      GapIs(c, calls, k);
      EarnedOrder(c, 0.0, Max(0.0, ts[k] - ts[k - 1]));
      LevelNonNegative(c, ts, k - 1);
      assert State(c, ts, k) == Some(Step(c, State(c, ts, k - 1), ts[k - 1]));
    }
  }

  ghost predicate ExpiryUnobservable(c: Config)
  {
    forall ts: seq<real>, k: nat :: Monotone(ts) && k < |ts| ==>
      ExpiringLevel(c, OneClock(ts), k) == Level(c, ts, k)
  }

  lemma {:induction false} SmallBucketStaysFull(c: Config, ts: seq<real>, k: nat)
    requires k < |ts| && c.rate >= 0.0 && c.capacity < 1.0
    ensures Level(c, ts, k) == c.capacity && ExpiringLevel(c, OneClock(ts), k) == c.capacity
  {
    hide Earned;
    if k > 0 {
      SmallBucketStaysFull(c, ts, k - 1);
      EarnedOrder(c, 0.0, Max(0.0, ts[k] - ts[k - 1]));
    }
  }

  lemma {:induction false} BurstDrains(c: Config, ts: seq<real>, n: nat, k: nat)
    requires n <= |ts| && k < |ts| && k <= n <= k + |ts| && c.capacity >= n as real && c.rate >= 0.0
    requires forall i :: 0 <= i < n ==> ts[i] == 0.0
    requires k < n
    ensures Level(c, ts, k) == c.capacity - k as real
    ensures State(c, ts, k + 1) == Some(Bucket(c.capacity - k as real - 1.0, 0.0))
    ensures Found(c, OneClock(ts), k) == State(c, ts, k)
  {
    hide Earned;
    EarnedSum(c, 0.0, 0.0);
    if k > 0 { BurstDrains(c, ts, n, k - 1); }
  }

  lemma WaitFor(c: Config, tokens: real) returns (wait: real)
    requires 0.0 <= tokens < Earned(c, IDLE_SECONDS) && c.rate >= 0.0
    ensures 0.0 <= wait < IDLE_SECONDS && Earned(c, wait) == tokens
  {
    wait := tokens / c.rate;
    if wait >= IDLE_SECONDS { EarnedOrder(c, IDLE_SECONDS, wait); }
  }

  /** A burst at time zero, then an idle hour that would not refill the bucket. */
  lemma BurstShowsExpiry(c: Config, n: nat) returns (ts: seq<real>)
    requires c.rate >= 0.0 && 1 <= n && n as real <= c.capacity < n as real + 1.0 && Earned(c, IDLE_SECONDS) < n as real
    ensures Monotone(ts) && n < |ts| && ExpiringLevel(c, OneClock(ts), n) != Level(c, ts, n)
  {
    hide Earned;
    EarnedSum(c, 0.0, 0.0);
    ts := seq(n, i => 0.0) + [IDLE_SECONDS];
    BurstDrains(c, ts, n, n - 1);
    assert Level(c, ts, n) == Min(c.capacity, c.capacity - n as real + Earned(c, IDLE_SECONDS));
  }

  /** A burst, a last token taken the moment it is there, then an idle hour. */
  lemma LastTokenShowsExpiry(c: Config, n: nat) returns (ts: seq<real>)
    requires c.rate >= 0.0 && 1 <= n && n as real <= c.capacity < n as real + 1.0
    requires n as real <= Earned(c, IDLE_SECONDS) < c.capacity
    ensures Monotone(ts) && n + 1 < |ts| && ExpiringLevel(c, OneClock(ts), n + 1) != Level(c, ts, n + 1)
  {
    hide Earned;
    EarnedSum(c, 0.0, 0.0);
    var rest := c.capacity - n as real;
    var wait := WaitFor(c, 1.0 - rest);
    ts := seq(n, i => 0.0) + [wait, wait + IDLE_SECONDS];
    BurstDrains(c, ts, n, n - 1);
    assert State(c, ts, n) == Some(Bucket(rest, 0.0));
    assert Level(c, ts, n) == 1.0;
    assert State(c, ts, n + 1) == Some(Bucket(0.0, wait));
    assert Level(c, ts, n + 1) == Earned(c, IDLE_SECONDS);
  }

  lemma ExpiryShows(c: Config) returns (ts: seq<real>, k: nat)
    requires c.rate >= 0.0 && c.capacity >= 1.0 && c.capacity > Earned(c, IDLE_SECONDS)
    ensures Monotone(ts) && k < |ts|
    ensures ExpiringLevel(c, OneClock(ts), k) != Level(c, ts, k)
  {
    hide Earned, Level, ExpiringLevel, State;
    var n: nat := c.capacity.Floor;
    if Earned(c, IDLE_SECONDS) < n as real {
      k := n;
      ts := BurstShowsExpiry(c, n);
    } else {
      k := n + 1;
      ts := LastTokenShowsExpiry(c, n);
    }
  }

  /** With one clock, the expiry of idle keys can never be observed exactly when the bucket
      refills within the hour (or is too small ever to accept). */
  lemma ExpiryUnobservableIff(c: Config)
    requires c.rate >= 0.0 && c.capacity >= 0.0
    ensures ExpiryUnobservable(c) <==> c.capacity < 1.0 || c.capacity <= 3600.0 * c.rate
  {
    EarnedIs(c, IDLE_SECONDS);
    hide Earned, GapRefills;
    if c.capacity < 1.0 {
      forall ts: seq<real>, k: nat | Monotone(ts) && k < |ts|
        ensures ExpiringLevel(c, OneClock(ts), k) == Level(c, ts, k)
      {
        SmallBucketStaysFull(c, ts, k);
      }
    } else if c.capacity <= Earned(c, IDLE_SECONDS) {
      forall ts: seq<real>, k: nat | Monotone(ts) && k < |ts|
        ensures ExpiringLevel(c, OneClock(ts), k) == Level(c, ts, k)
      {
        var calls := OneClock(ts);
        forall i | 0 < i < |calls| && Lapsed(calls, i)
          ensures GapRefills(c, calls, i)
        {
          GapIs(c, calls, i);
          var gap := calls[i].now - calls[i - 1].now;
          EarnedOrder(c, IDLE_SECONDS, gap);
        }
        ExpiryInvisible(c, calls, k);
        assert Times(calls) == ts;
      }
    } else {
      var ts, k := ExpiryShows(c);
    }
  }

  // ---- The limiter object ----

  datatype Entry = Entry(bucket: Bucket, expiresAt: real)

  lemma {:induction false} FoundOfPrefix(c: Config, xs: seq<Call>, ys: seq<Call>, k: nat)
    requires xs <= ys && k < |xs|
    ensures Found(c, xs, k) == Found(c, ys, k)
  {
    hide Earned;
    if k > 0 && !Lapsed(xs, k) { FoundOfPrefix(c, xs, ys, k - 1); }
  }

  /** The entry is what the last of these calls wrote. */
  ghost predicate Written(c: Config, e: Entry, calls: seq<Call>)
  {
    && calls != []
    && var last := |calls| - 1;
       e == Entry(Step(c, Found(c, calls, last), calls[last].now), calls[last].server + IDLE_SECONDS)
  }

  /** What the script reads at server time `server`. */
  function Read(e: Option<Entry>, server: real): Option<Bucket>
  {
    if e.Some? && server < e.value.expiresAt then Some(e.value.bucket) else None
  }

  lemma ReadIsFound(c: Config, e: Option<Entry>, past: seq<Call>, call: Call)
    requires if e.Some? then Written(c, e.value, past) else past == []
    ensures Read(e, call.server) == Found(c, past + [call], |past|)
  {
    hide Step;
    var calls := past + [call];
    if past != [] {
      FoundOfPrefix(c, past, calls, |past| - 1);
      assert calls[|past| - 1] == past[|past| - 1];
    }
  }

  class Limiter {
    const config: Config
    /** Redis: one hash with an expiry per key.  An expired hash reads as missing. */
    var store: map<string, Entry>
    /** The calls made so far with each key. */
    ghost var history: map<string, seq<Call>>

    ghost predicate Valid()
      reads this
    {
      && store.Keys == history.Keys
      && forall key :: key in store ==> Written(config, store[key], history[key])
    }

    ghost function Calls(key: string): seq<Call>
      reads this
    {
      if key in history then history[key] else []
    }

    constructor (config: Config)
      ensures Valid() && this.config == config && history == map[]
    {
      this.config, store, history := config, map[], map[];
    }

    /** `reachable` is false when the script call fails; then nothing is decided or stored. */
    method Allow(key: string, now: real, server: real, reachable: bool)
      returns (allowed: bool, remaining: real, failed: bool)
      requires Valid()
      modifies this
      ensures Valid()
      ensures failed == !reachable
      ensures failed ==> !allowed && remaining == 0.0 && history == old(history) && store == old(store)
      ensures !failed ==> history == old(history)[key := old(Calls(key)) + [Call(now, server)]]
      ensures !failed ==>
                var calls := history[key];
                var level := ExpiringLevel(config, calls, |calls| - 1);
                allowed == (level >= 1.0) && remaining == (if allowed then level - 1.0 else level)
      ensures forall other :: other != key && other in old(store) ==>
                other in store && store[other] == old(store)[other]
    {
      hide Earned, Found;
      EarnedSum(config, 0.0, 0.0);
      if !reachable { return false, 0.0, true; }
      ghost var past := Calls(key);
      ghost var found := if key in store then Some(store[key]) else None;
      ReadIsFound(config, found, past, Call(now, server));
      var tokens, lastRefill := config.capacity, now;
      if key in store && server < store[key].expiresAt {
        tokens, lastRefill := store[key].bucket.tokens, store[key].bucket.lastRefill;
      }
      var elapsed := Max(0.0, now - lastRefill);
      tokens := Min(config.capacity, tokens + Earned(config, elapsed));
      assert tokens == Refill(config, Read(found, server), now);
      allowed := false;
      if tokens >= 1.0 {
        tokens := tokens - 1.0;
        allowed := true;
      }
      store := store[key := Entry(Bucket(tokens, now), server + IDLE_SECONDS)];
      history := history[key := past + [Call(now, server)]];
      remaining, failed := tokens, false;
    }
  }
}
