/** The per-identity rate limiter: token buckets in a map that an eviction loop prunes. */
module RateLimit {
  import opened Common

  /** A token bucket starts full, refills linearly up to its burst, and gives one token to a
      request that finds at least one. Times and the refill rate are in seconds. */
  datatype Policy = Policy(rate: real, burst: nat, ttl: real)
  {
    ghost predicate Valid() { rate >= 0.0 && ttl >= 0.0 }
  }

  datatype Bucket = Bucket(tokens: real, last: real)

  function Full(p: Policy, now: real): Bucket { Bucket(p.burst as real, now) }

  /** What refills between two times. */
  function Refill(p: Policy, t: real, u: real): real { p.rate * (u - t) }

  function Tokens(p: Policy, b: Bucket, now: real): real {
    var t := b.tokens + Refill(p, b.last, now);
    if t > p.burst as real then p.burst as real else t
  }

  function Take(p: Policy, b: Bucket, now: real): (Bucket, bool) {
    var t := Tokens(p, b, now);
    if t >= 1.0 then (Bucket(t - 1.0, now), true) else (Bucket(t, now), false)
  }

  /** A map entry: the bucket and when its key was last seen. */
  datatype Entry = Entry(bucket: Bucket, lastSeen: real)

  type Buckets = map<string, Entry>

  /** `Allow` reads the clock for lastSeen and again inside the bucket. */
  function AllowEntry(p: Policy, m: Buckets, key: string, seen: real, at: real): (Entry, bool) {
    var (b, ok) := Take(p, if key in m then m[key].bucket else Full(p, seen), at);
    (Entry(b, seen), ok)
  }

  /** The eviction loop's test: idle since before the cutoff, and full again. */
  predicate Evictable(p: Policy, e: Entry, now: real, at: real) {
    e.lastSeen < now - p.ttl && Tokens(p, e.bucket, at) >= p.burst as real
  }

  /** One call of `Allow`, or one turn of the eviction loop for one key. `at` is the clock
      when it happens; `seen` and `now` are readings taken no later. */
  datatype Op = Call(key: string, seen: real, at: real) | Check(key: string, now: real, at: real)

  function DoOp(p: Policy, m: Buckets, op: Op): Buckets {
    match op
    case Call(k, seen, at) => m[k := AllowEntry(p, m, k, seen, at).0]
    case Check(k, now, at) => if k in m && Evictable(p, m[k], now, at) then m - {k} else m
  }

  function RunOps(p: Policy, m: Buckets, ops: seq<Op>): Buckets
    decreases |ops|
  {
    if ops == [] then m else RunOps(p, DoOp(p, m, ops[0]), ops[1..])
  }

  /** The clock never runs backwards, and `Allow` reads it under the lock. */
  predicate Clocked(from: real, ops: seq<Op>)
    decreases |ops|
  {
    ops == [] || (from <= ops[0].at && (ops[0].Call? ==> from <= ops[0].seen <= ops[0].at)
                  && Clocked(ops[0].at, ops[1..]))
  }

  /** What the limiter answers to one key's calls, in order. */
  function Answers(p: Policy, m: Buckets, ops: seq<Op>, key: string): seq<bool>
    decreases |ops|
  {
    if ops == [] then []
    else
      var rest := Answers(p, DoOp(p, m, ops[0]), ops[1..], key);
      if ops[0].Call? && ops[0].key == key
      then [AllowEntry(p, m, key, ops[0].seen, ops[0].at).1] + rest
      else rest
  }

  /** The times of one key's calls. */
  function Times(ops: seq<Op>, key: string): seq<real> {
    if ops == [] then []
    else if ops[0].Call? && ops[0].key == key then [ops[0].at] + Times(ops[1..], key)
    else Times(ops[1..], key)
  }

  /** What one token bucket alone answers to calls at the given times. */
  function BucketAnswers(p: Policy, b: Bucket, times: seq<real>): seq<bool>
    decreases |times|
  {
    if times == [] then []
    else
      var (b', ok) := Take(p, b, times[0]);
      [ok] + BucketAnswers(p, b', times[1..])
  }

  // ----- Eviction is invisible -----

  lemma RefillSplits(p: Policy, t: real, u: real, v: real)
    requires p.Valid() && t <= u <= v
    ensures Refill(p, t, v) == Refill(p, t, u) + Refill(p, u, v)
    ensures Refill(p, t, u) >= 0.0 && Refill(p, u, v) >= 0.0
  {
  }

  /** Between two readings a bucket's tokens depend only on the time elapsed. */
  lemma TokensAdvance(p: Policy, b: Bucket, t: real, u: real)
    requires p.Valid() && b.last <= t <= u
    ensures Tokens(p, Bucket(Tokens(p, b, t), t), u) == Tokens(p, b, u)
  {
    RefillSplits(p, b.last, t, u);
  }

  /** `b` answers every call from `t` on just as `c` does. */
  ghost predicate Alike(p: Policy, b: Bucket, c: Bucket, t: real) {
    b.last <= t && c.last <= t && Tokens(p, b, t) == Tokens(p, c, t)
  }

  lemma AlikeLater(p: Policy, b: Bucket, c: Bucket, t: real, u: real)
    requires p.Valid() && Alike(p, b, c, t) && t <= u
    ensures Tokens(p, b, u) == Tokens(p, c, u) && Take(p, b, u) == Take(p, c, u)
  {
    TokensAdvance(p, b, t, u);
    TokensAdvance(p, c, t, u);
  }

  /** The bucket the limiter would use for `key`: its own, or a new one. */
  function BucketOf(p: Policy, m: Buckets, key: string, now: real): Bucket {
    if key in m then m[key].bucket else Full(p, now)
  }

  lemma FullStaysFull(p: Policy, t: real, u: real)
    requires p.Valid() && t <= u
    ensures Tokens(p, Full(p, t), u) == p.burst as real
  {
    RefillSplits(p, t, t, u);
  }

  lemma OpKeepsAlike(p: Policy, m: Buckets, op: Op, key: string, b: Bucket, from: real)
    requires p.Valid() && Clocked(from, [op])
    requires Alike(p, BucketOf(p, m, key, from), b, from)
    requires !(op.Call? && op.key == key)
    ensures Alike(p, BucketOf(p, DoOp(p, m, op), key, op.at), b, op.at)
  {
    AlikeLater(p, BucketOf(p, m, key, from), b, from, op.at);
    FullStaysFull(p, from, op.at);
    FullStaysFull(p, op.at, op.at);
    if op.Check? && key == op.key && key in m && Evictable(p, m[key], op.now, op.at) {
      assert Tokens(p, m[key].bucket, op.at) == p.burst as real;
    }
  }

  /** One key's answers are those of its own token bucket, from any state alike to it. */
  lemma {:induction false} AnswersFollowBucket(p: Policy, m: Buckets, ops: seq<Op>, key: string, b: Bucket, from: real)
    requires p.Valid() && Clocked(from, ops)
    requires Alike(p, BucketOf(p, m, key, from), b, from)
    ensures Answers(p, m, ops, key) == BucketAnswers(p, b, Times(ops, key))
    decreases |ops|
  {
    if ops != [] {
      var op := ops[0];
      if op.Call? && op.key == key {
        FullStaysFull(p, from, op.at);
        FullStaysFull(p, op.seen, op.at);
        AlikeLater(p, BucketOf(p, m, key, from), b, from, op.at);
        var b' := Take(p, b, op.at).0;
        assert AllowEntry(p, m, key, op.seen, op.at).0.bucket == b';
        AnswersFollowBucket(p, DoOp(p, m, op), ops[1..], key, b', op.at);
        assert ([op.at] + Times(ops[1..], key))[1..] == Times(ops[1..], key);
      } else {
        OpKeepsAlike(p, m, op, key, b, from);
        AnswersFollowBucket(p, DoOp(p, m, op), ops[1..], key, b, op.at);
      }
    }
  }

  /** A limiter that evicts answers each key exactly as one token bucket that only that key
      uses and that is never removed: neither eviction nor other keys' traffic shows. */
  lemma LimiterIsOneBucketPerKey(p: Policy, ops: seq<Op>, key: string, from: real)
    requires p.Valid() && Clocked(from, ops)
    ensures Answers(p, map[], ops, key) == BucketAnswers(p, Full(p, from), Times(ops, key))
  {
    AnswersFollowBucket(p, map[], ops, key, Full(p, from), from);
  }

  /** The same calls without the eviction loop. */
  function WithoutChecks(ops: seq<Op>): seq<Op> {
    if ops == [] then []
    else if ops[0].Check? then WithoutChecks(ops[1..])
    else [ops[0]] + WithoutChecks(ops[1..])
  }

  lemma {:induction false} WithoutChecksKeepsCalls(ops: seq<Op>, key: string, from: real, earlier: real)
    requires Clocked(from, ops) && earlier <= from
    ensures Clocked(earlier, WithoutChecks(ops)) && Times(WithoutChecks(ops), key) == Times(ops, key)
    decreases |ops|
  {
    if ops != [] {
      if ops[0].Check? {
        WithoutChecksKeepsCalls(ops[1..], key, ops[0].at, earlier);
      } else {
        WithoutChecksKeepsCalls(ops[1..], key, ops[0].at, ops[0].at);
        assert WithoutChecks(ops)[1..] == WithoutChecks(ops[1..]);
      }
    }
  }

  /** Every key gets the answers of a limiter that never evicts. */
  lemma EvictionIsInvisible(p: Policy, ops: seq<Op>, key: string, from: real)
    requires p.Valid() && Clocked(from, ops)
    ensures Answers(p, map[], ops, key) == Answers(p, map[], WithoutChecks(ops), key)
  {
    WithoutChecksKeepsCalls(ops, key, from, from);
    LimiterIsOneBucketPerKey(p, ops, key, from);
    LimiterIsOneBucketPerKey(p, WithoutChecks(ops), key, from);
  }

  // ----- The rate bound -----

  /** How many calls in the window [t0, t1] were allowed. */
  function Allowed(times: seq<real>, answers: seq<bool>, t0: real, t1: real): nat
    requires |times| == |answers|
  {
    if times == [] then 0
    else (if answers[0] && t0 <= times[0] <= t1 then 1 else 0) + Allowed(times[1..], answers[1..], t0, t1)
  }

  predicate Nondecreasing(from: real, times: seq<real>)
    decreases |times|
  {
    times == [] || (from <= times[0] && Nondecreasing(times[0], times[1..]))
  }

  lemma {:induction false} OneAnswerPerCall(p: Policy, b: Bucket, times: seq<real>)
    ensures |BucketAnswers(p, b, times)| == |times|
    decreases |times|
  {
    if times != [] {
      OneAnswerPerCall(p, Take(p, b, times[0]).0, times[1..]);
    }
  }

  lemma {:induction false} NoneAllowedAfterWindow(times: seq<real>, answers: seq<bool>, from: real, t0: real, t1: real)
    requires |times| == |answers| && Nondecreasing(from, times) && from > t1
    ensures Allowed(times, answers, t0, t1) == 0
  {
    if times != [] {
      NoneAllowedAfterWindow(times[1..], answers[1..], times[0], t0, t1);
    }
  }

  /** An allowed call costs one of the tokens present, which never exceed the burst. */
  lemma TakeCosts(p: Policy, b: Bucket, now: real)
    requires p.Valid() && b.last <= now && 0.0 <= b.tokens
    ensures var (b', ok) := Take(p, b, now);
            && b'.last == now && 0.0 <= b'.tokens
            && b'.tokens + (if ok then 1.0 else 0.0) <= p.burst as real
            && b'.tokens + (if ok then 1.0 else 0.0) <= b.tokens + Refill(p, b.last, now)
  {
    RefillSplits(p, b.last, now, now);
    assert p.burst >= 0;
  }

  lemma AllowedStep(p: Policy, b: Bucket, times: seq<real>, t0: real, t1: real)
    requires times != []
    ensures |BucketAnswers(p, b, times)| == |times|
    ensures var (b', ok) := Take(p, b, times[0]);
            && |BucketAnswers(p, b', times[1..])| == |times[1..]|
            && Allowed(times, BucketAnswers(p, b, times), t0, t1)
            == (if ok && t0 <= times[0] <= t1 then 1 else 0)
               + Allowed(times[1..], BucketAnswers(p, b', times[1..]), t0, t1)
  {
    OneAnswerPerCall(p, b, times);
    OneAnswerPerCall(p, Take(p, b, times[0]).0, times[1..]);
  }

  /** Inside the window, tokens in the bucket plus the refill to come pay for what is allowed. */
  lemma {:induction false} TokensPay(p: Policy, b: Bucket, times: seq<real>, t0: real, t1: real)
    requires p.Valid() && Nondecreasing(b.last, times) && 0.0 <= b.tokens && b.last <= t1
    ensures |BucketAnswers(p, b, times)| == |times|
    ensures Allowed(times, BucketAnswers(p, b, times), t0, t1) as real <= b.tokens + Refill(p, b.last, t1)
    decreases |times|
  {
    RefillSplits(p, b.last, t1, t1);
    if times != [] {
      var now := times[0];
      AllowedStep(p, b, times, t0, t1);
      if now <= t1 {
        TakeCosts(p, b, now);
        RefillSplits(p, b.last, now, t1);
        TokensPay(p, Take(p, b, now).0, times[1..], t0, t1);
      } else {
        NoneAllowedAfterWindow(times[1..], BucketAnswers(p, Take(p, b, now).0, times[1..]), now, t0, t1);
      }
    }
  }

  lemma {:induction false} BucketBound(p: Policy, b: Bucket, times: seq<real>, t0: real, t1: real)
    requires p.Valid() && Nondecreasing(b.last, times) && 0.0 <= b.tokens && t0 <= t1
    ensures |BucketAnswers(p, b, times)| == |times|
    ensures Allowed(times, BucketAnswers(p, b, times), t0, t1) as real <= p.burst as real + Refill(p, t0, t1)
    decreases |times|
  {
    RefillSplits(p, t0, t1, t1);
    assert p.burst >= 0;
    if times != [] {
      var now := times[0];
      AllowedStep(p, b, times, t0, t1);
      TakeCosts(p, b, now);
      if t0 <= now <= t1 {
        TokensPay(p, Take(p, b, now).0, times[1..], t0, t1);
        RefillSplits(p, t0, now, t1);
      } else {
        BucketBound(p, Take(p, b, now).0, times[1..], t0, t1);
      }
    }
  }

  lemma {:induction false} TimesInOrder(ops: seq<Op>, key: string, from: real, earlier: real)
    requires Clocked(from, ops) && earlier <= from
    ensures Nondecreasing(earlier, Times(ops, key))
    decreases |ops|
  {
    if ops != [] {
      if ops[0].Call? && ops[0].key == key {
        TimesInOrder(ops[1..], key, ops[0].at, ops[0].at);
        assert Times(ops, key)[1..] == Times(ops[1..], key);
      } else {
        TimesInOrder(ops[1..], key, ops[0].at, earlier);
      }
    }
  }

  /** In any window, over evictions and re-creations of its bucket, a key is allowed at most
      the burst plus the rate times the length of the window. */
  lemma WindowBound(p: Policy, ops: seq<Op>, key: string, from: real, t0: real, t1: real)
    requires p.Valid() && Clocked(from, ops) && t0 <= t1
    ensures |Answers(p, map[], ops, key)| == |Times(ops, key)|
    ensures Allowed(Times(ops, key), Answers(p, map[], ops, key), t0, t1) as real
         <= p.burst as real + Refill(p, t0, t1)
  {
    LimiterIsOneBucketPerKey(p, ops, key, from);
    TimesInOrder(ops, key, from, from);
    BucketBound(p, Full(p, from), Times(ops, key), t0, t1);
  }

  // ----- What is denied -----

  /** How many of the calls before the `i`-th were allowed at or after `t0`. */
  function Earlier(times: seq<real>, answers: seq<bool>, i: nat, t0: real): nat
    requires i <= |times| == |answers|
  {
    if i == 0 then 0
    else (if answers[0] && t0 <= times[0] then 1 else 0) + Earlier(times[1..], answers[1..], i - 1, t0)
  }

  lemma {:induction false} EarlierGrows(times: seq<real>, answers: seq<bool>, i: nat, t0: real, t1: real)
    requires i <= |times| == |answers| && t0 <= t1
    ensures Earlier(times, answers, i, t1) <= Earlier(times, answers, i, t0)
  {
    if i > 0 {
      EarlierGrows(times[1..], answers[1..], i - 1, t0, t1);
    }
  }

  /** Admitting the `i`-th call would let more through from `t0` on than the burst and the
      refill since then. */
  predicate Overdrawn(p: Policy, times: seq<real>, answers: seq<bool>, i: nat, t0: real)
    requires i < |times| == |answers|
  {
    t0 <= times[i] && (Earlier(times, answers, i, t0) + 1) as real > p.burst as real + Refill(p, t0, times[i])
  }

  lemma BucketAnswersTail(p: Policy, b: Bucket, times: seq<real>)
    requires times != []
    ensures var (b', ok) := Take(p, b, times[0]);
            && |BucketAnswers(p, b, times)| == |times| && BucketAnswers(p, b, times)[0] == ok
            && BucketAnswers(p, b, times)[1..] == BucketAnswers(p, b', times[1..])
  {
    OneAnswerPerCall(p, b, times);
  }

  lemma {:induction false} NoEarlierThan(from: real, times: seq<real>, i: nat)
    requires Nondecreasing(from, times) && i < |times|
    ensures from <= times[i]
    decreases i
  {
    if i > 0 {
      NoEarlierThan(times[0], times[1..], i - 1);
    }
  }

  /** The tokens now and the refill to come pay for the calls up to an allowed one. */
  lemma {:induction false} TokensPayFor(p: Policy, b: Bucket, times: seq<real>, i: nat, t0: real)
    requires p.Valid() && Nondecreasing(b.last, times) && 0.0 <= b.tokens && i < |times|
    ensures |BucketAnswers(p, b, times)| == |times|
    ensures BucketAnswers(p, b, times)[i]
        ==> (Earlier(times, BucketAnswers(p, b, times), i, t0) + 1) as real <= b.tokens + Refill(p, b.last, times[i])
    decreases |times|
  {
    BucketAnswersTail(p, b, times);
    TakeCosts(p, b, times[0]);
    if i > 0 {
      NoEarlierThan(times[0], times[1..], i - 1);
      RefillSplits(p, b.last, times[0], times[i]);
      TokensPayFor(p, Take(p, b, times[0]).0, times[1..], i - 1, t0);
    }
  }

  /** An allowed call overdraws no window. */
  lemma {:induction false} AllowedIsPaid(p: Policy, b: Bucket, times: seq<real>, i: nat, t0: real)
    requires p.Valid() && Nondecreasing(b.last, times) && 0.0 <= b.tokens && i < |times|
    ensures |BucketAnswers(p, b, times)| == |times|
    ensures BucketAnswers(p, b, times)[i] ==> !Overdrawn(p, times, BucketAnswers(p, b, times), i, t0)
    decreases |times|
  {
    BucketAnswersTail(p, b, times);
    var now, b' := times[0], Take(p, b, times[0]).0;
    TakeCosts(p, b, now);
    NoEarlierThan(b.last, times, i);
    if i == 0 {
      if t0 <= now { RefillSplits(p, t0, now, now); }
    } else if now < t0 {
      AllowedIsPaid(p, b', times[1..], i - 1, t0);
    } else {
      NoEarlierThan(now, times[1..], i - 1);
      TokensPayFor(p, b', times[1..], i - 1, t0);
      RefillSplits(p, t0, now, times[i]);
    }
  }

  /** A denied call overdraws the window since the bucket was last full or, if it has not been
      since `b`, has spent what `b` held and what refilled. */
  lemma {:induction false} DeniedIsSpent(p: Policy, b: Bucket, times: seq<real>, i: nat) returns (t0: real)
    requires p.Valid() && Nondecreasing(b.last, times) && 0.0 <= b.tokens && i < |times|
    ensures |BucketAnswers(p, b, times)| == |times|
    ensures !BucketAnswers(p, b, times)[i] ==>
              var answers := BucketAnswers(p, b, times);
              || Overdrawn(p, times, answers, i, t0)
              || (Earlier(times, answers, i, b.last) + 1) as real > b.tokens + Refill(p, b.last, times[i])
    decreases |times|
  {
    BucketAnswersTail(p, b, times);
    var now, b' := times[0], Take(p, b, times[0]).0;
    TakeCosts(p, b, now);
    t0 := now;
    RefillSplits(p, now, now, now);
    if i > 0 {
      var u := DeniedIsSpent(p, b', times[1..], i - 1);
      NoEarlierThan(now, times[1..], i - 1);
      RefillSplits(p, b.last, now, times[i]);
      EarlierGrows(times[1..], BucketAnswers(p, b', times[1..]), i - 1, b.last, now);
      if Overdrawn(p, times[1..], BucketAnswers(p, b', times[1..]), i - 1, u) {
        t0 := u;
      }
    }
  }

  /** The limiter, characterised by its windows alone: over any calls and eviction checks, a
      key's call is denied if and only if in some window ending at it the calls already
      allowed, and one more, exceed the burst plus the rate times the length. */
  lemma DeniedIffOverdrawn(p: Policy, ops: seq<Op>, key: string, from: real, i: nat)
    requires p.Valid() && Clocked(from, ops) && i < |Times(ops, key)|
    ensures |Answers(p, map[], ops, key)| == |Times(ops, key)|
    ensures !Answers(p, map[], ops, key)[i]
       <==> exists t0 :: Overdrawn(p, Times(ops, key), Answers(p, map[], ops, key), i, t0)
  {
    var times, full := Times(ops, key), Full(p, from);
    LimiterIsOneBucketPerKey(p, ops, key, from);
    TimesInOrder(ops, key, from, from);
    OneAnswerPerCall(p, full, times);
    NoEarlierThan(from, times, i);
    var answers := BucketAnswers(p, full, times);
    if answers[i] {
      forall t0 ensures !Overdrawn(p, times, answers, i, t0) {
        AllowedIsPaid(p, full, times, i, t0);
      }
    } else {
      var t0 := DeniedIsSpent(p, full, times, i);
      assert Overdrawn(p, times, answers, i, t0) || Overdrawn(p, times, answers, i, from);
    }
  }

  /** Calls all at one instant. */
  function AtOnce(t: real, n: nat): seq<real> { seq(n, _ => t) }

  lemma {:induction false} BurstFrom(p: Policy, k: nat, t: real, n: nat, i: nat)
    requires p.Valid() && k <= p.burst && i < n
    ensures |BucketAnswers(p, Bucket(k as real, t), AtOnce(t, n))| == n
    ensures BucketAnswers(p, Bucket(k as real, t), AtOnce(t, n))[i] <==> i < k
    decreases n
  {
    RefillSplits(p, t, t, t);
    OneAnswerPerCall(p, Bucket(k as real, t), AtOnce(t, n));
    assert AtOnce(t, n)[1..] == AtOnce(t, n - 1);
    var k' := if k >= 1 then k - 1 else 0;
    assert Take(p, Bucket(k as real, t), t) == (Bucket(k' as real, t), k >= 1);
    if i > 0 {
      BurstFrom(p, k', t, n - 1, i - 1);
    }
  }

  /** The bound is met: of any number of calls a new key makes at once, exactly the first
      `burst` are allowed. */
  lemma BurstIsAllowed(p: Policy, t: real, n: nat, i: nat)
    requires p.Valid() && i < n
    ensures |BucketAnswers(p, Full(p, t), AtOnce(t, n))| == n
    ensures BucketAnswers(p, Full(p, t), AtOnce(t, n))[i] <==> i < p.burst
  {
    BurstFrom(p, p.burst, t, n, i);
  }

  /** Once a whole token has had time to refill, the next call is allowed. */
  lemma RefilledTokenIsAllowed(p: Policy, b: Bucket, now: real)
    requires p.Valid() && p.burst >= 1 && b.tokens >= 0.0 && Refill(p, b.last, now) >= 1.0
    ensures Take(p, b, now).1
  {
  }

  // ----- The eviction pass and the size of the map -----

  /** The entries an eviction pass keeps when the key's tokens are read at `clock(key)`. */
  function Kept(p: Policy, m: Buckets, now: real, clock: string -> real): Buckets {
    map k | k in m && !Evictable(p, m[k], now, clock(k)) :: m[k]
  }

  function PassOps(order: seq<string>, now: real, clock: string -> real): seq<Op> {
    seq(|order|, i requires 0 <= i < |order| => Check(order[i], now, clock(order[i])))
  }

  lemma {:induction false} ChecksRemove(p: Policy, m: Buckets, order: seq<string>, now: real, clock: string -> real)
    ensures RunOps(p, m, PassOps(order, now, clock))
         == map k | k in m && !(k in order && Evictable(p, m[k], now, clock(k))) :: m[k]
    decreases |order|
  {
    if order != [] {
      var ops := PassOps(order, now, clock);
      assert ops[1..] == PassOps(order[1..], now, clock);
      ChecksRemove(p, DoOp(p, m, ops[0]), order[1..], now, clock);
      assert forall k :: k in order <==> k == order[0] || k in order[1..];
    }
  }

  /** A pass is its per-key checks, in whatever order the map is ranged over. */
  lemma PassIsChecks(p: Policy, m: Buckets, order: seq<string>, now: real, clock: string -> real)
    requires forall k :: k in m ==> k in order
    ensures RunOps(p, m, PassOps(order, now, clock)) == Kept(p, m, now, clock)
  {
    ChecksRemove(p, m, order, now, clock);
  }

  /** The limiter object. */
  class Limiter {
    const policy: Policy
    var buckets: Buckets

    constructor (perMinute: real, burst: nat)
      ensures buckets == map[] && policy == Policy(perMinute / 60.0, burst, 600.0)
    {
      policy := Policy(perMinute / 60.0, burst, 600.0);
      buckets := map[];
    }

    /** Whether the key may proceed, consuming a token if so. */
    method Allow(key: string, seen: real, at: real) returns (ok: bool)
      modifies this
      ensures buckets == DoOp(policy, old(buckets), Call(key, seen, at))
      ensures ok == AllowEntry(policy, old(buckets), key, seen, at).1
    {
      if key !in buckets {
        buckets := buckets[key := Entry(Full(policy, seen), seen)];
      }
      var (bucket, allowed) := Take(policy, buckets[key].bucket, at);
      buckets := buckets[key := Entry(bucket, seen)];
      ok := allowed;
    }

    /** One pass of the eviction loop, over the keys in any order. */
    method EvictPass(now: real, clock: string -> real)
      modifies this
      ensures buckets == Kept(policy, old(buckets), now, clock)
    {
      ghost var before := buckets;
      var cutoff := now - policy.ttl;
      var keys := buckets.Keys;
      while keys != {}
        invariant keys <= buckets.Keys <= before.Keys
        invariant forall k :: k in buckets ==> buckets[k] == before[k]
        invariant forall k :: k in before && k !in keys ==>
                                (k in buckets <==> !Evictable(policy, before[k], now, clock(k)))
        decreases |keys|
      {
        var key :| key in keys;
        keys := keys - {key};
        var b := buckets[key];
        if b.lastSeen < cutoff && Tokens(policy, b.bucket, clock(key)) >= policy.burst as real {
          buckets := buckets - {key};
        }
      }
    }
  }

  /** No `Allow` took longer than `gap` between its two clock readings. */
  predicate Gapped(ops: seq<Op>, gap: real) {
    forall i :: 0 <= i < |ops| && ops[i].Call? ==> ops[i].at - ops[i].seen <= gap
  }

  function End(from: real, ops: seq<Op>): real {
    if ops == [] then from else ops[|ops| - 1].at
  }

  predicate Recent(m: Buckets, since: real) {
    forall k :: k in m ==> m[k].lastSeen >= since
  }

  /** How much a bucket can lack beyond the burst, counting from when its key was last seen.
      What refills between a call's two clock readings has refilled before the call takes its
      token, and is missing from the wait that follows: up to one token, and everything that
      overflows when more than the burst would have refilled. */
  function Deficit(p: Policy, gap: real): real {
    var y := Refill(p, 0.0, gap);
    Larger(if y < 1.0 then y else 1.0, y - p.burst as real + 1.0)
  }

  /** The burst and the deficit refill within the time to live. */
  predicate RefillsInTime(p: Policy, gap: real) {
    p.burst == 0 || p.burst as real + Deficit(p, gap) <= Refill(p, 0.0, p.ttl)
  }

  /** An entry whose bucket, brought back to when its key was last seen, lacks at most the
      deficit. */
  predicate EntryGapped(p: Policy, e: Entry, gap: real, t: real) {
    && 0.0 <= e.bucket.tokens && e.lastSeen <= e.bucket.last <= t
    && (p.burst > 0 ==> Refill(p, e.lastSeen, e.bucket.last) <= e.bucket.tokens + Deficit(p, gap))
  }

  predicate EntriesGapped(p: Policy, m: Buckets, gap: real, t: real) {
    forall k :: k in m ==> EntryGapped(p, m[k], gap, t)
  }

  lemma RefillMonotone(p: Policy, d: real, e: real)
    requires p.Valid() && 0.0 <= d <= e
    ensures 0.0 <= Refill(p, 0.0, d) <= Refill(p, 0.0, e)
  {
    RefillSplits(p, 0.0, d, e);
  }

  /** A call leaves its entry within the deficit, whatever the bucket held before. */
  lemma CallKeepsGapped(p: Policy, b: Bucket, seen: real, at: real, gap: real)
    requires p.Valid() && b.last <= seen <= at && at - seen <= gap && 0.0 <= b.tokens
    ensures EntryGapped(p, Entry(Take(p, b, at).0, seen), gap, at)
  {
    TakeCosts(p, b, at);
    RefillSplits(p, b.last, seen, at);
    RefillMonotone(p, at - seen, gap);
    assert Refill(p, seen, at) == Refill(p, 0.0, at - seen);
  }

  lemma OpKeepsGapped(p: Policy, m: Buckets, op: Op, gap: real, t: real)
    requires p.Valid() && EntriesGapped(p, m, gap, t) && Clocked(t, [op]) && (op.Call? ==> op.at - op.seen <= gap)
    ensures EntriesGapped(p, DoOp(p, m, op), gap, op.at)
  {
    if op.Call? {
      assert p.burst >= 0;
      CallKeepsGapped(p, if op.key in m then m[op.key].bucket else Full(p, op.seen), op.seen, op.at, gap);
    }
  }

  lemma {:induction false} RunKeepsGapped(p: Policy, m: Buckets, ops: seq<Op>, gap: real, t: real)
    requires p.Valid() && EntriesGapped(p, m, gap, t) && Clocked(t, ops) && Gapped(ops, gap)
    ensures EntriesGapped(p, RunOps(p, m, ops), gap, End(t, ops))
    decreases |ops|
  {
    if ops != [] {
      OpKeepsGapped(p, m, ops[0], gap, t);
      RunKeepsGapped(p, DoOp(p, m, ops[0]), ops[1..], gap, ops[0].at);
    }
  }

  /** An idle bucket is full again by the time of the pass. */
  lemma IdleIsFull(p: Policy, e: Entry, gap: real, now: real, at: real)
    requires p.Valid() && EntryGapped(p, e, gap, at) && RefillsInTime(p, gap) && now <= at
    ensures e.lastSeen < now - p.ttl ==> Evictable(p, e, now, at)
  {
    if e.lastSeen < now - p.ttl {
      RefillSplits(p, e.lastSeen, e.bucket.last, at);
      RefillMonotone(p, p.ttl, at - e.lastSeen);
      assert Refill(p, e.lastSeen, at) == Refill(p, 0.0, at - e.lastSeen);
    }
  }

  /** After every run whose calls stay within the gap, an eviction pass leaves no bucket
      unseen for longer than the time to live. */
  ghost predicate PassesLeaveRecent(p: Policy, gap: real) {
    forall from, ops, now, clock: string -> real :: PassAfter(p, gap, from, ops, now, clock)
      ==> Recent(Kept(p, RunOps(p, map[], ops), now, clock), now - p.ttl)
  }

  /** A run, and a pass that read the clock for its cutoff at `now` and for each key after that. */
  ghost predicate PassAfter(p: Policy, gap: real, from: real, ops: seq<Op>, now: real, clock: string -> real) {
    && Clocked(from, ops) && Gapped(ops, gap)
    && forall k :: k in RunOps(p, map[], ops) ==> now <= clock(k) && End(from, ops) <= clock(k)
  }

  lemma PassLeavesRecent(p: Policy, ops: seq<Op>, gap: real, from: real, now: real, clock: string -> real)
    requires p.Valid() && RefillsInTime(p, gap) && PassAfter(p, gap, from, ops, now, clock)
    ensures Recent(Kept(p, RunOps(p, map[], ops), now, clock), now - p.ttl)
  {
    var m := RunOps(p, map[], ops);
    RunKeepsGapped(p, map[], ops, gap, from);
    forall k | k in m ensures m[k].lastSeen < now - p.ttl ==> Evictable(p, m[k], now, clock(k)) {
      IdleIsFull(p, m[k], gap, now, clock(k));
    }
  }

  /** Some wait is too short for a given amount to refill. */
  lemma ShortRefill(p: Policy, t: real, amount: real) returns (u: real)
    requires p.Valid() && amount > 0.0
    ensures u > t && Refill(p, t, u) < amount
  {
    if p.rate == 0.0 {
      u := t + 1.0;
    } else {
      var extra := amount / (2.0 * p.rate);
      assert extra * (2.0 * p.rate) == amount;
      assert p.rate * extra == amount / 2.0;
      u := t + extra;
      assert u - t == extra;
    }
  }

  /** A run that leaves one entry, which some pass then finds idle and not yet full. */
  lemma KeptIdle(p: Policy, ops: seq<Op>, gap: real, e: Entry, m: real)
    requires p.Valid() && Clocked(0.0, ops) && Gapped(ops, gap) && RunOps(p, map[], ops) == map["k" := e]
    requires m >= End(0.0, ops) && m >= e.lastSeen + p.ttl
    requires e.bucket.last <= m && e.bucket.tokens + Refill(p, e.bucket.last, m) < p.burst as real
    ensures !PassesLeaveRecent(p, gap)
  {
    var now := ShortRefill(p, m, p.burst as real - e.bucket.tokens - Refill(p, e.bucket.last, m));
    RefillSplits(p, e.bucket.last, m, now);
    var clock := (k: string) => now;
    assert PassAfter(p, gap, 0.0, ops, now, clock);
    assert !Evictable(p, e, now, clock("k"));
    assert "k" in Kept(p, RunOps(p, map[], ops), now, clock);
  }

  /** The first call of a key, its readings the whole gap apart, with a burst that would have
      refilled in between. */
  lemma FullBurstLosesGap(p: Policy, gap: real)
    requires p.Valid() && gap >= 0.0 && p.burst > 0
    requires Refill(p, 0.0, p.ttl) < Refill(p, 0.0, gap) + 1.0
    ensures !PassesLeaveRecent(p, gap)
  {
    var ops := [Call("k", 0.0, gap)];
    var e := Entry(Bucket(p.burst as real - 1.0, gap), 0.0);
    RefillMonotone(p, gap, gap);
    assert ops[1..] == [];
    assert RunOps(p, map[], ops) == map["k" := e];
    var m := Larger(gap, p.ttl);
    if gap < p.ttl {
      RefillSplits(p, 0.0, gap, p.ttl);
    } else {
      RefillSplits(p, gap, gap, gap);
    }
    KeptIdle(p, ops, gap, e, m);
  }

  function Calls(n: nat): seq<Op> { seq(n, _ => Call("k", 0.0, 0.0)) }

  /** A burst at time zero drains the bucket. */
  lemma {:induction false} CallsDrain(p: Policy, m: Buckets, n: nat)
    requires p.Valid() && n <= p.burst && BucketOf(p, m, "k", 0.0) == Bucket(n as real, 0.0)
    requires m.Keys <= {"k"} && (m == map[] ==> n > 0) && ("k" in m ==> m["k"].lastSeen == 0.0)
    ensures RunOps(p, m, Calls(n)) == map["k" := Entry(Bucket(0.0, 0.0), 0.0)]
    decreases n
  {
    if n == 0 {
      assert m == map["k" := m["k"]];
    } else {
      RefillSplits(p, 0.0, 0.0, 0.0);
      assert Calls(n)[1..] == Calls(n - 1);
      var m' := DoOp(p, m, Calls(n)[0]);
      assert m' == map["k" := Entry(Bucket((n - 1) as real, 0.0), 0.0)];
      CallsDrain(p, m', n - 1);
    }
  }

  lemma {:induction false} CallsThen(n: nat, op: Op, gap: real)
    requires 0.0 <= op.at && gap >= 0.0 && op.Call? && 0.0 <= op.seen <= op.at && op.at - op.seen <= gap
    ensures Clocked(0.0, Calls(n) + [op]) && Gapped(Calls(n) + [op], gap) && End(0.0, Calls(n) + [op]) == op.at
  {
    if n > 0 {
      CallsThen(n - 1, op, gap);
      assert (Calls(n) + [op])[1..] == Calls(n - 1) + [op];
    } else {
      assert Calls(0) + [op] == [op];
    }
  }

  /** After a burst, the call that takes the first token to refill, its readings `d` apart. */
  lemma DrainedLosesGap(p: Policy, gap: real, d: real, u: real)
    requires p.Valid() && p.burst > 0 && 0.0 <= d <= gap && d <= u
    requires Refill(p, 0.0, u) == if p.rate == 0.0 then 0.0 else 1.0
    requires Refill(p, 0.0, p.ttl) < p.burst as real + Refill(p, 0.0, d)
    ensures !PassesLeaveRecent(p, gap)
  {
    var call := Call("k", u - d, u);
    var ops := Calls(p.burst) + [call];
    var e := Entry(Bucket(0.0, u), u - d);
    CallsThen(p.burst, call, gap);
    CallsDrain(p, map[], p.burst);
    RunOpsAppend(p, map[], Calls(p.burst), [call]);
    assert [call][1..] == [];
    assert RunOps(p, map[], ops) == map["k" := e];
    var m := Larger(u, u - d + p.ttl);
    if d < p.ttl {
      RefillSplits(p, 0.0, d, p.ttl);
      assert Refill(p, u, m) == Refill(p, d, p.ttl);
    } else {
      RefillSplits(p, u, u, u);
    }
    KeptIdle(p, ops, gap, e, m);
  }

  lemma Quotient(p: Policy) returns (u: real)
    requires p.rate > 0.0
    ensures u > 0.0 && Refill(p, 0.0, u) == 1.0
  {
    u := 1.0 / p.rate;
    assert u * p.rate == 1.0;
  }

  /** The exact condition, over all runs: a pass never leaves a bucket unseen for longer than
      the time to live if and only if the burst and the deficit refill within it. A limiter
      with no burst evicts whatever is idle. Without a gap the condition is that the burst
      refills within the time to live. */
  lemma PassesLeaveRecentIff(p: Policy, gap: real)
    requires p.Valid() && gap >= 0.0
    ensures PassesLeaveRecent(p, gap) <==> RefillsInTime(p, gap)
    ensures gap == 0.0 ==> (PassesLeaveRecent(p, gap) <==> p.burst as real <= Refill(p, 0.0, p.ttl))
  {
    if RefillsInTime(p, gap) {
      forall from, ops, now, clock: string -> real | PassAfter(p, gap, from, ops, now, clock)
        ensures Recent(Kept(p, RunOps(p, map[], ops), now, clock), now - p.ttl)
      {
        PassLeavesRecent(p, ops, gap, from, now, clock);
      }
    } else {
      var y := Refill(p, 0.0, gap);
      if Deficit(p, gap) == y - p.burst as real + 1.0 {
        FullBurstLosesGap(p, gap);
      } else if p.rate == 0.0 {
        DrainedLosesGap(p, gap, 0.0, 0.0);
      } else {
        var u := Quotient(p);
        if y < 1.0 {
          RefillMonotone(p, 0.0, gap);
          if u < gap { RefillMonotone(p, u, gap); }
          DrainedLosesGap(p, gap, gap, u);
        } else {
          if gap < u { RefillSplits(p, 0.0, gap, u); LongerRefillsMore(p, gap, u); }
          DrainedLosesGap(p, gap, u, u);
        }
      }
    }
  }

  lemma LongerRefillsMore(p: Policy, d: real, e: real)
    requires p.rate > 0.0 && 0.0 <= d < e
    ensures Refill(p, 0.0, d) < Refill(p, 0.0, e)
  {
    assert p.rate * (e - d) > 0.0;
  }

  /** With two clock readings, a burst that refills within the time to live is not enough:
      this limiter, as `New` builds it, keeps a bucket for longer after it was last seen. */
  lemma GapKeepsIdleBucket()
    ensures var p := Policy(0.1 / 60.0, 1, 600.0);
            var ops := [Call("k", 0.0, 0.5), Check("k", 600.25, 600.25)];
            && p.burst as real <= Refill(p, 0.0, p.ttl) && Clocked(0.0, ops)
            && "k" in RunOps(p, map[], ops)
            && RunOps(p, map[], ops)["k"].lastSeen < 600.25 - p.ttl
  {
    var p := Policy(0.1 / 60.0, 1, 600.0);
    var ops := [Call("k", 0.0, 0.5), Check("k", 600.25, 600.25)];
    var m := DoOp(p, map[], ops[0]);
    assert m == map["k" := Entry(Bucket(0.0, 0.5), 0.0)];
    assert ops[1..][0] == ops[1] && ops[1..][1..] == [];
    assert DoOp(p, m, ops[1]) == m;
    assert RunOps(p, m, ops[1..]) == m;
  }

  lemma {:induction false} OpsKeepRecent(p: Policy, m: Buckets, ops: seq<Op>, since: real, t: real)
    requires Recent(m, since) && Clocked(t, ops) && since <= t
    ensures Recent(RunOps(p, m, ops), since)
    decreases |ops|
  {
    if ops != [] {
      OpsKeepRecent(p, DoOp(p, m, ops[0]), ops[1..], since, ops[0].at);
    }
  }

  lemma CheckKeepsSeen(p: Policy, m: Buckets, op: Op, key: string, since: real)
    requires p.Valid() && op.Check? && op.now - p.ttl <= since && key in m && m[key].lastSeen >= since
    ensures key in DoOp(p, m, op) && DoOp(p, m, op)[key] == m[key]
  {
  }

  /** The checks of earlier passes read the clock no later than `now`. */
  predicate ChecksBefore(ops: seq<Op>, now: real) {
    forall i :: 0 <= i < |ops| && ops[i].Check? ==> ops[i].now <= now
  }

  lemma {:induction false} RecentIsKept(p: Policy, m: Buckets, ops: seq<Op>, key: string, now: real, from: real)
    requires p.Valid() && Clocked(from, ops) && ChecksBefore(ops, now)
    requires key in m && m[key].lastSeen >= now - p.ttl && m[key].lastSeen <= from
    ensures key in RunOps(p, m, ops) && RunOps(p, m, ops)[key].lastSeen >= now - p.ttl
    decreases |ops|
  {
    if ops != [] {
      var op := ops[0];
      if op.Check? {
        CheckKeepsSeen(p, m, op, key, now - p.ttl);
      }
      assert ChecksBefore(ops[1..], now) by {
        assert forall i :: 0 <= i < |ops[1..]| ==> ops[1..][i] == ops[i + 1];
      }
      RecentIsKept(p, DoOp(p, m, op), ops[1..], key, now, op.at);
    }
  }

  lemma {:induction false} CalledIsKept(p: Policy, m: Buckets, ops: seq<Op>, key: string, now: real, from: real)
    requires p.Valid() && Clocked(from, ops) && ChecksBefore(ops, now) && CalledSince(ops, key, now - p.ttl)
    ensures key in RunOps(p, m, ops) && RunOps(p, m, ops)[key].lastSeen >= now - p.ttl
    decreases |ops|
  {
    var i :| 0 <= i < |ops| && ops[i].Call? && ops[i].key == key && ops[i].seen >= now - p.ttl;
    assert forall j :: 0 <= j < |ops[1..]| ==> ops[1..][j] == ops[j + 1];
    if i == 0 {
      RecentIsKept(p, DoOp(p, m, ops[0]), ops[1..], key, now, ops[0].at);
    } else {
      assert ops[1..][i - 1] == ops[i];
      CalledIsKept(p, DoOp(p, m, ops[0]), ops[1..], key, now, ops[0].at);
    }
  }

  /** A key seen within the time to live keeps its bucket through every pass, whatever its
      tokens. */
  lemma SeenKeysSurvive(p: Policy, ops: seq<Op>, key: string, from: real, now: real, clock: string -> real)
    requires p.Valid() && Clocked(from, ops) && ChecksBefore(ops, now) && CalledSince(ops, key, now - p.ttl)
    ensures key in Kept(p, RunOps(p, map[], ops), now, clock)
  {
    CalledIsKept(p, map[], ops, key, now, from);
  }

  ghost predicate CalledAt(ops: seq<Op>, key: string, seen: real) {
    exists i :: 0 <= i < |ops| && ops[i].Call? && ops[i].key == key && ops[i].seen == seen
  }

  ghost predicate CalledSince(ops: seq<Op>, key: string, since: real) {
    exists i :: 0 <= i < |ops| && ops[i].Call? && ops[i].key == key && ops[i].seen >= since
  }

  lemma {:induction false} EntriesWereCalled(p: Policy, m: Buckets, ops: seq<Op>, key: string)
    requires key in RunOps(p, m, ops)
    ensures CalledAt(ops, key, RunOps(p, m, ops)[key].lastSeen)
         || (key in m && m[key].lastSeen == RunOps(p, m, ops)[key].lastSeen)
    decreases |ops|
  {
    if ops != [] {
      EntriesWereCalled(p, DoOp(p, m, ops[0]), ops[1..], key);
      var seen := RunOps(p, m, ops)[key].lastSeen;
      if CalledAt(ops[1..], key, seen) {
        var i :| 0 <= i < |ops[1..]| && ops[1..][i].Call? && ops[1..][i].key == key && ops[1..][i].seen == seen;
        assert ops[i + 1].Call? && ops[i + 1].key == key && ops[i + 1].seen == seen;
      } else if ops[0].Call? && ops[0].key == key {
        assert CalledAt(ops, key, seen);
      }
    }
  }

  lemma {:induction false} RunOpsAppend(p: Policy, m: Buckets, a: seq<Op>, b: seq<Op>)
    ensures RunOps(p, m, a + b) == RunOps(p, RunOps(p, m, a), b)
    decreases |a|
  {
    if a == [] {
      assert a + b == b;
    } else {
      assert (a + b)[0] == a[0] && (a + b)[1..] == a[1..] + b;
      RunOpsAppend(p, DoOp(p, m, a[0]), a[1..], b);
    }
  }

  /** Up to one time to live after a pass, the map holds only keys seen in the last two. */
  lemma MapHoldsRecentKeys(p: Policy, before: seq<Op>, order: seq<string>, now: real, clock: string -> real,
                           after: seq<Op>, gap: real, from: real, time: real, key: string)
    requires p.Valid() && RefillsInTime(p, gap)
    requires PassAfter(p, gap, from, before, now, clock)
    requires forall k :: k in RunOps(p, map[], before) ==> k in order
    requires Clocked(now, after) && time <= now + p.ttl
    requires key in RunOps(p, map[], before + PassOps(order, now, clock) + after)
    ensures CalledSince(before + PassOps(order, now, clock) + after, key, time - 2.0 * p.ttl)
  {
    var m := RunOps(p, map[], before);
    PassLeavesRecent(p, before, gap, from, now, clock);
    PassIsChecks(p, m, order, now, clock);
    OpsKeepRecent(p, Kept(p, m, now, clock), after, now - p.ttl, now);
    RunOpsAppend(p, map[], before, PassOps(order, now, clock));
    RunOpsAppend(p, map[], before + PassOps(order, now, clock), after);
    EntriesWereCalled(p, map[], before + PassOps(order, now, clock) + after, key);
  }

  /** The server's limiters keep no idle bucket exactly as long as no `Allow` takes more than
      594 seconds between its readings for the one, and 599 for the other. */
  lemma ServerLimitersRefill(gap: real)
    requires gap >= 0.0
    ensures var inference := Policy(10.0 / 60.0, 3, 600.0); PassesLeaveRecent(inference, gap) <==> gap <= 594.0
    ensures var writes := Policy(60.0 / 60.0, 15, 600.0); PassesLeaveRecent(writes, gap) <==> gap <= 599.0
  {
    PassesLeaveRecentIff(Policy(10.0 / 60.0, 3, 600.0), gap);
    PassesLeaveRecentIff(Policy(60.0 / 60.0, 15, 600.0), gap);
  }
}
