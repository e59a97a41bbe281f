/** Whole-trace theorems about the rate limiter: eviction cannot be observed, and grants are bounded in every window. */
module TokenBucket {
  import opened Arithmetic
  import opened Crypto
  import opened RateLimiters
  import opened Sequences

  datatype Op = Allow(id: Id, at: real) | Cleanup(at: real)

  function After(senders: Senders, op: Op, rate: real): (r: Senders) {
    match op
    case Allow(id, at) => Spent(senders, id, at, rate)
    case Cleanup(at) => Active(senders, at)
  }

  function AfterAll(senders: Senders, ops: seq<Op>, rate: real): (r: Senders)
    decreases |ops|
  {
    if ops == [] then senders else AfterAll(After(senders, ops[0], rate), ops[1..], rate)
  }

  /** The answers of the Allow calls, in order. */
  function Answers(senders: Senders, ops: seq<Op>, rate: real): (answers: seq<bool>)
    decreases |ops|
  {
    if ops == [] then []
    else
      (if ops[0].Allow? then [Grants(senders, ops[0].id, ops[0].at, rate)] else [])
      + Answers(After(senders, ops[0], rate), ops[1..], rate)
  }

  function WithoutCleanups(ops: seq<Op>): (r: seq<Op>) {
    if ops == [] then []
    else (if ops[0].Allow? then [ops[0]] else []) + WithoutCleanups(ops[1..])
  }

  /** The clock is read inside the lock, so successive calls never see it go back. */
  ghost predicate Monotone(ops: seq<Op>, from: real)
    decreases |ops|
  {
    ops == [] || (from <= ops[0].at && Monotone(ops[1..], ops[0].at))
  }

  /** What holds of every bucket at time `now`. */
  ghost predicate WellFormed(senders: Senders, now: real, rate: real) {
    forall id :: id in senders ==> 0.0 <= senders[id].tokens <= Burst(rate) && senders[id].lastCheck <= now
  }

  lemma WellFormedStep(senders: Senders, now: real, op: Op, rate: real)
    requires WellFormed(senders, now, rate) && now <= op.at && Burst(rate) >= 1.0
    ensures WellFormed(After(senders, op, rate), op.at, rate)
  {
    if op.Allow? && op.id in senders {
      CreditGrows(0.0, op.at - senders[op.id].lastCheck, rate);
    }
  }

  // ---------- eviction ----------

  /**
   `evicting` may lack buckets that `keeping` has, but only buckets that have refilled completely and
   that stay so from `now` on.
   */
  ghost predicate Indistinguishable(evicting: Senders, keeping: Senders, now: real, rate: real) {
    && (forall id :: id in evicting ==> id in keeping && evicting[id] == keeping[id])
    && (forall id :: id in keeping && id !in evicting ==> Idle(keeping[id], now))
  }

  lemma IdleMeansFull(b: Bucket, now: real, rate: real)
    requires Burst(rate) >= 1.0 && b.tokens >= 0.0 && Idle(b, now)
    ensures Refilled(b, now, rate) == Burst(rate)
  {
    CreditGrows(IDLE_SECONDS, now - b.lastCheck, rate);
  }

  /** An evicted sender and one kept idle get the same answer and are left with the same bucket. */
  lemma AllowAgrees(evicting: Senders, keeping: Senders, now: real, id: Id, at: real, rate: real)
    requires Burst(rate) >= 1.0 && WellFormed(keeping, now, rate) && now <= at
    requires Indistinguishable(evicting, keeping, now, rate)
    ensures Grants(evicting, id, at, rate) <==> Grants(keeping, id, at, rate)
    ensures Indistinguishable(Spent(evicting, id, at, rate), Spent(keeping, id, at, rate), at, rate)
  {
    if id in keeping && id !in evicting {
      IdleMeansFull(keeping[id], at, rate);
    }
  }

  lemma {:induction false} EvictionKeepsAnswers(evicting: Senders, keeping: Senders, ops: seq<Op>,
                                                now: real, rate: real)
    requires Burst(rate) >= 1.0 && WellFormed(keeping, now, rate) && Monotone(ops, now)
    requires Indistinguishable(evicting, keeping, now, rate)
    ensures Answers(evicting, ops, rate) == Answers(keeping, WithoutCleanups(ops), rate)
    decreases |ops|
  {
    if ops != [] {
      var op := ops[0];
      match op
      case Allow(id, at) =>
        AllowAgrees(evicting, keeping, now, id, at, rate);
        WellFormedStep(keeping, now, op, rate);
        EvictionKeepsAnswers(Spent(evicting, id, at, rate), Spent(keeping, id, at, rate), ops[1..], at, rate);
        assert WithoutCleanups(ops)[1..] == WithoutCleanups(ops[1..]);
      case Cleanup(at) =>
        EvictionKeepsAnswers(Active(evicting, at), keeping, ops[1..], at, rate);
        assert WithoutCleanups(ops) == WithoutCleanups(ops[1..]);
    }
  }

  /** With a burst below one token an evicted sender is granted where a kept one is refused. */
  lemma EvictionVisibleBelowOneToken(id: Id, rate: real)
    requires Burst(rate) < 1.0
    ensures var ops := [Allow(id, 0.0), Cleanup(301.0), Allow(id, 301.0)];
            Monotone(ops, 0.0) && Answers(map[], ops, rate) != Answers(map[], WithoutCleanups(ops), rate)
  {
    var a, k, b := Allow(id, 0.0), Cleanup(301.0), Allow(id, 301.0);
    var ops := [a, k, b];
    var s := Spent(map[], id, 0.0, rate);
    assert ops[1..] == [k, b] && [k, b][1..] == [b] && [b][1..] == [] && [a, b][1..] == [b];
    assert Idle(s[id], 301.0);
    assert Active(s, 301.0) == map[];
    assert Answers(map[], [b], rate) == [true] + Answers(After(map[], b, rate), [], rate);
    assert Answers(s, [k, b], rate) == Answers(map[], [b], rate);
    assert Answers(map[], ops, rate) == [true] + Answers(s, [k, b], rate);
    assert WithoutCleanups([b]) == [b] + WithoutCleanups([]);
    assert WithoutCleanups([k, b]) == WithoutCleanups([b]);
    assert WithoutCleanups(ops) == [a] + WithoutCleanups([k, b]);
    assert Answers(s, [b], rate) == [false] + Answers(After(s, b, rate), [], rate);
    assert Answers(map[], [a, b], rate) == [true] + Answers(s, [b], rate);
    assert Monotone([k, b], 0.0);
    assert Answers(map[], ops, rate)[1] && !Answers(map[], [a, b], rate)[1];
    assert WithoutCleanups(ops) == [a, b];
  }

  /**
   Eviction is invisible on every trace if and only if the burst is at least one token: only then does any
   run of calls interleaved with cleanups give the answers of the same run with no cleanup.
   */
  lemma EvictionInvisible(rate: real)
    ensures Burst(rate) >= 1.0 <==>
            forall ops :: Monotone(ops, 0.0) ==> Answers(map[], ops, rate) == Answers(map[], WithoutCleanups(ops), rate)
  {
    if Burst(rate) >= 1.0 {
      forall ops | Monotone(ops, 0.0) ensures Answers(map[], ops, rate) == Answers(map[], WithoutCleanups(ops), rate) {
        EvictionKeepsAnswers(map[], map[], ops, 0.0, rate);
      }
    } else {
      EvictionVisibleBelowOneToken([], rate);
    }
  }

  // ---------- grants in a window ----------

  /** The tokens a sender could spend at `now`; a sender without a bucket has the full burst. */
  function Level(senders: Senders, id: Id, now: real, rate: real): (tokens: real) {
    if id in senders then Refilled(senders[id], now, rate) else Burst(rate)
  }

  function GrantedBy(senders: Senders, op: Op, id: Id, rate: real): (n: nat) {
    if op.Allow? && op.id == id && Grants(senders, id, op.at, rate) then 1 else 0
  }

  function GrantCount(senders: Senders, ops: seq<Op>, id: Id, rate: real): (n: nat)
    decreases |ops|
  {
    if ops == [] then 0
    else GrantedBy(senders, ops[0], id, rate) + GrantCount(After(senders, ops[0], rate), ops[1..], id, rate)
  }

  function LastTime(ops: seq<Op>, from: real): (t: real) {
    if ops == [] then from else ops[|ops| - 1].at
  }

  /** A sender is granted exactly if it has a token to spend. */
  lemma GrantsFromOneToken(senders: Senders, id: Id, now: real, rate: real)
    requires Burst(rate) >= 1.0
    ensures Grants(senders, id, now, rate) <==> Level(senders, id, now, rate) >= 1.0
  {
  }

  /** Levels are between nothing and the burst, and rise at the rate until they are full. */
  lemma LevelRises(senders: Senders, id: Id, now: real, later: real, rate: real)
    requires Burst(rate) >= 1.0 && WellFormed(senders, now, rate) && now <= later
    ensures 0.0 <= Level(senders, id, now, rate) <= Burst(rate)
    ensures Level(senders, id, later, rate) <= Level(senders, id, now, rate) + Credit(later - now, rate)
    ensures Level(senders, id, later, rate)
            >= MinReal(Burst(rate), Level(senders, id, now, rate) + Credit(later - now, rate))
  {
    CreditGrows(0.0, later - now, rate);
    if id in senders {
      CreditGrows(0.0, now - senders[id].lastCheck, rate);
      CreditGrows(now - senders[id].lastCheck, later - senders[id].lastCheck, rate);
    }
  }

  /** A call takes from the level exactly what it grants; a cleanup takes nothing. */
  lemma LevelPays(senders: Senders, now: real, op: Op, id: Id, rate: real)
    requires Burst(rate) >= 1.0 && WellFormed(senders, now, rate) && now <= op.at
    ensures Level(After(senders, op, rate), id, op.at, rate)
            == Level(senders, id, op.at, rate) - GrantedBy(senders, op, id, rate) as real
  {
    CreditGrows(0.0, 0.0, rate);
    if op.Cleanup? && id in senders && Idle(senders[id], op.at) {
      IdleMeansFull(senders[id], op.at, rate);
    }
  }

  lemma {:induction false} GrantsPaidByLevel(senders: Senders, ops: seq<Op>, now: real, id: Id, rate: real)
    requires Burst(rate) >= 1.0 && WellFormed(senders, now, rate) && Monotone(ops, now)
    ensures now <= LastTime(ops, now)
    ensures GrantCount(senders, ops, id, rate) as real
            <= Level(senders, id, now, rate) + Credit(LastTime(ops, now) - now, rate)
    decreases |ops|
  {
    LevelRises(senders, id, now, now, rate);
    if ops != [] {
      var op := ops[0];
      var next := After(senders, op, rate);
      WellFormedStep(senders, now, op, rate);
      LevelRises(senders, id, now, op.at, rate);
      LevelPays(senders, now, op, id, rate);
      GrantsPaidByLevel(next, ops[1..], op.at, id, rate);
      assert LastTime(ops, now) == LastTime(ops[1..], op.at);
      CreditGrows(op.at - now, LastTime(ops, now) - now, rate);
    }
  }

  lemma {:induction false} ReachWellFormed(senders: Senders, ops: seq<Op>, now: real, rate: real, i: nat)
    requires Burst(rate) >= 1.0 && WellFormed(senders, now, rate) && Monotone(ops, now) && i <= |ops|
    ensures WellFormed(AfterAll(senders, ops[..i], rate), LastTime(ops[..i], now), rate)
    ensures Monotone(ops[i..], LastTime(ops[..i], now))
    decreases i
  {
    if i > 0 {
      WellFormedStep(senders, now, ops[0], rate);
      assert ops[..i][1..] == ops[1..][..i - 1];
      assert ops[i..] == ops[1..][i - 1..];
      ReachWellFormed(After(senders, ops[0], rate), ops[1..], ops[0].at, rate, i - 1);
    } else {
      assert ops[..i] == [] && ops[i..] == ops;
    }
  }

  lemma {:induction false} MonotonePrefix(ops: seq<Op>, now: real, n: nat)
    requires Monotone(ops, now) && n <= |ops|
    ensures Monotone(ops[..n], now)
  {
    if n > 0 {
      MonotonePrefix(ops[1..], ops[0].at, n - 1);
      assert ops[..n][1..] == ops[1..][..n - 1];
    }
  }

  /**
   In every trace of calls and cleanups, the grants to one sender among calls `i..j` number at most the burst
   plus the rate times the time between the first and the last of them.
   */
  lemma WindowBound(ops: seq<Op>, start: real, i: nat, j: nat, id: Id, rate: real)
    requires Burst(rate) >= 1.0 && Monotone(ops, start) && i < j <= |ops|
    ensures GrantCount(AfterAll(map[], ops[..i], rate), ops[i..j], id, rate) as real
            <= Burst(rate) + Credit(ops[j - 1].at - ops[i].at, rate)
  {
    ReachWellFormed(map[], ops, start, rate, i);
    var before := LastTime(ops[..i], start);
    var senders := AfterAll(map[], ops[..i], rate);
    var window := ops[i..j];
    MonotonePrefix(ops[i..], before, j - i);
    assert ops[i..][..j - i] == window;
    assert WellFormed(senders, ops[i].at, rate);
    assert Monotone(window, ops[i].at);
    GrantsPaidByLevel(senders, window, ops[i].at, id, rate);
    LevelRises(senders, id, ops[i].at, ops[i].at, rate);
  }

  /** With a burst below one token the bound fails at once: the first call is granted regardless. */
  lemma WindowBoundNeedsOneToken(id: Id, at: real, rate: real)
    ensures GrantCount(map[], [Allow(id, at)], id, rate) as real <= Burst(rate) + Credit(at - at, rate)
            <==> Burst(rate) >= 1.0
  {
    var ops := [Allow(id, at)];
    assert GrantCount(map[], ops, id, rate) == 1 + GrantCount(After(map[], ops[0], rate), ops[1..], id, rate);
    assert ops[1..] == [];
  }

  // ---------- traces that grow ----------

  lemma {:induction false} AfterAllAppend(senders: Senders, ops: seq<Op>, op: Op, rate: real)
    ensures AfterAll(senders, ops + [op], rate) == After(AfterAll(senders, ops, rate), op, rate)
    decreases |ops|
  {
    if ops == [] {
      assert ops + [op] == [op] && [op][1..] == [];
    } else {
      AfterAllAppend(After(senders, ops[0], rate), ops[1..], op, rate);
      assert (ops + [op])[1..] == ops[1..] + [op];
    }
  }

  lemma {:induction false} MonotoneAppend(ops: seq<Op>, from: real, op: Op)
    requires Monotone(ops, from) && LastTime(ops, from) <= op.at
    ensures Monotone(ops + [op], from)
    decreases |ops|
  {
    if ops == [] {
      assert ops + [op] == [op] && [op][1..] == [];
    } else {
      assert (ops + [op])[1..] == ops[1..] + [op];
      assert LastTime(ops[1..], ops[0].at) == LastTime(ops, from);
      MonotoneAppend(ops[1..], ops[0].at, op);
    }
  }

  lemma {:induction false} GrantCountAppend(senders: Senders, ops: seq<Op>, op: Op, id: Id, rate: real)
    ensures GrantCount(senders, ops + [op], id, rate)
            == GrantCount(senders, ops, id, rate) + GrantedBy(AfterAll(senders, ops, rate), op, id, rate)
    decreases |ops|
  {
    if ops == [] {
      assert ops + [op] == [op] && [op][1..] == [];
    } else {
      GrantCountAppend(After(senders, ops[0], rate), ops[1..], op, id, rate);
      assert (ops + [op])[1..] == ops[1..] + [op];
    }
  }

  // ---------- how many calls are always granted ----------

  /** So many calls every limiter lets through at once; the first call of a sender is granted in any case. */
  predicate WithinBurst(n: nat, rate: real) {
    n <= 1 || n as real <= Burst(rate)
  }

  function IsCallOf(id: Id): (f: Op -> bool) {
    (op: Op) => op.Allow? && op.id == id
  }

  /** The calls for one sender, granted or not. */
  function CallCount(ops: seq<Op>, id: Id): (n: nat) {
    Count(ops, IsCallOf(id))
  }

  ghost predicate AllGranted(ops: seq<Op>, id: Id, rate: real) {
    GrantCount(map[], ops, id, rate) == CallCount(ops, id)
  }

  lemma CallCountAppend(ops: seq<Op>, op: Op, id: Id)
    ensures CallCount(ops + [op], id) == CallCount(ops, id) + if op.Allow? && op.id == id then 1 else 0
  {
    assert (ops + [op])[..|ops|] == ops;
  }

  /** A bucket is there only after a grant, and the tokens left are at least the burst less one for each. */
  ghost predicate BurstLeft(senders: Senders, granted: nat, id: Id, now: real, rate: real) {
    && (id in senders ==> granted >= 1)
    && (Burst(rate) >= 1.0 ==>
          WellFormed(senders, now, rate) && granted as real + Level(senders, id, now, rate) >= Burst(rate))
  }

  lemma BurstLeftStep(senders: Senders, granted: nat, op: Op, id: Id, now: real, rate: real)
    requires BurstLeft(senders, granted, id, now, rate) && now <= op.at
    ensures BurstLeft(After(senders, op, rate), granted + GrantedBy(senders, op, id, rate), id, op.at, rate)
  {
    if Burst(rate) >= 1.0 {
      WellFormedStep(senders, now, op, rate);
      LevelRises(senders, id, now, op.at, rate);
      CreditGrows(0.0, op.at - now, rate);
      LevelPays(senders, now, op, id, rate);
    }
  }

  lemma CallIsGranted(senders: Senders, granted: nat, id: Id, at: real, rate: real, n: nat)
    requires BurstLeft(senders, granted, id, at, rate) && WithinBurst(n, rate) && granted < n
    ensures Grants(senders, id, at, rate)
  {
    if id in senders {
      GrantsFromOneToken(senders, id, at, rate);
    }
  }

  /** One more of few calls is granted, and paid for. */
  lemma OneMoreCall(senders: Senders, granted: nat, op: Op, id: Id, now: real, rate: real, n: nat)
    requires BurstLeft(senders, granted, id, now, rate) && now <= op.at && WithinBurst(n, rate)
    requires op.Allow? && op.id == id ==> granted < n
    ensures GrantedBy(senders, op, id, rate) == if op.Allow? && op.id == id then 1 else 0
    ensures BurstLeft(After(senders, op, rate), granted + GrantedBy(senders, op, id, rate), id, op.at, rate)
  {
    hide WellFormed, WithinBurst, Grants, Level, After, BurstLeft;
    BurstLeftStep(senders, granted, op, id, now, rate);
    if op.Allow? && op.id == id {
      LaterBurstLeft(senders, granted, id, now, op.at, rate);
      CallIsGranted(senders, granted, id, op.at, rate, n);
    }
  }

  lemma {:induction false} FewCallsAreGranted(ops: seq<Op>, from: real, id: Id, rate: real, n: nat)
    requires Monotone(ops, from) && CallCount(ops, id) <= n && WithinBurst(n, rate)
    ensures AllGranted(ops, id, rate)
    ensures BurstLeft(AfterAll(map[], ops, rate), GrantCount(map[], ops, id, rate), id, LastTime(ops, from), rate)
    decreases |ops|
  {
    hide WithinBurst, BurstLeft, GrantedBy, After, Monotone;
    if ops == [] {
      NothingSpent(id, from, rate);
    } else {
      hide AfterAll, GrantCount, CallCount;
      var init, op := ops[..|ops| - 1], ops[|ops| - 1];
      assert ops == init + [op];
      MonotoneInit(ops, from);
      CallCountAppend(init, op, id);
      FewCallsAreGranted(init, from, id, rate, n);
      AfterAllAppend(map[], init, op, rate);
      GrantCountAppend(map[], init, op, id, rate);
      var senders, granted := AfterAll(map[], init, rate), GrantCount(map[], init, id, rate);
      OneMoreCall(senders, granted, op, id, LastTime(init, from), rate, n);
    }
  }

  lemma NothingSpent(id: Id, at: real, rate: real)
    ensures BurstLeft(map[], 0, id, at, rate)
  {
  }

  lemma LaterBurstLeft(senders: Senders, granted: nat, id: Id, now: real, later: real, rate: real)
    requires BurstLeft(senders, granted, id, now, rate) && now <= later
    ensures BurstLeft(senders, granted, id, later, rate)
  {
    if Burst(rate) >= 1.0 {
      LevelRises(senders, id, now, later, rate);
      CreditGrows(0.0, later - now, rate);
    }
  }

  lemma {:induction false} MonotoneInit(ops: seq<Op>, from: real)
    requires Monotone(ops, from) && ops != []
    ensures Monotone(ops[..|ops| - 1], from) && LastTime(ops[..|ops| - 1], from) <= ops[|ops| - 1].at
    decreases |ops|
  {
    if |ops| > 1 {
      var rest := ops[1..];
      MonotoneInit(rest, ops[0].at);
      assert ops[..|ops| - 1][1..] == rest[..|rest| - 1];
      assert LastTime(ops[..|ops| - 1], from) == LastTime(rest[..|rest| - 1], ops[0].at);
    }
  }

  /** Calls of one sender, all at one time. */
  function Calls(id: Id, at: real, n: nat): (ops: seq<Op>) {
    seq(n, i => Allow(id, at))
  }

  /** The tokens left after `n` calls at once: the burst less one for each, or less than one. */
  lemma {:induction false} CallsDrain(id: Id, at: real, rate: real, n: nat)
    requires n >= 1
    ensures var senders := AfterAll(map[], Calls(id, at, n), rate);
            && id in senders && senders[id].lastCheck == at && senders[id].tokens <= Burst(rate)
            && (senders[id].tokens < 1.0 || senders[id].tokens == Burst(rate) - n as real)
  {
    var ops, op := Calls(id, at, n - 1), Allow(id, at);
    assert Calls(id, at, n) == ops + [op];
    AfterAllAppend(map[], ops, op, rate);
    if n > 1 {
      CallsDrain(id, at, rate, n - 1);
    } else {
      assert ops == [];
    }
  }

  /** Once so many calls have come at once that less than a token can be left, the next one is refused. */
  lemma DrainedRefuses(id: Id, at: real, rate: real, n: nat)
    requires n >= 1 && Burst(rate) - n as real < 1.0
    ensures !Grants(AfterAll(map[], Calls(id, at, n), rate), id, at, rate)
  {
    CallsDrain(id, at, rate, n);
  }

  lemma {:induction false} CallsAreMonotone(id: Id, at: real, n: nat)
    ensures Monotone(Calls(id, at, n), at) && CallCount(Calls(id, at, n), id) == n
  {
    if n > 0 {
      hide Monotone, CallCount;
      var ops := Calls(id, at, n - 1);
      assert Calls(id, at, n) == ops + [Allow(id, at)];
      CallsAreMonotone(id, at, n - 1);
      assert LastTime(ops, at) == at;
      MonotoneAppend(ops, at, Allow(id, at));
      CallCountAppend(ops, Allow(id, at), id);
    }
  }

  lemma {:induction false} GrantsAreCalls(senders: Senders, ops: seq<Op>, id: Id, rate: real)
    ensures GrantCount(senders, ops, id, rate) <= CallCount(ops, id)
    decreases |ops|
  {
    if ops != [] {
      var init, op := ops[..|ops| - 1], ops[|ops| - 1];
      assert ops == init + [op];
      GrantCountAppend(senders, init, op, id, rate);
      CallCountAppend(init, op, id);
      GrantsAreCalls(senders, init, id, rate);
    }
  }

  /** One call more than the burst covers is refused. */
  lemma OneTooMany(id: Id, at: real, rate: real, n: nat)
    requires n >= 1 && Burst(rate) - n as real < 1.0
    ensures !AllGranted(Calls(id, at, n + 1), id, rate)
  {
    var ops, op := Calls(id, at, n), Allow(id, at);
    assert Calls(id, at, n + 1) == ops + [op];
    DrainedRefuses(id, at, rate, n);
    GrantCountAppend(map[], ops, op, id, rate);
    CallCountAppend(ops, op, id);
    GrantsAreCalls(map[], ops, id, rate);
  }

  /** `n` calls of a sender are granted in every trace if and only if they are at most one, or two seconds' worth. */
  lemma BurstIsExact(id: Id, rate: real, n: nat)
    ensures (forall ops, from :: Monotone(ops, from) && CallCount(ops, id) <= n ==> AllGranted(ops, id, rate))
            <==> n <= 1 || n as real <= 2.0 * rate
  {
    if WithinBurst(n, rate) {
      forall ops, from | Monotone(ops, from) && CallCount(ops, id) <= n ensures AllGranted(ops, id, rate) {
        FewCallsAreGranted(ops, from, id, rate, n);
      }
    } else {
      var ops := Calls(id, 0.0, n);
      CallsAreMonotone(id, 0.0, n);
      OneTooMany(id, 0.0, rate, n - 1);
      assert Monotone(ops, 0.0) && !AllGranted(ops, id, rate);
    }
  }
}
