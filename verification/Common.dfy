/** Shared vocabulary: optional values and results. */
module Wrappers {
  datatype Option<+T> = None | Some(value: T) {
    function GetOr(default: T): T {
      if Some? then value else default
    }
  }

  datatype Result<+T, +E> = Ok(value: T) | Err(error: E)
}

/** The 128-bit signed integers of the contracts, which are built with overflow checks on. */
module Int128 {
  import opened Wrappers

  const MAX: int := 0x7FFF_FFFF_FFFF_FFFF_FFFF_FFFF_FFFF_FFFF
  const MIN: int := -MAX - 1
  const U64_MAX: int := 0xFFFF_FFFF_FFFF_FFFF

  type I128 = x: int | MIN <= x <= MAX

  predicate InRange(x: int) {
    MIN <= x <= MAX
  }

  /** `checked_*` operations: the mathematical result when it is representable. */
  function Checked(x: int): Option<int> {
    if InRange(x) then Some(x) else None
  }

  /** Rust's integer division, which truncates toward zero. */
  function Quot(a: int, b: int): int
    requires b != 0
  {
    if (a >= 0) == (b > 0) then Abs(a) / Abs(b) else -(Abs(a) / Abs(b))
  }

  lemma QuotFloor(a: int, b: int)
    requires a >= 0 && b > 0
    ensures Quot(a, b) == a / b
  {
  }

  function Abs(a: int): nat {
    if a < 0 then -a else a
  }
}

/** Addresses and errors shared by the contracts. `Trap` stands for a host trap: a missing signature,
    an overflow, or a token transfer that does not go through. */
module Contracts {
  datatype Address = Address(id: nat)

  datatype ContractError =
    | Unauthorized | NotFactory | NotAdmin | NotOracle
    | MarketNotFound | MarketNotOpen | MarketNotResolved | MarketCancelled | InvalidTimeRange
    | InvalidMarketParameters | InvalidMarketStatus | BettingClosed | BetTooLarge
    | InsufficientAmount | AlreadyBet | AlreadyClaimed | InvalidOutcome | NoBetsFound | BelowMinimum
    | InvalidOracleSignature | ResolutionWindowExpired
    | DailyWithdrawalLimitExceeded | InsufficientBalance | MarketNotApproved
    | FactoryPaused | WasmHashNotSet | OracleNotWhitelisted | ReentrancyGuard | Trap
}

/** Sizes of finite sets. */
module Sets {
  lemma SubsetSize<T>(a: set<T>, b: set<T>)
    requires a <= b
    ensures |a| <= |b| && (|a| == |b| ==> a == b)
  {
    assert b == a + (b - a);
  }
}

/** Sums of integer weights over sequences of keys; an absent key weighs nothing. */
module Totals {
  function Weight<K>(m: map<K, int>, k: K): int {
    if k in m then m[k] else 0
  }

  function Total<K>(keys: seq<K>, m: map<K, int>): int {
    if keys == [] then 0 else Weight(m, keys[0]) + Total(keys[1..], m)
  }

  ghost predicate Distinct<K>(keys: seq<K>) {
    forall i, j :: 0 <= i < j < |keys| ==> keys[i] != keys[j]
  }

  lemma {:induction false} TotalConcat<K>(a: seq<K>, b: seq<K>, m: map<K, int>)
    ensures Total(a + b, m) == Total(a, m) + Total(b, m)
  {
    if a == [] {
      assert a + b == b;
    } else {
      assert (a + b)[1..] == a[1..] + b;
      TotalConcat(a[1..], b, m);
    }
  }

  lemma {:induction false} TotalCongruent<K>(keys: seq<K>, m: map<K, int>, n: map<K, int>)
    requires forall k :: k in keys ==> Weight(m, k) == Weight(n, k)
    ensures Total(keys, m) == Total(keys, n)
  {
    if keys != [] {
      TotalCongruent(keys[1..], m, n);
    }
  }

  /** Changing the weight of one key that occurs once moves the total by the difference. */
  lemma {:induction false} TotalUpdate<K>(keys: seq<K>, m: map<K, int>, n: map<K, int>, key: K)
    requires Distinct(keys) && key in keys
    requires forall k :: k in keys && k != key ==> Weight(m, k) == Weight(n, k)
    ensures Total(keys, n) == Total(keys, m) - Weight(m, key) + Weight(n, key)
  {
    if keys[0] == key {
      assert forall k :: k in keys[1..] ==> k != key;
      TotalCongruent(keys[1..], m, n);
    } else {
      TotalUpdate(keys[1..], m, n, key);
    }
  }

  lemma {:induction false} TotalRemove<K>(keys: seq<K>, i: nat, m: map<K, int>)
    requires i < |keys|
    ensures Total(keys, m) == Weight(m, keys[i]) + Total(keys[..i] + keys[i + 1..], m)
  {
    assert keys == keys[..i] + ([keys[i]] + keys[i + 1..]);
    TotalConcat(keys[..i], [keys[i]] + keys[i + 1..], m);
    TotalConcat(keys[..i], keys[i + 1..], m);
  }

  lemma NonEmptyHasMember<K>(keys: seq<K>)
    ensures keys != [] ==> exists k :: k in keys
  {
    if keys != [] {
      assert keys[0] in keys;
    }
  }

  lemma {:induction false} TotalNonNegative<K>(keys: seq<K>, m: map<K, int>)
    requires forall k :: k in keys ==> Weight(m, k) >= 0
    ensures Total(keys, m) >= 0
    ensures forall k :: k in keys ==> Weight(m, k) <= Total(keys, m)
  {
    if keys != [] {
      TotalNonNegative(keys[1..], m);
    }
  }

  /** A part of distinct keys weighs at most the whole. */
  lemma {:induction false} TotalPart<K>(part: seq<K>, whole: seq<K>, m: map<K, int>)
    requires Distinct(part) && Distinct(whole)
    requires forall k :: k in part ==> k in whole
    requires forall k :: k in whole ==> Weight(m, k) >= 0
    ensures Total(part, m) <= Total(whole, m)
  {
    if part == [] {
      TotalNonNegative(whole, m);
    } else {
      assert part[0] in whole;
      var i :| 0 <= i < |whole| && whole[i] == part[0];
      var rest := whole[..i] + whole[i + 1..];
      forall k | k in part[1..] ensures k in rest {
        assert k in whole && k != part[0];
      }
      TotalPart(part[1..], rest, m);
      TotalRemove(whole, i, m);
    }
  }
}

/** Floor division by a positive divisor, in the form the payout proofs use. */
module Division {
  lemma FloorBounds(a: int, d: int)
    requires d > 0
    ensures d * (a / d) <= a < d * (a / d) + d
  {
    assert a == d * (a / d) + a % d;
  }

  lemma MulGap(d: int, x: int, y: int)
    requires d > 0
    ensures x < y ==> d * x + d <= d * y
  {
    if x < y {
      var g := y - x - 1;
      assert d * g >= 0;
      assert d * (x + 1 + g) == d * x + d + d * g;
    }
  }

  /** The floor is the greatest quotient that fits. */
  lemma FloorGreatest(a: int, d: int, q: int)
    requires d > 0 && d * q <= a
    ensures q <= a / d
  {
    FloorBounds(a, d);
    MulGap(d, a / d, q);
  }

  lemma FloorLeast(a: int, d: int, q: int)
    requires d > 0 && a < d * q + d
    ensures a / d <= q
  {
    FloorBounds(a, d);
    MulGap(d, q, a / d);
  }

  lemma MulLeft(a: int, x: int, y: int)
    requires 0 <= a && x <= y
    ensures a * x <= a * y
  {
    assert a * (y - x) >= 0;
  }
}

/** Pages cut out of a list. */
module Paging {
  const U32_MAX: int := 0xFFFF_FFFF

  function Slice<T>(s: seq<T>, from: nat, count: nat): seq<T> {
    if from >= |s| then []
    else if from + count >= |s| then s[from..]
    else s[from..from + count]
  }
}
