/** Coin placement at process start: ten coins spaced 70 units apart from
    x = 50, each at a random height in a 100-unit band around mid-screen. */
module Coins {
  import opened Model

  const CoinCount: nat := 10

  function DigitChar(d: nat): char
    requires d < 10
  {
    ('0' as int + d) as char
  }

  /** The decimal rendering of `n`, as Go's `%d` verb prints it: digits
      only, no sign, no leading zeros. */
  function Decimal(n: nat): (s: string)
    ensures |s| >= 1
    ensures |s| == 1 <==> n < 10
    ensures forall k :: 0 <= k < |s| ==> '0' <= s[k] <= '9'
    ensures s[0] == '0' ==> n == 0
  {
    if n < 10 then [DigitChar(n)] else Decimal(n / 10) + [DigitChar(n % 10)]
  }

  /** Different numbers print differently. */
  lemma {:induction false} DecimalInjective(n: nat, m: nat)
    requires Decimal(n) == Decimal(m)
    ensures n == m
    decreases n
  {
    if n < 10 || m < 10 {
      assert Decimal(n)[0] == Decimal(m)[0];
    } else {
      var s, t := Decimal(n), Decimal(m);
      assert s == Decimal(n / 10) + [DigitChar(n % 10)];
      assert t == Decimal(m / 10) + [DigitChar(m % 10)];
      assert s[|s| - 1] == t[|t| - 1];
      assert Decimal(n / 10) == s[..|s| - 1] == t[..|t| - 1] == Decimal(m / 10);
      DecimalInjective(n / 10, m / 10);
    }
  }

  /** The identifier of the `i`-th coin: "coin0", "coin1", ... */
  function CoinId(i: nat): (s: string)
    ensures |s| >= 5 && s[..4] == "coin"
    ensures forall k :: 4 <= k < |s| ==> '0' <= s[k] <= '9'
    ensures |s| == 5 <==> i < 10
  {
    "coin" + Decimal(i)
  }

  /** Distinct coin indices give distinct identifiers. */
  lemma CoinIdInjective(i: nat, j: nat)
    requires CoinId(i) == CoinId(j)
    ensures i == j
  {
    assert Decimal(i) == CoinId(i)[4..] == CoinId(j)[4..] == Decimal(j);
    DecimalInjective(i, j);
  }

  /** Each random draw lies in [0, 1), as a uniform float draw does. */
  predicate ValidJitters(js: seq<real>) {
    forall k :: 0 <= k < |js| ==> 0.0 <= js[k] < 1.0
  }

  /** The height of a coin whose random draw is `jitter`. */
  function CoinY(jitter: real): (y: real)
    requires 0.0 <= jitter < 1.0
    ensures (ScreenHeight / 2 - 50) as real <= y < (ScreenHeight / 2 + 50) as real
  {
    (ScreenHeight / 2) as real + jitter * 100.0 - 50.0
  }

  /** The coin iteration `i` of the placement loop builds. */
  function MakeCoin(i: nat, jitter: real): (c: Coin)
    requires 0.0 <= jitter < 1.0
    ensures c.id == CoinId(i) && c.active
    ensures c.x == (50 + 70 * i) as real
    ensures (ScreenHeight / 2 - 50) as real <= c.y < (ScreenHeight / 2 + 50) as real
  {
    Coin(CoinId(i), (50 + i * 70) as real, CoinY(jitter), true)
  }

  /** The coin map after the first `n` iterations of the placement loop:
      iteration `i` stores coin `i` under its identifier. */
  function CoinsUpTo(js: seq<real>, n: nat): (m: map<string, Coin>)
    requires n <= |js| && ValidJitters(js)
    ensures forall k :: k in m ==> m[k].id == k && m[k].active
  {
    if n == 0 then map[]
    else CoinsUpTo(js, n - 1)[CoinId(n - 1) := MakeCoin(n - 1, js[n - 1])]
  }

  /** After `n` iterations the keys are exactly the first `n` identifiers. */
  lemma {:induction false} CoinsUpToKeys(js: seq<real>, n: nat)
    requires n <= |js| && ValidJitters(js)
    ensures CoinsUpTo(js, n).Keys == set i | 0 <= i < n :: CoinId(i)
  {
    if n > 0 {
      CoinsUpToKeys(js, n - 1);
      assert (set i | 0 <= i < n :: CoinId(i))
          == (set i | 0 <= i < n - 1 :: CoinId(i)) + {CoinId(n - 1)};
    }
  }

  /** After `n` iterations the map holds `n` coins: no iteration overwrites
      an earlier one. */
  lemma {:induction false} CoinsUpToSize(js: seq<real>, n: nat)
    requires n <= |js| && ValidJitters(js)
    ensures |CoinsUpTo(js, n)| == n
  {
    if n > 0 {
      CoinsUpToSize(js, n - 1);
      CoinsUpToKeys(js, n - 1);
      CoinIdFresh(n - 1);
      assert CoinId(n - 1) !in CoinsUpTo(js, n - 1);
    }
  }

  /** After `n` iterations coin `i` (for every `i < n`) is the one iteration
      `i` placed. */
  lemma {:induction false} CoinsUpToValues(js: seq<real>, n: nat)
    requires n <= |js| && ValidJitters(js)
    ensures forall i :: 0 <= i < n ==>
      CoinId(i) in CoinsUpTo(js, n) && CoinsUpTo(js, n)[CoinId(i)] == MakeCoin(i, js[i])
  {
    if n > 0 {
      var prev := CoinsUpTo(js, n - 1);
      CoinsUpToValues(js, n - 1);
      CoinIdFresh(n - 1);
      forall i | 0 <= i < n
        ensures CoinId(i) in CoinsUpTo(js, n) && CoinsUpTo(js, n)[CoinId(i)] == MakeCoin(i, js[i])
      {
        if i < n - 1 {
          assert CoinId(i) in prev && prev[CoinId(i)] == MakeCoin(i, js[i]);
          assert CoinId(i) != CoinId(n - 1);
        }
      }
    }
  }

  /** The identifier added by iteration `n` is not among those of the
      earlier iterations. */
  lemma CoinIdFresh(n: nat)
    ensures forall i :: 0 <= i < n ==> CoinId(i) != CoinId(n)
  {
    forall i | 0 <= i < n
      ensures CoinId(i) != CoinId(n)
    {
      if CoinId(i) == CoinId(n) {
        CoinIdInjective(i, n);
      }
    }
  }

  /** The coin map built at process start from ten random draws. */
  function InitCoins(js: seq<real>): (m: map<string, Coin>)
    requires |js| == CoinCount && ValidJitters(js)
    ensures m.Keys == set i | 0 <= i < CoinCount :: CoinId(i)
    ensures |m| == CoinCount
    ensures forall i :: 0 <= i < CoinCount ==>
      && CoinId(i) in m
      && m[CoinId(i)].id == CoinId(i)
      && m[CoinId(i)].x == (50 + 70 * i) as real
      && (ScreenHeight / 2 - 50) as real <= m[CoinId(i)].y < (ScreenHeight / 2 + 50) as real
      && m[CoinId(i)].active
  {
    CoinsUpToKeys(js, CoinCount);
    CoinsUpToSize(js, CoinCount);
    CoinsUpToValues(js, CoinCount);
    CoinsUpTo(js, CoinCount)
  }

  /** A one-digit index prints as that digit alone. */
  lemma CoinIdSmall(i: nat)
    requires i < 10
    ensures CoinId(i) == "coin" + [DigitChar(i)]
  {
  }

  /** The ten identifiers, spelled out. */
  const CoinNames: seq<string> :=
    ["coin0", "coin1", "coin2", "coin3", "coin4", "coin5", "coin6", "coin7", "coin8", "coin9"]

  lemma CoinIdsSpelled()
    ensures forall i :: 0 <= i < CoinCount ==> CoinId(i) == CoinNames[i]
  {
    forall i | 0 <= i < CoinCount
      ensures CoinId(i) == CoinNames[i]
    {
      CoinIdSmall(i);
    }
  }

  /** The ten identifiers are exactly "coin0" through "coin9", and every
      coin records its own identifier. */
  lemma InitCoinIds(js: seq<real>)
    requires |js| == CoinCount && ValidJitters(js)
    ensures forall k :: k in InitCoins(js) <==> k in CoinNames
    ensures forall k :: k in InitCoins(js) ==> InitCoins(js)[k].id == k
  {
    CoinIdsSpelled();
    forall k | k in CoinNames
      ensures k in InitCoins(js)
    {
      var i :| 0 <= i < |CoinNames| && CoinNames[i] == k;
      assert CoinId(i) == k;
    }
  }
}
