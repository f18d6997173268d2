/** The endpoint rotator: the fixed list of lobby URLs and the process-wide
    cursor into it (`urls`, `currentUrlIndex`, `getCurrentUrl`, `switchUrl`). */
module Rotator {

  /** The three lobby endpoints, in the order a fresh process tries them. */
  const LobbyUrls: seq<string> := [
    "https://lobby-even.bannerlord-services-3.net/Data/ProcessMessage",
    "https://bannerlord-odd-lobby.bannerlord-services-3.net/Data/ProcessMessage",
    "https://lobby-odd.bannerlord-services-3.net/Data/ProcessMessage"
  ]

  /** One `switchUrl` from a valid cursor: the next index, wrapping to 0
      after the last. */
  function Advance(cursor: nat, n: nat): (c: nat)
    requires cursor < n
    ensures c < n
  {
    if cursor + 1 < n then cursor + 1 else 0
  }

  /** The cursor after `k` calls of `switchUrl` starting from `cursor`. */
  function AdvanceTimes(cursor: nat, n: nat, k: nat): (c: nat)
    requires cursor < n
    ensures c < n
    decreases k
  {
    if k == 0 then cursor else Advance(AdvanceTimes(cursor, n, k - 1), n)
  }

  lemma {:induction false} MulAtLeast(d: int, n: int)
    requires 1 <= d && 0 < n
    ensures n <= d * n
    decreases d
  {
    if d > 1 {
      MulAtLeast(d - 1, n);
      assert d * n == (d - 1) * n + n;
    }
  }

  /** Euclidean division has one quotient and one remainder. */
  lemma ModUnique(x: int, n: int, q: int, r: int)
    requires 0 < n && 0 <= r < n && x == q * n + r
    ensures x % n == r
  {
    var q', r' := x / n, x % n;
    assert (q - q') * n == r' - r;
    if q' < q {
      MulAtLeast(q - q', n);
      assert false;
    } else if q < q' {
      MulAtLeast(q' - q, n);
      assert false;
    }
  }

  /** A number below the modulus is its own remainder. */
  lemma ModSmall(x: int, n: int)
    requires 0 <= x < n
    ensures x % n == x
  {
    ModUnique(x, n, 0, x);
  }

  /** The remainder of `x + 1` is the remainder of `x` advanced once. */
  lemma ModSucc(x: nat, n: nat)
    requires 0 < n
    ensures (x + 1) % n == if x % n + 1 < n then x % n + 1 else 0
  {
    var q, c := x / n, x % n;
    assert x == q * n + c;
    if c + 1 < n {
      ModUnique(x + 1, n, q, c + 1);
    } else {
      assert (q + 1) * n == q * n + n;
      ModUnique(x + 1, n, q + 1, 0);
    }
  }

  /** `k` switches from a valid cursor land on `(start + k) % n`: the cursor
      moves forward one place per failure, modulo the number of URLs. */
  lemma {:induction false} AdvanceTimesIsShift(start: nat, n: nat, k: nat)
    requires start < n
    ensures AdvanceTimes(start, n, k) == (start + k) % n
    decreases k
  {
    if k == 0 {
      ModSmall(start, n);
    } else {
      var m := start + k - 1;
      var prev := AdvanceTimes(start, n, k - 1);
      AdvanceTimesIsShift(start, n, k - 1);
      ModSucc(m, n);
      assert AdvanceTimes(start, n, k) == Advance(prev, n);
      assert m + 1 == start + k;
    }
  }

  /** `n` switches bring the cursor back to where it started. */
  lemma FullCircle(start: nat, n: nat)
    requires start < n
    ensures AdvanceTimes(start, n, n) == start
  {
    AdvanceTimesIsShift(start, n, n);
    ModUnique(start + n, n, 1, start);
  }

  /** The cursor after `k < n` switches, without the modulus: `start + k`,
      wrapped once past the end. */
  lemma WrapOnce(start: nat, n: nat, k: nat)
    requires start < n && k < n
    ensures AdvanceTimes(start, n, k) == if start + k < n then start + k else start + k - n
  {
    AdvanceTimesIsShift(start, n, k);
    if start + k < n {
      ModUnique(start + k, n, 0, start + k);
    } else {
      ModUnique(start + k, n, 1, start + k - n);
    }
  }

  /** The first `n` cursor positions from any start are pairwise distinct:
      within `n` switches no URL is visited twice. */
  lemma VisitsDistinct(start: nat, n: nat, i: nat, j: nat)
    requires start < n && i < j < n
    ensures AdvanceTimes(start, n, i) != AdvanceTimes(start, n, j)
  {
    WrapOnce(start, n, i);
    WrapOnce(start, n, j);
  }

  /** The first `n` cursor positions from any start cover every index: an
      exhausting round of `n` failures visits every URL. */
  lemma VisitsAll(start: nat, n: nat, target: nat) returns (k: nat)
    requires start < n && target < n
    ensures k < n && AdvanceTimes(start, n, k) == target
  {
    k := if start <= target then target - start else target + n - start;
    WrapOnce(start, n, k);
  }

  /** The module-level URL list and `currentUrlIndex`. */
  class EndpointRotator {
    const urls: seq<string>
    var cursor: nat

    ghost predicate Valid()
      reads this
    {
      0 < |urls| && cursor < |urls|
    }

    /** `currentUrlIndex = 0` at load time. */
    constructor (urls: seq<string>)
      requires 0 < |urls|
      ensures Valid() && this.urls == urls && cursor == 0
    {
      this.urls := urls;
      cursor := 0;
    }

    /** `getCurrentUrl`: the URL under the cursor. */
    function CurrentUrl(): (u: string)
      reads this
      requires Valid()
      ensures u in urls
      ensures u == urls[cursor]
    {
      urls[cursor]
    }

    /** `switchUrl`: move the cursor one place forward, wrapping around. */
    method SwitchUrl()
      requires Valid()
      modifies this
      ensures Valid()
      ensures cursor == Advance(old(cursor), |urls|)
    {
      if cursor + 1 < |urls| {
        ModUnique(cursor + 1, |urls|, 0, cursor + 1);
      } else {
        ModUnique(cursor + 1, |urls|, 1, 0);
      }
      cursor := (cursor + 1) % |urls|;
    }
  }
}
