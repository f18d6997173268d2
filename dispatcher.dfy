/** The request dispatcher `sendPostRequest`: POST a payload to the current
    lobby URL, rotate to the next URL after every failed attempt, and give up
    (terminating the process) after one attempt per URL.

    The HTTP transport is an oracle: `outcomes[i]` is what attempt `i` of the
    call produces. */
module Dispatcher {
  import opened Json
  import opened Rotator

  /** What one `fetch` produced: it threw (network error), or the backend
      answered with a status and a body that `response.json()` parsed (Some)
      or could not parse (None, the call throws). */
  datatype Attempt =
    | NetworkError
    | Answer(status: int, body: Option<Json>)

  /** `response.ok`: a status in the range 200-299. */
  predicate StatusOk(status: int)
  {
    200 <= status <= 299
  }

  /** The attempt returns a parsed body; every other outcome reaches either
      the `else` branch or the `catch` block, and both rotate. */
  predicate Succeeds(a: Attempt)
  {
    a.Answer? && StatusOk(a.status) && a.body.Some?
  }

  /** What a call hands back: the parsed body, or nothing because every URL
      failed and the process exits. */
  datatype Dispatch = Delivered(body: Json) | Exhausted

  /** The index of the first successful attempt, or `|outcomes|` if there is
      none. */
  function FirstSuccess(outcomes: seq<Attempt>): (k: nat)
    ensures k <= |outcomes|
    ensures k < |outcomes| ==> Succeeds(outcomes[k])
    ensures forall i :: 0 <= i < k ==> !Succeeds(outcomes[i])
  {
    if outcomes == [] then 0
    else if Succeeds(outcomes[0]) then 0
    else 1 + FirstSuccess(outcomes[1..])
  }

  /** What a call with one outcome per URL returns: the body of the first
      good attempt, or Exhausted. */
  function Dispatched(outcomes: seq<Attempt>): (r: Dispatch)
    ensures r.Exhausted? <==> forall i :: 0 <= i < |outcomes| ==> !Succeeds(outcomes[i])
    ensures r.Delivered? ==>
              exists k :: 0 <= k < |outcomes| && Succeeds(outcomes[k]) && outcomes[k].body == Some(r.body) &&
                          forall i :: 0 <= i < k ==> !Succeeds(outcomes[i])
  {
    var k := FirstSuccess(outcomes);
    if k < |outcomes| then Delivered(outcomes[k].body.value) else Exhausted
  }

  /** How many times a call with one outcome per URL calls `switchUrl`: once
      per failed attempt, that is, once per attempt before the first good
      one (all of them when there is none). */
  function Switches(outcomes: seq<Attempt>): nat
  {
    FirstSuccess(outcomes)
  }

  /** How many POSTs a call makes: the failures plus the good one, if any. */
  function Attempts(outcomes: seq<Attempt>): nat
  {
    var k := FirstSuccess(outcomes);
    if k < |outcomes| then k + 1 else |outcomes|
  }

  /** The POSTs of the first `m` attempts of a call that starts with the
      cursor at `start`: attempt `i` goes to the URL `i` places past it. */
  function Posts(urls: seq<string>, start: nat, data: Json, m: nat): seq<(string, Json)>
    requires start < |urls|
  {
    if m == 0 then []
    else Posts(urls, start, data, m - 1) + [(urls[AdvanceTimes(start, |urls|, m - 1)], data)]
  }

  /** Attempt `i` of a call POSTs `data` to `urls[(start + i) % n]`. */
  lemma {:induction false} PostsAt(urls: seq<string>, start: nat, data: Json, m: nat, i: nat)
    requires start < |urls| && i < m
    ensures |Posts(urls, start, data, m)| == m
    ensures Posts(urls, start, data, m)[i] == (urls[(start + i) % |urls|], data)
    decreases m
  {
    if i < m - 1 {
      PostsAt(urls, start, data, m - 1, i);
      assert |Posts(urls, start, data, m - 1)| == m - 1;
    } else {
      LengthOfPosts(urls, start, data, m - 1);
      AdvanceTimesIsShift(start, |urls|, i);
    }
  }

  /** Every POST of a call carries the same body. */
  lemma {:induction false} PostsCarry(urls: seq<string>, start: nat, data: Json, m: nat)
    requires start < |urls|
    ensures forall i :: 0 <= i < |Posts(urls, start, data, m)| ==> Posts(urls, start, data, m)[i].1 == data
    decreases m
  {
    if m > 0 {
      PostsCarry(urls, start, data, m - 1);
    }
  }

  lemma {:induction false} LengthOfPosts(urls: seq<string>, start: nat, data: Json, m: nat)
    requires start < |urls|
    ensures |Posts(urls, start, data, m)| == m
    decreases m
  {
    if m > 0 {
      LengthOfPosts(urls, start, data, m - 1);
    }
  }

  /** `sendPostRequest(data)`. The retry counter is local, so each call starts
      from zero and makes at most `|urls|` attempts; `posts` records, as ghost
      state, the URL and body of every POST the call makes, in order. */
  method SendPostRequest(rot: EndpointRotator, data: Json, outcomes: seq<Attempt>)
    returns (r: Dispatch, ghost posts: seq<(string, Json)>)
    requires rot.Valid() && |rot.urls| <= |outcomes|
    modifies rot
    ensures rot.Valid()
    ensures r == Dispatched(outcomes[..|rot.urls|])
    ensures rot.cursor == AdvanceTimes(old(rot.cursor), |rot.urls|, Switches(outcomes[..|rot.urls|]))
    ensures posts == Posts(rot.urls, old(rot.cursor), data, Attempts(outcomes[..|rot.urls|]))
  {
    var retries := 0;
    var maxRetries := |rot.urls|;
    ghost var start := rot.cursor;
    ghost var tried := outcomes[..maxRetries];
    posts := [];
    while retries < maxRetries
      invariant rot.Valid() && |rot.urls| == maxRetries
      invariant 0 <= retries <= maxRetries
      invariant rot.cursor == AdvanceTimes(start, maxRetries, retries)
      invariant forall i :: 0 <= i < retries ==> !Succeeds(tried[i])
      invariant posts == Posts(rot.urls, start, data, retries)
    {
      var url := rot.CurrentUrl();
      posts := posts + [(url, data)];
      var attempt := outcomes[retries];
      if attempt.NetworkError? {
        // the fetch threw: catch block
        rot.SwitchUrl();
        retries := retries + 1;
      } else if StatusOk(attempt.status) {
        if attempt.body.Some? {
          r := Delivered(attempt.body.value);
          assert Succeeds(tried[retries]);
          assert FirstSuccess(tried) == retries;
          return;
        }
        // response.json() threw: catch block
        rot.SwitchUrl();
        retries := retries + 1;
      } else {
        // not ok: switch and count
        rot.SwitchUrl();
        retries := retries + 1;
      }
    }
    r := Exhausted;
  }

  /** Attempts `0..k-1` fail and attempt `k` succeeds: the call returns attempt
      `k`'s body unchanged, after `k` switches and `k + 1` POSTs. */
  lemma FirstGoodAttemptWins(outcomes: seq<Attempt>, k: nat)
    requires k < |outcomes| && Succeeds(outcomes[k])
    requires forall i :: 0 <= i < k ==> !Succeeds(outcomes[i])
    ensures Dispatched(outcomes) == Delivered(outcomes[k].body.value)
    ensures Switches(outcomes) == k && Attempts(outcomes) == k + 1
  {
  }

  /** A call never makes more than one POST per URL, and it switches once per
      failed attempt: one fewer than its POSTs when it succeeds, as many when
      it is exhausted. */
  lemma AttemptsBounded(outcomes: seq<Attempt>)
    ensures Attempts(outcomes) <= |outcomes|
    ensures Dispatched(outcomes).Delivered? <==> Attempts(outcomes) == Switches(outcomes) + 1
    ensures Dispatched(outcomes).Exhausted? <==> Attempts(outcomes) == Switches(outcomes)
  {
  }

  /** Every attempt fails: the call returns nothing and, having switched once
      per URL, leaves the cursor where it found it. */
  lemma AllFailedLeavesCursor(outcomes: seq<Attempt>, start: nat)
    requires start < |outcomes|
    requires forall i :: 0 <= i < |outcomes| ==> !Succeeds(outcomes[i])
    ensures Dispatched(outcomes) == Exhausted
    ensures AdvanceTimes(start, |outcomes|, Switches(outcomes)) == start
  {
    FullCircle(start, |outcomes|);
  }

  /** After a successful call whose first `k` attempts failed, the cursor is
      `(start + k) % n`: it points at the URL that answered. */
  lemma CursorAtAnsweringUrl(outcomes: seq<Attempt>, start: nat)
    requires start < |outcomes|
    requires Dispatched(outcomes).Delivered?
    ensures AdvanceTimes(start, |outcomes|, Switches(outcomes)) == (start + FirstSuccess(outcomes)) % |outcomes|
    ensures AdvanceTimes(start, |outcomes|, Switches(outcomes)) == AdvanceTimes(start, |outcomes|, Attempts(outcomes) - 1)
  {
    AdvanceTimesIsShift(start, |outcomes|, FirstSuccess(outcomes));
  }

  /** An exhausting call POSTs to every URL exactly once. */
  lemma ExhaustedTriesEveryUrlOnce(outcomes: seq<Attempt>, start: nat, target: nat)
    requires start < |outcomes| && target < |outcomes|
    requires Dispatched(outcomes) == Exhausted
    ensures exists i :: 0 <= i < Attempts(outcomes) && AdvanceTimes(start, |outcomes|, i) == target
    ensures forall i, j :: 0 <= i < j < Attempts(outcomes) ==>
              AdvanceTimes(start, |outcomes|, i) != AdvanceTimes(start, |outcomes|, j)
  {
    var k := VisitsAll(start, |outcomes|, target);
    forall i, j | 0 <= i < j < Attempts(outcomes)
      ensures AdvanceTimes(start, |outcomes|, i) != AdvanceTimes(start, |outcomes|, j)
    {
      VisitsDistinct(start, |outcomes|, i, j);
    }
  }

  /** The process's three lobby URLs where the first two fail (a network
      error, then a 500) and the third answers: the third body comes back, the
      payload went to each URL once in list order, and the cursor, starting
      at 0, ends at index 2, the `lobby-odd` URL. */
  lemma ThirdUrlAnswers(data: Json, body: Json)
    ensures |LobbyUrls| == 3
    ensures var outcomes := [NetworkError, Answer(500, None), Answer(200, Some(body))];
            Dispatched(outcomes) == Delivered(body) &&
            AdvanceTimes(0, |LobbyUrls|, Switches(outcomes)) == 2 &&
            LobbyUrls[AdvanceTimes(0, |LobbyUrls|, Switches(outcomes))] ==
              "https://lobby-odd.bannerlord-services-3.net/Data/ProcessMessage" &&
            Posts(LobbyUrls, 0, data, Attempts(outcomes)) ==
              [(LobbyUrls[0], data), (LobbyUrls[1], data), (LobbyUrls[2], data)]
  {
    var outcomes := [NetworkError, Answer(500, None), Answer(200, Some(body))];
    FirstGoodAttemptWins(outcomes, 2);
    assert AdvanceTimes(0, 3, 1) == 1 && AdvanceTimes(0, 3, 2) == 2;
    assert Posts(LobbyUrls, 0, data, 1) == [(LobbyUrls[0], data)];
    assert Posts(LobbyUrls, 0, data, 2) == [(LobbyUrls[0], data), (LobbyUrls[1], data)];
  }
}
