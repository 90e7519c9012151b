/** The cursor paginator of the OpenSea event scraper (`_handle_pagination`) as a
    function of the replies the server gives, one reply per request. */
module OpenSeaPagination {
  import opened Common
  import opened KeyRotation

  /** Transport attempts per request before the token is given up. */
  const MaxRetries: nat := 3
  /** Seconds waited after a 429 without a Retry-After header. */
  const DefaultRetryAfter: int := 30

  /** What one request produced: an exception raised by `requests.get`, or a
      response with its status, its Retry-After header (a count of seconds) and, for a 200, the
      decoded body's `asset_events` (absent means empty) and `next` members. */
  datatype Reply =
    | RequestError
    | Response(status: int, retryAfter: Option<nat>, events: seq<Json>, next: Option<string>)

  /** One request sent: the token, the `next` query parameter and the `x-api-key` header. */
  datatype Request = Request(tokenId: string, cursor: Option<string>, key: Key)

  /** How pagination ended. `Pending`: the replies ran out before it ended. */
  datatype Outcome = Complete | Failed | Pending

  /** Everything one pagination produced: the events gathered, the requests sent in
      order, the number of key rotations, the Retry-After waits, and the outcome. */
  datatype Run = Run(events: seq<Json>, requests: seq<Request>, rotations: nat, waits: seq<int>, outcome: Outcome)

  /** Python truthiness of the `next` member: present and not empty. */
  predicate Truthy(cursor: Option<string>)
  {
    cursor.Some? && cursor.value != ""
  }

  /** `int(response.headers.get("Retry-After", 30))` */
  function RetryAfterSeconds(retryAfter: Option<nat>): int
  {
    if retryAfter.Some? then retryAfter.value else DefaultRetryAfter
  }

  /** A run that starts with what `done` produced and carries on as `rest`. */
  function Then(done: Run, rest: Run): Run
  {
    Run(done.events + rest.events, done.requests + rest.requests,
        done.rotations + rest.rotations, done.waits + rest.waits, rest.outcome)
  }

  /** A reply that ends pagination, given the transport failures already counted for
      the request: the third transport failure in a row, a status other than 200, 401
      and 429, or a 200 page with no events or no `next` cursor. */
  predicate Ends(reply: Reply, failures: nat)
  {
    match reply
    case RequestError => failures + 1 == MaxRetries
    case Response(status, _, events, next) =>
      status != 401 && status != 429 && (status != 200 || |events| == 0 || !Truthy(next))
  }

  /** The outcome of a reply that ends pagination. */
  function EndOutcome(reply: Reply): Outcome
  {
    if reply.Response? && reply.status == 200 then Complete else Failed
  }

  /** The events of a reply that count: those of a 200 response. */
  function PageEvents(reply: Reply): seq<Json>
  {
    if reply.Response? && reply.status == 200 then reply.events else []
  }

  /** The key rotations a reply causes: one for a 401. */
  function AuthRotations(reply: Reply): nat
  {
    if reply.Response? && reply.status == 401 then 1 else 0
  }

  /** The wait a reply causes: its Retry-After seconds for a 429. */
  function RateWaits(reply: Reply): seq<int>
  {
    if reply.Response? && reply.status == 429 then [RetryAfterSeconds(reply.retryAfter)] else []
  }

  /** What one reply adds to a run: its request, its events, its rotation and its wait. */
  function StepOf(reply: Reply, sent: Request): Run
  {
    Run(PageEvents(reply), [sent], AuthRotations(reply), RateWaits(reply), Pending)
  }

  /** The key pool for the request after `reply`: rotated after a 401. */
  function NextKeys(reply: Reply, keys: seq<Key>): seq<Key>
  {
    if reply.Response? && reply.status == 401 then RotateLeft(keys) else keys
  }

  /** The cursor for the request after `reply`: a 200 page's `next`. */
  function NextCursor(reply: Reply, cursor: Option<string>): Option<string>
  {
    if reply.Response? && reply.status == 200 then reply.next else cursor
  }

  /** The transport failures counted for the request after `reply`: a response
      starts a fresh request, so only a failure adds to the count. */
  function NextFailures(reply: Reply, failures: nat): nat
  {
    if reply.RequestError? then failures + 1 else 0
  }

  /** The pagination of `tokenId` from the state: key pool `keys` (its front is the
      current key), cursor `cursor`, and `failures` transport failures already counted
      for the request being sent. Each reply adds its step; the first reply that ends
      pagination is the last one used. */
  function Paginate(tokenId: string, script: seq<Reply>, keys: seq<Key>, cursor: Option<string>, failures: nat): (r: Run)
    requires |keys| > 0 && failures < MaxRetries
    ensures |r.requests| <= |script|
    ensures script != [] ==> |r.requests| > 0
    decreases |script|
  {
    if script == [] then Run([], [], 0, [], Pending)
    else
      var reply, sent := script[0], Request(tokenId, cursor, keys[0]);
      if Ends(reply, failures) then Then(StepOf(reply, sent), Run([], [], 0, [], EndOutcome(reply)))
      else Then(StepOf(reply, sent), Paginate(tokenId, script[1..], NextKeys(reply, keys), NextCursor(reply, cursor), NextFailures(reply, failures)))
  }

  /** Joining runs is associative. */
  lemma ThenAssoc(a: Run, b: Run, c: Run)
    ensures Then(a, Then(b, c)) == Then(Then(a, b), c)
  {
    assert a.events + (b.events + c.events) == (a.events + b.events) + c.events;
    assert a.requests + (b.requests + c.requests) == (a.requests + b.requests) + c.requests;
    assert a.waits + (b.waits + c.waits) == (a.waits + b.waits) + c.waits;
  }

  // ---- Reference definitions over the replies consumed ----

  /** In-order concatenation of the events of every 200 response in `replies`. */
  function OkEvents(replies: seq<Reply>): seq<Json>
  {
    if replies == [] then [] else PageEvents(replies[0]) + OkEvents(replies[1..])
  }

  /** The cursor after the replies `replies`: each 200 response replaces it by its `next`. */
  function CursorAfter(cursor: Option<string>, replies: seq<Reply>): Option<string>
    decreases |replies|
  {
    if replies == [] then cursor else CursorAfter(NextCursor(replies[0], cursor), replies[1..])
  }

  /** How many 401 responses `replies` holds. */
  function Count401(replies: seq<Reply>): nat
  {
    if replies == [] then 0 else AuthRotations(replies[0]) + Count401(replies[1..])
  }

  /** The Retry-After waits of the 429 responses in `replies`, in order. */
  function Waits429(replies: seq<Reply>): seq<int>
  {
    if replies == [] then [] else RateWaits(replies[0]) + Waits429(replies[1..])
  }

  /** Transport failures since the last response, starting from `failures`. */
  function Streak(failures: nat, replies: seq<Reply>): nat
    decreases |replies|
  {
    if replies == [] then failures else Streak(NextFailures(replies[0], failures), replies[1..])
  }

  // ---- Properties of the paginator ----

  lemma PrefixTail(s: seq<Reply>, j: nat)
    requires 0 < j <= |s|
    ensures s[..j][0] == s[0] && s[..j][1..] == s[1..][..j - 1]
  {
  }

  /** The events returned are the in-order concatenation of the `asset_events` of every
      200 response received; 401, 429 and failed requests add nothing. */
  lemma {:induction false} EventsAreOkPages(tokenId: string, script: seq<Reply>, keys: seq<Key>, cursor: Option<string>, failures: nat)
    requires |keys| > 0 && failures < MaxRetries
    ensures var r := Paginate(tokenId, script, keys, cursor, failures);
      r.events == OkEvents(script[..|r.requests|])
    decreases |script|
  {
    if script != [] {
      var n := |Paginate(tokenId, script, keys, cursor, failures).requests|;
      PrefixTail(script, n);
      if Ends(script[0], failures) {
        PaginateLast(tokenId, script, keys, cursor, failures);
        assert script[..n] == [script[0]];
      } else {
        PaginateStep(tokenId, script, keys, cursor, failures);
        EventsAreOkPages(tokenId, script[1..], NextKeys(script[0], keys), NextCursor(script[0], cursor), NextFailures(script[0], failures));
      }
    }
  }

  /** When the first reply does not end pagination, the run is its request followed by
      the run from the next state. */
  lemma PaginateStep(tokenId: string, script: seq<Reply>, keys: seq<Key>, cursor: Option<string>, failures: nat)
    requires |keys| > 0 && failures < MaxRetries
    requires script != [] && !Ends(script[0], failures)
    ensures NextFailures(script[0], failures) < MaxRetries
    ensures var r := Paginate(tokenId, script, keys, cursor, failures);
      var rest := Paginate(tokenId, script[1..], NextKeys(script[0], keys), NextCursor(script[0], cursor), NextFailures(script[0], failures));
      && r.requests == [Request(tokenId, cursor, keys[0])] + rest.requests
      && r.outcome == rest.outcome
      && r.events == PageEvents(script[0]) + rest.events
      && r.rotations == StepOf(script[0], Request(tokenId, cursor, keys[0])).rotations + rest.rotations
      && r.waits == StepOf(script[0], Request(tokenId, cursor, keys[0])).waits + rest.waits
  {
  }

  /** When the first reply ends pagination, only its request is sent. */
  lemma PaginateLast(tokenId: string, script: seq<Reply>, keys: seq<Key>, cursor: Option<string>, failures: nat)
    requires |keys| > 0 && failures < MaxRetries
    requires script != [] && Ends(script[0], failures)
    ensures var r := Paginate(tokenId, script, keys, cursor, failures);
      && r.requests == [Request(tokenId, cursor, keys[0])]
      && r.outcome == EndOutcome(script[0])
      && r.events == PageEvents(script[0])
      && r.rotations == 0 && r.waits == []
  {
  }

  /** Adding one reply's step to a run, field by field. */
  lemma ThenStep(acc: Run, reply: Reply, sent: Request)
    ensures Then(acc, StepOf(reply, sent)) ==
      Run(acc.events + PageEvents(reply), acc.requests + [sent], acc.rotations + AuthRotations(reply), acc.waits + RateWaits(reply), Pending)
  {
  }

  /** A run split before the first reply can be split after it. */
  lemma ThenAdvance(whole: Run, done: Run, tokenId: string, script: seq<Reply>, keys: seq<Key>, cursor: Option<string>, failures: nat)
    requires |keys| > 0 && failures < MaxRetries && script != []
    requires whole == Then(done, Paginate(tokenId, script, keys, cursor, failures))
    ensures !Ends(script[0], failures) ==>
      && NextFailures(script[0], failures) < MaxRetries
      && whole == Then(Then(done, StepOf(script[0], Request(tokenId, cursor, keys[0]))),
                       Paginate(tokenId, script[1..], NextKeys(script[0], keys), NextCursor(script[0], cursor), NextFailures(script[0], failures)))
    ensures Ends(script[0], failures) ==>
      whole == Then(Then(done, StepOf(script[0], Request(tokenId, cursor, keys[0]))), Run([], [], 0, [], EndOutcome(script[0])))
  {
    var step := StepOf(script[0], Request(tokenId, cursor, keys[0]));
    if Ends(script[0], failures) {
      ThenAssoc(done, step, Run([], [], 0, [], EndOutcome(script[0])));
    } else {
      ThenAssoc(done, step, Paginate(tokenId, script[1..], NextKeys(script[0], keys), NextCursor(script[0], cursor), NextFailures(script[0], failures)));
    }
  }

  /** A transport failure as the next reply: one more request, and either the token is
      given up or the same request is retried with one more failure counted. */
  lemma AdvanceOnError(whole: Run, acc: Run, tokenId: string, rest: seq<Reply>, keys: seq<Key>, cursor: Option<string>, failures: nat)
    requires |keys| > 0 && failures < MaxRetries && rest != [] && rest[0].RequestError?
    requires whole == Then(acc, Paginate(tokenId, rest, keys, cursor, failures))
    ensures whole == Then(Run(acc.events, acc.requests + [Request(tokenId, cursor, keys[0])], acc.rotations, acc.waits, Pending),
                          if failures + 1 == MaxRetries then Run([], [], 0, [], Failed)
                          else Paginate(tokenId, rest[1..], keys, cursor, failures + 1))
  {
    ThenAdvance(whole, acc, tokenId, rest, keys, cursor, failures);
    ThenStep(acc, rest[0], Request(tokenId, cursor, keys[0]));
    assert acc.events + [] == acc.events && acc.waits + [] == acc.waits;
  }

  /** A response as the next reply, after the requests `tries` that failed in transport:
      the first page is those requests, the response's request and its step, followed
      by the end or by the pagination from the state the response leaves. */
  lemma AdvanceOnResponse(tokenId: string, replies: seq<Reply>, rest: seq<Reply>, tries: seq<Request>,
                          keys: seq<Key>, cursor: Option<string>, failures: nat)
    requires |keys| > 0 && failures < MaxRetries && rest != [] && rest[0].Response?
    requires Paginate(tokenId, replies, keys, cursor, 0)
      == Then(Run([], tries, 0, [], Pending), Paginate(tokenId, rest, keys, cursor, failures))
    ensures |NextKeys(rest[0], keys)| > 0
    ensures var reply := rest[0];
      var requests := tries + [Request(tokenId, cursor, keys[0])];
      Ends(reply, 0) ==>
        Paginate(tokenId, replies, keys, cursor, 0) == Run(PageEvents(reply), requests, AuthRotations(reply), RateWaits(reply), EndOutcome(reply))
    ensures var reply := rest[0];
      var requests := tries + [Request(tokenId, cursor, keys[0])];
      !Ends(reply, 0) ==>
        Paginate(tokenId, replies, keys, cursor, 0)
        == Then(Run(PageEvents(reply), requests, AuthRotations(reply), RateWaits(reply), Pending),
                Paginate(tokenId, rest[1..], NextKeys(reply, keys), NextCursor(reply, cursor), 0))
  {
    var reply := rest[0];
    var whole := Paginate(tokenId, replies, keys, cursor, 0);
    var acc := Run([], tries, 0, [], Pending);
    assert Ends(reply, failures) == Ends(reply, 0) && NextFailures(reply, failures) == 0;
    ThenAdvance(whole, acc, tokenId, rest, keys, cursor, failures);
    ThenStep(acc, reply, Request(tokenId, cursor, keys[0]));
    var page := Then(acc, StepOf(reply, Request(tokenId, cursor, keys[0])));
    assert [] + PageEvents(reply) == PageEvents(reply) && [] + RateWaits(reply) == RateWaits(reply);
    assert page.events + [] == page.events && page.requests + [] == page.requests && page.waits + [] == page.waits;
  }

  /** The key pool after a reply is the original rotated once more for a 401. */
  lemma NextKeysRotated(keys: seq<Key>, m: nat, reply: Reply)
    ensures NextKeys(reply, Rotated(keys, m)) == Rotated(keys, m + AuthRotations(reply))
  {
  }

  /** The rotations are the 401 responses received and the waits those of the 429s. */
  lemma {:induction false} RotationsAndWaits(tokenId: string, script: seq<Reply>, keys: seq<Key>, cursor: Option<string>, failures: nat)
    requires |keys| > 0 && failures < MaxRetries
    ensures var r := Paginate(tokenId, script, keys, cursor, failures);
      r.rotations == Count401(script[..|r.requests|]) && r.waits == Waits429(script[..|r.requests|])
    decreases |script|
  {
    if script != [] {
      var r := Paginate(tokenId, script, keys, cursor, failures);
      PrefixTail(script, |r.requests|);
      if Ends(script[0], failures) {
        PaginateLast(tokenId, script, keys, cursor, failures);
        assert script[..1] == [script[0]];
      } else {
        PaginateStep(tokenId, script, keys, cursor, failures);
        RotationsAndWaits(tokenId, script[1..], NextKeys(script[0], keys), NextCursor(script[0], cursor), NextFailures(script[0], failures));
      }
    }
  }

  /** Every request is for the token and request `j` carries the cursor left by the 200
      responses before it: the first carries none when pagination starts without one. */
  lemma {:induction false} RequestCursors(tokenId: string, script: seq<Reply>, keys: seq<Key>, cursor: Option<string>, failures: nat)
    requires |keys| > 0 && failures < MaxRetries
    ensures var r := Paginate(tokenId, script, keys, cursor, failures);
      forall j :: 0 <= j < |r.requests| ==>
        r.requests[j].tokenId == tokenId && r.requests[j].cursor == CursorAfter(cursor, script[..j])
    decreases |script|
  {
    if script != [] {
      var r := Paginate(tokenId, script, keys, cursor, failures);
      assert script[..0] == [];
      if Ends(script[0], failures) {
        PaginateLast(tokenId, script, keys, cursor, failures);
      } else {
        PaginateStep(tokenId, script, keys, cursor, failures);
        var rest := Paginate(tokenId, script[1..], NextKeys(script[0], keys), NextCursor(script[0], cursor), NextFailures(script[0], failures));
        RequestCursors(tokenId, script[1..], NextKeys(script[0], keys), NextCursor(script[0], cursor), NextFailures(script[0], failures));
        forall j | 1 <= j < |r.requests|
          ensures r.requests[j].tokenId == tokenId && r.requests[j].cursor == CursorAfter(cursor, script[..j])
        {
          PrefixTail(script, j);
          assert r.requests[j] == rest.requests[j - 1];
        }
      }
    }
  }

  /** The 401s before reply `j` of `script`: those of its first reply and those before
      reply `j - 1` of its tail. */
  lemma Count401Shift(script: seq<Reply>, j: nat)
    requires 0 < j <= |script|
    ensures Count401(script[..j]) == AuthRotations(script[0]) + Count401(script[1..][..j - 1])
  {
    PrefixTail(script, j);
  }

  /** Rotating the pool the reply leaves is rotating the original once more for a 401. */
  lemma RotatedNextKeys(keys: seq<Key>, reply: Reply, m: nat)
    ensures Rotated(NextKeys(reply, keys), m) == Rotated(keys, AuthRotations(reply) + m)
  {
    if AuthRotations(reply) == 1 {
      RotatedShift(keys, m);
    }
  }

  /** Request `j` carries the front key of the pool rotated once per 401 before it. */
  lemma {:induction false} RequestKeys(tokenId: string, script: seq<Reply>, keys: seq<Key>, cursor: Option<string>, failures: nat)
    requires |keys| > 0 && failures < MaxRetries
    ensures var r := Paginate(tokenId, script, keys, cursor, failures);
      forall j :: 0 <= j < |r.requests| ==> r.requests[j].key == Rotated(keys, Count401(script[..j]))[0]
    decreases |script|
  {
    if script != [] {
      var r := Paginate(tokenId, script, keys, cursor, failures);
      assert script[..0] == [];
      if Ends(script[0], failures) {
        PaginateLast(tokenId, script, keys, cursor, failures);
      } else {
        PaginateStep(tokenId, script, keys, cursor, failures);
        var keys', cursor', failures' := NextKeys(script[0], keys), NextCursor(script[0], cursor), NextFailures(script[0], failures);
        var rest := Paginate(tokenId, script[1..], keys', cursor', failures');
        RequestKeys(tokenId, script[1..], keys', cursor', failures');
        forall j | 1 <= j < |r.requests|
          ensures r.requests[j].key == Rotated(keys, Count401(script[..j]))[0]
        {
          assert r.requests[j] == rest.requests[j - 1];
          Count401Shift(script, j);
          RotatedNextKeys(keys, script[0], Count401(script[1..][..j - 1]));
        }
      }
    }
  }

  /** The streak before reply `j` of `script` is the streak before reply `j - 1` of its
      tail, counted from the failures after the first reply. */
  lemma StreakShift(failures: nat, script: seq<Reply>, j: nat)
    requires 0 < j <= |script|
    ensures Streak(failures, script[..j]) == Streak(NextFailures(script[0], failures), script[1..][..j - 1])
  {
    PrefixTail(script, j);
  }

  /** Every request pagination sends is sent with fewer than three failures counted, and
      no reply before the last one used ends pagination. */
  lemma {:induction false} NoEarlierEnd(tokenId: string, script: seq<Reply>, keys: seq<Key>, cursor: Option<string>, failures: nat)
    requires |keys| > 0 && failures < MaxRetries
    ensures var n := |Paginate(tokenId, script, keys, cursor, failures).requests|;
      && (forall j :: 0 <= j < n ==> Streak(failures, script[..j]) < MaxRetries)
      && (forall j :: 0 <= j < n - 1 ==> !Ends(script[j], Streak(failures, script[..j])))
    decreases |script|
  {
    if script != [] {
      var n := |Paginate(tokenId, script, keys, cursor, failures).requests|;
      assert script[..0] == [];
      if Ends(script[0], failures) {
        PaginateLast(tokenId, script, keys, cursor, failures);
      } else {
        PaginateStep(tokenId, script, keys, cursor, failures);
        var keys', cursor', failures' := NextKeys(script[0], keys), NextCursor(script[0], cursor), NextFailures(script[0], failures);
        NoEarlierEnd(tokenId, script[1..], keys', cursor', failures');
        forall j | 0 <= j < n
          ensures Streak(failures, script[..j]) < MaxRetries
          ensures j < n - 1 ==> !Ends(script[j], Streak(failures, script[..j]))
        {
          if j > 0 {
            StreakShift(failures, script, j);
            assert script[j] == script[1..][j - 1];
          }
        }
      }
    }
  }

  /** Pagination is `Pending` exactly when every reply was used and the last one did not
      end it; otherwise its last reply ended it, `Complete` after a 200 page and `Failed`
      otherwise. */
  lemma {:induction false} OutcomeOfLastReply(tokenId: string, script: seq<Reply>, keys: seq<Key>, cursor: Option<string>, failures: nat)
    requires |keys| > 0 && failures < MaxRetries
    ensures var r := Paginate(tokenId, script, keys, cursor, failures);
      var n := |r.requests|;
      && (r.outcome == Pending <==> n == |script| && (n == 0 || !Ends(script[n - 1], Streak(failures, script[..n - 1]))))
      && (r.outcome != Pending ==> n > 0 && Ends(script[n - 1], Streak(failures, script[..n - 1])) && r.outcome == EndOutcome(script[n - 1]))
    decreases |script|
  {
    if script != [] {
      assert script[..0] == [];
      if Ends(script[0], failures) {
        PaginateLast(tokenId, script, keys, cursor, failures);
      } else {
        PaginateStep(tokenId, script, keys, cursor, failures);
        var keys', cursor', failures' := NextKeys(script[0], keys), NextCursor(script[0], cursor), NextFailures(script[0], failures);
        OutcomeOfLastReply(tokenId, script[1..], keys', cursor', failures');
        var n := |Paginate(tokenId, script, keys, cursor, failures).requests|;
        if n > 1 {
          StreakShift(failures, script, n - 1);
          assert script[n - 1] == script[1..][n - 2];
        }
      }
    }
  }

  /** Pagination stops at the first reply that ends it and at no earlier one: every
      earlier reply was a 401, a 429, a 200 page with events and a `next` cursor, or a
      transport failure with fewer than three in a row. It is `Complete` after a 200
      page, `Failed` otherwise, and `Pending` only when every reply was used. */
  lemma StopsAtFirstEnd(tokenId: string, script: seq<Reply>, keys: seq<Key>, cursor: Option<string>, failures: nat)
    requires |keys| > 0 && failures < MaxRetries
    ensures var r := Paginate(tokenId, script, keys, cursor, failures);
      var n := |r.requests|;
      && (forall j :: 0 <= j < n ==> Streak(failures, script[..j]) < MaxRetries)
      && (forall j :: 0 <= j < n - 1 ==> !Ends(script[j], Streak(failures, script[..j])))
      && (r.outcome == Pending <==> n == |script| && (n == 0 || !Ends(script[n - 1], Streak(failures, script[..n - 1]))))
      && (r.outcome != Pending ==> n > 0 && Ends(script[n - 1], Streak(failures, script[..n - 1])) && r.outcome == EndOutcome(script[n - 1]))
  {
    NoEarlierEnd(tokenId, script, keys, cursor, failures);
    OutcomeOfLastReply(tokenId, script, keys, cursor, failures);
  }

  /** No request is sent after three transport failures in a row. */
  lemma AtMostThreeTransportAttempts(tokenId: string, script: seq<Reply>, keys: seq<Key>)
    requires |keys| > 0
    ensures var r := Paginate(tokenId, script, keys, None, 0);
      forall j :: 0 <= j && j + MaxRetries < |r.requests| ==>
        !(script[j].RequestError? && script[j + 1].RequestError? && script[j + 2].RequestError?)
  {
    var r := Paginate(tokenId, script, keys, None, 0);
    StopsAtFirstEnd(tokenId, script, keys, None, 0);
    forall j | 0 <= j && j + MaxRetries < |r.requests|
      ensures !(script[j].RequestError? && script[j + 1].RequestError? && script[j + 2].RequestError?)
    {
      if script[j].RequestError? && script[j + 1].RequestError? {
        StreakGrows(script, j);
        assert Streak(0, script[..j + 2]) < MaxRetries;
        assert !Ends(script[j + 2], Streak(0, script[..j + 2]));
      }
    }
  }

  /** After three transport failures in a row the streak has reached two before the third. */
  lemma StreakGrows(s: seq<Reply>, j: nat)
    requires j + 2 < |s| && s[j].RequestError? && s[j + 1].RequestError?
    ensures Streak(0, s[..j + 2]) >= 2
  {
    StreakSnoc(0, s[..j + 1], s[j + 1]);
    assert s[..j + 2] == s[..j + 1] + [s[j + 1]];
    StreakSnoc(0, s[..j], s[j]);
    assert s[..j + 1] == s[..j] + [s[j]];
  }

  /** The streak after one more reply. */
  lemma {:induction false} StreakSnoc(failures: nat, s: seq<Reply>, reply: Reply)
    ensures Streak(failures, s + [reply]) == if reply.RequestError? then Streak(failures, s) + 1 else 0
    decreases |s|
  {
    if s != [] {
      assert (s + [reply])[1..] == s[1..] + [reply];
      StreakSnoc(if s[0].RequestError? then failures + 1 else 0, s[1..], reply);
    } else {
      assert [reply][1..] == [];
    }
  }

  /** A token's pagination starts without a cursor and with the front key of the pool. */
  lemma FirstRequestHasNoCursor(tokenId: string, script: seq<Reply>, keys: seq<Key>)
    requires |keys| > 0 && script != []
    ensures var r := Paginate(tokenId, script, keys, None, 0);
      |r.requests| > 0 && r.requests[0].cursor == None && r.requests[0].key == keys[0]
  {
  }

  /** A 401 then a page of events with no cursor: the key rotates exactly once, the
      retried request uses the new front key, and the page completes the token. */
  lemma AuthRejectionThenPage(tokenId: string, keys: seq<Key>, events: seq<Json>, retryAfter: Option<nat>)
    requires |keys| > 1 && |events| > 0
    ensures var r := Paginate(tokenId, [Response(401, retryAfter, [], None), Response(200, None, events, None)], keys, None, 0);
      && r.rotations == 1 && r.outcome == Complete && r.events == events
      && |r.requests| == 2 && r.requests[1].key == keys[1]
  {
    var s := [Response(401, retryAfter, [], None), Response(200, None, events, None)];
    assert s[1..] == [Response(200, None, events, None)];
    assert s[1..][1..] == [];
  }

  /** A server that never answers: exactly three requests, then the token fails with no events. */
  lemma AlwaysTimingOut(tokenId: string, keys: seq<Key>, later: seq<Reply>)
    requires |keys| > 0
    ensures var r := Paginate(tokenId, [RequestError, RequestError, RequestError] + later, keys, None, 0);
      |r.requests| == 3 && r.outcome == Failed && r.events == []
  {
    var s := [RequestError, RequestError, RequestError] + later;
    assert s[1..] == [RequestError, RequestError] + later;
    assert s[1..][1..] == [RequestError] + later;
    var third := Paginate(tokenId, s[1..][1..], keys, None, 2);
    assert third == Run([], [Request(tokenId, None, keys[0])], 0, [], Failed);
    var second := Paginate(tokenId, s[1..], keys, None, 1);
    assert second == Then(Run([], [Request(tokenId, None, keys[0])], 0, [], Pending), third);
  }
}
