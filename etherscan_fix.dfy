/** The re-fetch script `etherscan_fix.py`: the page-number paginator of `get_txlist`,
    which draws one key per page from a fresh cycle over the key list, as a function
    of the replies, one reply per attempt; and the file `save_json` writes. */
module EtherscanFix {
  import opened Common
  import opened KeyRotation
  import opened EtherscanApi

  /** An attempt that succeeds: status "1" and a result that is a list. Anything else,
      a missing result included, is retried. */
  predicate Succeeds(reply: TxReply)
  {
    StatusOk(reply) && reply.result.Some? && reply.result.value.JArray?
  }

  /** The records a reply adds: the result list of a successful attempt. */
  function Records(reply: TxReply): seq<Json>
  {
    if Succeeds(reply) then reply.result.value.items else []
  }

  /** A reply that ends pagination, given the failed attempts already made on the page:
      a successful page of fewer than 100 records, or the third failed attempt. */
  predicate Ends(reply: TxReply, attempts: nat)
  {
    if Succeeds(reply) then |Records(reply)| < PageSize else attempts + 1 == MaxRetries
  }

  /** How a reply that ends pagination ends it. */
  function EndStop(reply: TxReply): Stop
  {
    if Succeeds(reply) then LastPage else GaveUp
  }

  /** The page of the request after `reply`: the next page after a successful one. */
  function NextPage(reply: TxReply, page: nat): nat
  {
    if Succeeds(reply) then page + 1 else page
  }

  /** The failed attempts counted for the request after `reply`. */
  function NextAttempts(reply: TxReply, attempts: nat): nat
  {
    if Succeeds(reply) then 0 else attempts + 1
  }

  /** The key page `page` is requested with: the cycle over `keys` yields one key per
      page, starting again from the first after the last. */
  function PageKey(keys: seq<Key>, page: nat): Key
    requires |keys| > 0 && page >= 1
  {
    keys[(page - 1) % |keys|]
  }

  /** The pagination of `address` from page `page`, with `attempts` failed attempts
      already made on it. Each reply adds its request and its records; the first reply
      that ends pagination is the last one used. */
  function FixPages(address: string, replies: seq<TxReply>, keys: seq<Key>, page: nat, attempts: nat): (r: TxRun)
    requires |keys| > 0 && page >= 1 && attempts < MaxRetries
    ensures |r.requests| <= |replies|
    ensures replies != [] ==> |r.requests| > 0
    decreases |replies|
  {
    if replies == [] then TxRun([], [], Pending)
    else
      var reply, sent := replies[0], TxRequest(address, page, PageKey(keys, page));
      if Ends(reply, attempts) then TxRun(Records(reply), [sent], EndStop(reply))
      else Then(TxRun(Records(reply), [sent], Pending),
                FixPages(address, replies[1..], keys, NextPage(reply, page), NextAttempts(reply, attempts)))
  }

  /** `get_txlist(address, api_keys)`: with no keys, drawing the first key raises before
      any request; otherwise pagination from page 1. */
  function TxList(address: string, replies: seq<TxReply>, keys: seq<Key>): TxRun
  {
    if keys == [] then TxRun([], [], Raised) else FixPages(address, replies, keys, 1, 0)
  }

  /** In-order concatenation of the records of every successful reply in `replies`. */
  function OkTxs(replies: seq<TxReply>): seq<Json>
  {
    if replies == [] then [] else Records(replies[0]) + OkTxs(replies[1..])
  }

  // ---- Properties of the paginator ----

  /** When the first reply does not end pagination, the run is its request followed by
      the run from the next page and attempt count. */
  lemma FixStep(address: string, replies: seq<TxReply>, keys: seq<Key>, page: nat, attempts: nat)
    requires |keys| > 0 && page >= 1 && attempts < MaxRetries
    requires replies != [] && !Ends(replies[0], attempts)
    ensures NextAttempts(replies[0], attempts) < MaxRetries
    ensures var r := FixPages(address, replies, keys, page, attempts);
      var rest := FixPages(address, replies[1..], keys, NextPage(replies[0], page), NextAttempts(replies[0], attempts));
      && r.requests == [TxRequest(address, page, PageKey(keys, page))] + rest.requests
      && r.txs == Records(replies[0]) + rest.txs
      && r.stop == rest.stop
  {
  }

  /** The records gathered are the in-order concatenation of the result lists of the
      successful attempts used; each successful page is added once. */
  lemma {:induction false} TxsAreOkPages(address: string, replies: seq<TxReply>, keys: seq<Key>, page: nat, attempts: nat)
    requires |keys| > 0 && page >= 1 && attempts < MaxRetries
    ensures var r := FixPages(address, replies, keys, page, attempts);
      r.txs == OkTxs(replies[..|r.requests|])
    decreases |replies|
  {
    if replies != [] {
      var n := |FixPages(address, replies, keys, page, attempts).requests|;
      assert replies[..n][0] == replies[0] && replies[..n][1..] == replies[1..][..n - 1];
      if Ends(replies[0], attempts) {
        assert replies[..n] == [replies[0]];
      } else {
        FixStep(address, replies, keys, page, attempts);
        TxsAreOkPages(address, replies[1..], keys, NextPage(replies[0], page), NextAttempts(replies[0], attempts));
      }
    }
  }

  /** The first request asks for `page`; each later one asks for the next page exactly
      when the attempt before it succeeded, and for the same page otherwise. */
  lemma {:induction false} RequestPages(address: string, replies: seq<TxReply>, keys: seq<Key>, page: nat, attempts: nat)
    requires |keys| > 0 && page >= 1 && attempts < MaxRetries
    ensures var r := FixPages(address, replies, keys, page, attempts);
      && (|r.requests| > 0 ==> r.requests[0].page == page)
      && (forall j :: 0 <= j < |r.requests| - 1 ==> r.requests[j + 1].page == NextPage(replies[j], r.requests[j].page))
    decreases |replies|
  {
    if replies != [] && !Ends(replies[0], attempts) {
      var r := FixPages(address, replies, keys, page, attempts);
      var page', attempts' := NextPage(replies[0], page), NextAttempts(replies[0], attempts);
      var rest := FixPages(address, replies[1..], keys, page', attempts');
      FixStep(address, replies, keys, page, attempts);
      RequestPages(address, replies[1..], keys, page', attempts');
      forall j | 1 <= j < |r.requests| - 1
        ensures r.requests[j] == rest.requests[j - 1] && r.requests[j + 1] == rest.requests[j]
        ensures replies[j] == replies[1..][j - 1]
      {
      }
    }
  }

  /** Every request is for the address and uses the key of its page, so all attempts
      on a page share one key and page `p` uses key `(p - 1) mod |keys|`. */
  lemma {:induction false} RequestKeys(address: string, replies: seq<TxReply>, keys: seq<Key>, page: nat, attempts: nat)
    requires |keys| > 0 && page >= 1 && attempts < MaxRetries
    ensures var r := FixPages(address, replies, keys, page, attempts);
      forall j :: 0 <= j < |r.requests| ==>
        r.requests[j].page >= 1 && r.requests[j] == TxRequest(address, r.requests[j].page, PageKey(keys, r.requests[j].page))
    decreases |replies|
  {
    if replies != [] && !Ends(replies[0], attempts) {
      var r := FixPages(address, replies, keys, page, attempts);
      var page', attempts' := NextPage(replies[0], page), NextAttempts(replies[0], attempts);
      var rest := FixPages(address, replies[1..], keys, page', attempts');
      FixStep(address, replies, keys, page, attempts);
      RequestKeys(address, replies[1..], keys, page', attempts');
      forall j | 1 <= j < |r.requests|
        ensures r.requests[j] == rest.requests[j - 1]
      {
      }
    }
  }

  /** Every attempt before the last one used failed or brought a full page of at least
      100 records. */
  lemma {:induction false} EarlierPagesFull(address: string, replies: seq<TxReply>, keys: seq<Key>, page: nat, attempts: nat)
    requires |keys| > 0 && page >= 1 && attempts < MaxRetries
    ensures var n := |FixPages(address, replies, keys, page, attempts).requests|;
      forall j :: 0 <= j < n - 1 ==> Succeeds(replies[j]) ==> |Records(replies[j])| >= PageSize
    decreases |replies|
  {
    if replies != [] && !Ends(replies[0], attempts) {
      var n := |FixPages(address, replies, keys, page, attempts).requests|;
      FixStep(address, replies, keys, page, attempts);
      EarlierPagesFull(address, replies[1..], keys, NextPage(replies[0], page), NextAttempts(replies[0], attempts));
      forall j | 1 <= j < n - 1
        ensures replies[j] == replies[1..][j - 1]
      {
      }
    }
  }

  /** Pagination ends at its last reply used: `LastPage` after a successful page of
      fewer than 100 records, `GaveUp` after a failed attempt. It is `Pending` only when
      every reply was used. */
  lemma {:induction false} StopOfLastReply(address: string, replies: seq<TxReply>, keys: seq<Key>, page: nat, attempts: nat)
    requires |keys| > 0 && page >= 1 && attempts < MaxRetries
    ensures var r := FixPages(address, replies, keys, page, attempts);
      var n := |r.requests|;
      && r.stop != Raised && r.stop != NotAList
      && (r.stop == Pending ==> n == |replies|)
      && (r.stop == LastPage ==> n > 0 && Succeeds(replies[n - 1]) && |Records(replies[n - 1])| < PageSize)
      && (r.stop == GaveUp ==> n > 0 && !Succeeds(replies[n - 1]))
    decreases |replies|
  {
    if replies != [] && !Ends(replies[0], attempts) {
      var n := |FixPages(address, replies, keys, page, attempts).requests|;
      FixStep(address, replies, keys, page, attempts);
      StopOfLastReply(address, replies[1..], keys, NextPage(replies[0], page), NextAttempts(replies[0], attempts));
      if n > 1 {
        assert replies[n - 1] == replies[1..][n - 2];
      }
    }
  }

  /** Giving up ends a run of failed attempts: either every reply used failed and they
      were the attempts the page had left, or the last three replies used failed. */
  lemma {:induction false} GaveUpAfterFailures(address: string, replies: seq<TxReply>, keys: seq<Key>, page: nat, attempts: nat)
    requires |keys| > 0 && page >= 1 && attempts < MaxRetries
    ensures var r := FixPages(address, replies, keys, page, attempts);
      var n := |r.requests|;
      r.stop == GaveUp ==>
        || (n == MaxRetries - attempts && forall j :: 0 <= j < n ==> !Succeeds(replies[j]))
        || (n >= MaxRetries && forall j :: n - MaxRetries <= j < n ==> !Succeeds(replies[j]))
    decreases |replies|
  {
    if replies != [] && !Ends(replies[0], attempts) {
      var n := |FixPages(address, replies, keys, page, attempts).requests|;
      FixStep(address, replies, keys, page, attempts);
      GaveUpAfterFailures(address, replies[1..], keys, NextPage(replies[0], page), NextAttempts(replies[0], attempts));
      forall j | 1 <= j < n
        ensures replies[j] == replies[1..][j - 1]
      {
      }
    }
  }

  /** From a fresh page, giving up means the last three attempts all failed. */
  lemma GaveUpAfterThreeFailures(address: string, replies: seq<TxReply>, keys: seq<Key>, page: nat)
    requires |keys| > 0 && page >= 1
    ensures var r := FixPages(address, replies, keys, page, 0);
      var n := |r.requests|;
      r.stop == GaveUp ==> n >= MaxRetries && !Succeeds(replies[n - 1]) && !Succeeds(replies[n - 2]) && !Succeeds(replies[n - 3])
  {
    GaveUpAfterFailures(address, replies, keys, page, 0);
  }

  /** No request follows three failed attempts in a row, and while `attempts` failures
      are already counted on the page, no request follows the attempts it has left when
      they all fail: a failure streak cannot outlast the three tries of a page. */
  lemma {:induction false} NoRequestAfterThreeFailures(address: string, replies: seq<TxReply>, keys: seq<Key>, page: nat, attempts: nat)
    requires |keys| > 0 && page >= 1 && attempts < MaxRetries
    ensures var r := FixPages(address, replies, keys, page, attempts);
      && (forall j :: 0 <= j && j + MaxRetries < |r.requests| ==>
            !(!Succeeds(replies[j]) && !Succeeds(replies[j + 1]) && !Succeeds(replies[j + 2])))
      && (MaxRetries - attempts < |r.requests| ==> exists j :: 0 <= j < MaxRetries - attempts && Succeeds(replies[j]))
    decreases |replies|
  {
    if replies != [] && !Ends(replies[0], attempts) {
      var n := |FixPages(address, replies, keys, page, attempts).requests|;
      var attempts' := NextAttempts(replies[0], attempts);
      FixStep(address, replies, keys, page, attempts);
      NoRequestAfterThreeFailures(address, replies[1..], keys, NextPage(replies[0], page), attempts');
      forall j | 1 <= j && j + MaxRetries < n
        ensures !(!Succeeds(replies[j]) && !Succeeds(replies[j + 1]) && !Succeeds(replies[j + 2]))
      {
        assert replies[j] == replies[1..][j - 1] && replies[j + 1] == replies[1..][j] && replies[j + 2] == replies[1..][j + 1];
      }
      if !Succeeds(replies[0]) && MaxRetries - attempts' < n - 1 {
        var k :| 0 <= k < MaxRetries - attempts' && Succeeds(replies[1..][k]);
        assert Succeeds(replies[k + 1]);
      }
    }
  }

  /** From a fresh page, no request follows three failed attempts in a row. */
  lemma AtMostThreeAttempts(address: string, replies: seq<TxReply>, keys: seq<Key>, page: nat)
    requires |keys| > 0 && page >= 1
    ensures var r := FixPages(address, replies, keys, page, 0);
      forall j :: 0 <= j && j + MaxRetries < |r.requests| ==>
        !(!Succeeds(replies[j]) && !Succeeds(replies[j + 1]) && !Succeeds(replies[j + 2]))
  {
    NoRequestAfterThreeFailures(address, replies, keys, page, 0);
  }

  /** Unlike `Etherscan_User.py`, a status "1" reply without a result is retried: three
      of them give up the address with nothing gathered, all on page 1 with the first key. */
  lemma MissingResultIsRetried(address: string, keys: seq<Key>)
    requires |keys| > 0
    ensures var ok := Body(Some(JString("1")), None);
      var req := TxRequest(address, 1, keys[0]);
      TxList(address, [ok, ok, ok], keys) == TxRun([], [req, req, req], GaveUp)
  {
    var ok := Body(Some(JString("1")), None);
    var s := [ok, ok, ok];
    assert s[1..] == [ok, ok] && s[1..][1..] == [ok];
    var req := TxRequest(address, 1, keys[0]);
    assert FixPages(address, [ok], keys, 1, 2) == TxRun([], [req], GaveUp);
    assert FixPages(address, [ok, ok], keys, 1, 1) == TxRun([], [req, req], GaveUp);
  }

  /** An API error does not rotate the key: after a status "0" reply the same page is
      asked again with the same key, and a short page then ends pagination. */
  lemma ApiErrorKeepsKey(address: string, keys: seq<Key>, records: seq<Json>)
    requires |keys| > 1 && |records| < PageSize
    ensures var error, ok := Body(Some(JString("0")), None), Body(Some(JString("1")), Some(JArray(records)));
      TxList(address, [error, ok], keys)
      == TxRun(records, [TxRequest(address, 1, keys[0]), TxRequest(address, 1, keys[0])], LastPage)
  {
    var error, ok := Body(Some(JString("0")), None), Body(Some(JString("1")), Some(JArray(records)));
    assert !Succeeds(error) && Succeeds(ok) && Records(ok) == records;
    assert PageKey(keys, 1) == keys[0];
    var request := TxRequest(address, 1, keys[0]);
    assert FixPages(address, [ok], keys, 1, 1) == TxRun(records, [request], LastPage);
    assert [error, ok][1..] == [ok];
  }

  /** The key of page `p` is the key a pool rotated once per page, as the other two
      scrapers rotate theirs, holds in front after `p - 1` rotations. */
  lemma CycleIsRotation(keys: seq<Key>, page: nat)
    requires |keys| > 0 && page >= 1
    ensures PageKey(keys, page) == Rotated(keys, page - 1)[0]
  {
    RotatedFront(keys, page - 1);
  }

  /** A failed attempt as the next reply: one more request, and either the page is
      given up or it is retried with one more failed attempt counted. */
  lemma AdvanceOnFailure(whole: TxRun, acc: TxRun, address: string, rest: seq<TxReply>, keys: seq<Key>, page: nat, attempts: nat)
    requires |keys| > 0 && page >= 1 && attempts < MaxRetries && rest != [] && !Succeeds(rest[0])
    requires whole == Then(acc, FixPages(address, rest, keys, page, attempts))
    ensures whole == Then(TxRun(acc.txs, acc.requests + [TxRequest(address, page, PageKey(keys, page))], Pending),
                          if attempts + 1 == MaxRetries then TxRun([], [], GaveUp)
                          else FixPages(address, rest[1..], keys, page, attempts + 1))
  {
    var step := TxRun([], [TxRequest(address, page, PageKey(keys, page))], Pending);
    assert acc.txs + [] == acc.txs;
    if attempts + 1 == MaxRetries {
      ThenAssoc(acc, step, TxRun([], [], GaveUp));
    } else {
      ThenAssoc(acc, step, FixPages(address, rest[1..], keys, page, attempts + 1));
    }
  }

  /** A successful attempt as the next reply, after the requests `tries` that failed:
      the page is those requests and the successful one with its records, then the
      end after a short page or the next page. */
  lemma AdvanceOnSuccess(address: string, replies: seq<TxReply>, rest: seq<TxReply>, tries: seq<TxRequest>,
                         keys: seq<Key>, page: nat, attempts: nat)
    requires |keys| > 0 && page >= 1 && attempts < MaxRetries && rest != [] && Succeeds(rest[0])
    requires FixPages(address, replies, keys, page, 0) == Then(TxRun([], tries, Pending), FixPages(address, rest, keys, page, attempts))
    ensures |Records(rest[0])| < PageSize ==>
      FixPages(address, replies, keys, page, 0) == TxRun(Records(rest[0]), tries + [TxRequest(address, page, PageKey(keys, page))], LastPage)
    ensures |Records(rest[0])| >= PageSize ==>
      FixPages(address, replies, keys, page, 0)
      == Then(TxRun(Records(rest[0]), tries + [TxRequest(address, page, PageKey(keys, page))], Pending),
              FixPages(address, rest[1..], keys, page + 1, 0))
  {
    var reply := rest[0];
    var step := TxRun(Records(reply), [TxRequest(address, page, PageKey(keys, page))], Pending);
    assert [] + Records(reply) == Records(reply);
    if |Records(reply)| >= PageSize {
      ThenAssoc(TxRun([], tries, Pending), step, FixPages(address, rest[1..], keys, page + 1, 0));
    }
  }

  /** The retry loop of `get_txlist` (the `for ... else`): attempts page `page` with its
      key `key`, consuming the replies `replies` in order, until an attempt succeeds,
      three attempts have failed, or the replies run out; `rest` is what is left,
      starting with the successful reply. The requests sent are the first ones of the
      pagination from there. */
  method AttemptPage(address: string, replies: seq<TxReply>, page: nat, key: Key, ghost keys: seq<Key>)
    returns (reply: Option<TxReply>, rest: seq<TxReply>, attempts: nat, tries: seq<TxRequest>)
    requires |keys| > 0 && page >= 1 && key == PageKey(keys, page)
    ensures |rest| <= |replies| && attempts == |replies| - |rest| == |tries| && attempts <= MaxRetries
    ensures reply.Some? ==> rest != [] && reply.value == rest[0] && Succeeds(rest[0]) && attempts < MaxRetries
    ensures reply.None? ==> attempts == MaxRetries || rest == []
    ensures attempts == MaxRetries ==>
      FixPages(address, replies, keys, page, 0) == TxRun([], tries, GaveUp)
    ensures attempts < MaxRetries ==>
      FixPages(address, replies, keys, page, 0) == Then(TxRun([], tries, Pending), FixPages(address, rest, keys, page, attempts))
  {
    ghost var whole := FixPages(address, replies, keys, page, 0);
    rest, attempts, tries := replies, 0, [];
    reply := None;
    assert whole == Then(TxRun([], [], Pending), whole);
    while attempts < MaxRetries && reply.None? && rest != []
      invariant |rest| <= |replies| && attempts == |replies| - |rest| == |tries| && attempts <= MaxRetries
      invariant reply.Some? ==> rest != [] && reply.value == rest[0] && Succeeds(rest[0]) && attempts < MaxRetries
      invariant whole == Then(TxRun([], tries, Pending),
                              if attempts == MaxRetries then TxRun([], [], GaveUp) else FixPages(address, rest, keys, page, attempts))
      decreases |rest|, if reply.None? then 1 else 0
    {
      if Succeeds(rest[0]) {
        reply := Some(rest[0]);
      } else {
        AdvanceOnFailure(whole, TxRun([], tries, Pending), address, rest, keys, page, attempts);
        tries := tries + [TxRequest(address, page, key)];
        rest := rest[1..];
        attempts := attempts + 1;
      }
    }
    assert tries + [] == tries;
  }

  /** One step of a cycle of length `n` wraps around. */
  lemma ModNext(a: nat, n: nat)
    requires n > 0
    ensures (a % n + 1) % n == (a + 1) % n
  {
    ModUnique(a, n, a / n, a % n);
    if a % n + 1 == n {
      ModUnique(a + 1, n, a / n + 1, 0);
      ModUnique(a % n + 1, n, 1, 0);
    } else {
      ModUnique(a + 1, n, a / n, a % n + 1);
      ModUnique(a % n + 1, n, 0, a % n + 1);
    }
  }

  /** `next(key_cycle)`: the cycle at `position` yields that key and moves on by one,
      back to the first key after the last. */
  method NextKey(keys: seq<Key>, position: nat, ghost page: nat) returns (key: Key, position': nat)
    requires |keys| > 0 && page >= 1 && position == (page - 1) % |keys|
    ensures key == PageKey(keys, page) && position' == page % |keys|
  {
    key := keys[position];
    position' := (position + 1) % |keys|;
    ModNext(page - 1, |keys|);
  }

  /** `get_txlist`: pages through the address's transactions from page 1, drawing the
      key of each page from a fresh cycle over `apiKeys`. Returns the records gathered,
      the requests sent and how it ended. */
  method GetTxList(address: string, apiKeys: seq<Key>, replies: seq<TxReply>) returns (txs: seq<Json>, sent: seq<TxRequest>, stop: Stop)
    ensures var r := TxList(address, replies, apiKeys);
      txs == r.txs && sent == r.requests && stop == r.stop
  {
    txs, sent := [], [];
    if |apiKeys| == 0 {
      // `next` on a cycle over no keys raises StopIteration.
      stop := Raised;
      return;
    }
    ghost var whole := FixPages(address, replies, apiKeys, 1, 0);
    var page := 1;
    var position := 0;
    var rest := replies;
    assert whole == Then(TxRun([], [], Pending), whole);
    while true
      invariant page >= 1 && position == (page - 1) % |apiKeys|
      invariant whole == Then(TxRun(txs, sent, Pending), FixPages(address, rest, apiKeys, page, 0))
      decreases |rest|
    {
      var apikey;
      apikey, position := NextKey(apiKeys, position, page);
      var reply, rest', attempts, tries := AttemptPage(address, rest, page, apikey, apiKeys);
      if attempts == MaxRetries || reply.None? {
        assert txs + [] == txs && tries + [] == tries;
        sent := sent + tries;
        stop := if attempts == MaxRetries then GaveUp else Pending;
        return;
      }
      var data := reply.value;
      var request := TxRequest(address, page, apikey);
      AdvanceOnSuccess(address, rest, rest', tries, apiKeys, page, attempts);
      var records := data.result.value.items;
      if |records| < PageSize {
        assert txs + records + [] == txs + records;
        assert sent + (tries + [request]) + [] == sent + (tries + [request]);
      } else {
        ThenAssoc(TxRun(txs, sent, Pending), TxRun(records, tries + [request], Pending),
                  FixPages(address, rest'[1..], apiKeys, page + 1, 0));
      }
      txs := txs + records;
      sent := sent + (tries + [request]);
      if |records| < PageSize {
        stop := LastPage;
        return;
      }
      page := page + 1;
      rest := rest'[1..];
    }
  }

  /** `save_json`: the output directory after atomically writing `<address>.json`. The
      file holds the payload, its count is the number of records, the temporary file
      does not survive and no other file changes. */
  function SaveJson(dir: map<string, AddressFile>, address: string, txs: seq<Json>): (r: map<string, AddressFile>)
    ensures AddressFileName(address) in r && r[AddressFileName(address)] == AddressFileOf(address, txs)
    ensures r[AddressFileName(address)].transactionCount == |txs|
    ensures TempPath(AddressFileName(address)) !in r
    ensures forall f :: f in dir && f != AddressFileName(address) && f != TempPath(AddressFileName(address)) ==> f in r && r[f] == dir[f]
  {
    AtomicWrite(dir, AddressFileName(address), AddressFileOf(address, txs))
  }

  /** Saving one address leaves the file of every other address as it was. */
  lemma SaveJsonKeepsOtherAddresses(dir: map<string, AddressFile>, address: string, txs: seq<Json>, other: string)
    requires other != address && AddressFileName(other) in dir
    ensures var r := SaveJson(dir, address, txs);
      AddressFileName(other) in r && r[AddressFileName(other)] == dir[AddressFileName(other)]
  {
    AddressFileNameRoundTrip(address);
    AddressFileNameRoundTrip(other);
    TempIsNoAddressFile(address, other);
  }
}
