/** The buyer/seller address scraper of `Etherscan_User.py`: the page-number paginator
    of `get_all_txlist_for_address` as a function of the replies, one reply per
    attempt, and the `EtherscanScraper` class around it, for one worker at a time. */
module EtherscanUser {
  import opened Common
  import opened KeyRotation
  import opened EtherscanApi

  /** `data.get("result", [])` when it is a list: a missing result is an empty list. */
  function ResultList(reply: TxReply): Option<seq<Json>>
  {
    if reply.Body? then
      match reply.result
      case None => Some([])
      case Some(JArray(items)) => Some(items)
      case Some(_) => None
    else None
  }

  /** An attempt that is retried: an exception caught as a `RequestException`, or an
      object whose status is not "1". */
  predicate Fails(reply: TxReply)
  {
    reply.RequestFailed? || (reply.Body? && !StatusOk(reply))
  }

  /** A reply that ends pagination, given the failed attempts already made on the page:
      the third failed attempt, a body that is not an object (the `.get` call raises),
      or a successful reply whose result is not a list or holds fewer than 100 records. */
  predicate Ends(reply: TxReply, attempts: nat)
  {
    if Fails(reply) then attempts + 1 == MaxRetries
    else reply.NotAnObject? || ResultList(reply).None? || |ResultList(reply).value| < PageSize
  }

  /** How a reply that ends pagination ends it. */
  function EndStop(reply: TxReply): Stop
  {
    if reply.NotAnObject? then Raised
    else if Fails(reply) then GaveUp
    else if ResultList(reply).None? then NotAList
    else LastPage
  }

  /** The records a reply adds: the result list of a successful reply. */
  function PageTxs(reply: TxReply): seq<Json>
  {
    if StatusOk(reply) && ResultList(reply).Some? then ResultList(reply).value else []
  }

  /** The page of the request after `reply`: the next page after a successful one. */
  function NextPage(reply: TxReply, page: nat): nat
  {
    if StatusOk(reply) then page + 1 else page
  }

  /** The failed attempts counted for the request after `reply`. */
  function NextAttempts(reply: TxReply, attempts: nat): nat
  {
    if StatusOk(reply) then 0 else attempts + 1
  }

  /** The pagination of `address` with the key `key` from page `page`, with `attempts`
      failed attempts already made on it. Each reply adds its request and its records;
      the first reply that ends pagination is the last one used. */
  function UserPages(address: string, replies: seq<TxReply>, key: Key, page: nat, attempts: nat): (r: TxRun)
    requires attempts < MaxRetries
    ensures |r.requests| <= |replies|
    ensures replies != [] ==> |r.requests| > 0
    decreases |replies|
  {
    if replies == [] then TxRun([], [], Pending)
    else
      var reply, sent := replies[0], TxRequest(address, page, key);
      if Ends(reply, attempts) then TxRun(PageTxs(reply), [sent], EndStop(reply))
      else Then(TxRun(PageTxs(reply), [sent], Pending),
                UserPages(address, replies[1..], key, NextPage(reply, page), NextAttempts(reply, attempts)))
  }

  /** In-order concatenation of the records of every successful reply in `replies`. */
  function OkTxs(replies: seq<TxReply>): seq<Json>
  {
    if replies == [] then [] else PageTxs(replies[0]) + OkTxs(replies[1..])
  }

  // ---- Properties of the paginator ----

  /** When the first reply does not end pagination, the run is its request followed by
      the run from the next page and attempt count. */
  lemma PagesStep(address: string, replies: seq<TxReply>, key: Key, page: nat, attempts: nat)
    requires attempts < MaxRetries && replies != [] && !Ends(replies[0], attempts)
    ensures NextAttempts(replies[0], attempts) < MaxRetries
    ensures var r := UserPages(address, replies, key, page, attempts);
      var rest := UserPages(address, replies[1..], key, NextPage(replies[0], page), NextAttempts(replies[0], attempts));
      && r.requests == [TxRequest(address, page, key)] + rest.requests
      && r.txs == PageTxs(replies[0]) + rest.txs
      && r.stop == rest.stop
  {
  }

  /** The records gathered are the in-order concatenation of the result lists of the
      successful replies used; failed attempts and a non-list result add nothing. */
  lemma {:induction false} TxsAreOkPages(address: string, replies: seq<TxReply>, key: Key, page: nat, attempts: nat)
    requires attempts < MaxRetries
    ensures var r := UserPages(address, replies, key, page, attempts);
      r.txs == OkTxs(replies[..|r.requests|])
    decreases |replies|
  {
    if replies != [] {
      var n := |UserPages(address, replies, key, page, attempts).requests|;
      assert replies[..n][0] == replies[0] && replies[..n][1..] == replies[1..][..n - 1];
      if Ends(replies[0], attempts) {
        assert replies[..n] == [replies[0]];
      } else {
        PagesStep(address, replies, key, page, attempts);
        TxsAreOkPages(address, replies[1..], key, NextPage(replies[0], page), NextAttempts(replies[0], attempts));
      }
    }
  }

  /** Every request is for the address with the same key; the first asks for `page`,
      and each later one asks for the next page exactly when the reply before it was
      successful, and for the same page otherwise. */
  lemma {:induction false} RequestPages(address: string, replies: seq<TxReply>, key: Key, page: nat, attempts: nat)
    requires attempts < MaxRetries
    ensures var r := UserPages(address, replies, key, page, attempts);
      && (|r.requests| > 0 ==> r.requests[0] == TxRequest(address, page, key))
      && forall j :: 0 <= j < |r.requests| - 1 ==>
           r.requests[j + 1] == TxRequest(address, NextPage(replies[j], r.requests[j].page), key)
    decreases |replies|
  {
    if replies != [] && !Ends(replies[0], attempts) {
      var r := UserPages(address, replies, key, page, attempts);
      var page', attempts' := NextPage(replies[0], page), NextAttempts(replies[0], attempts);
      var rest := UserPages(address, replies[1..], key, page', attempts');
      PagesStep(address, replies, key, page, attempts);
      RequestPages(address, replies[1..], key, page', attempts');
      forall j | 0 <= j < |r.requests| - 1
        ensures r.requests[j + 1] == TxRequest(address, NextPage(replies[j], r.requests[j].page), key)
      {
        if j > 0 {
          assert r.requests[j] == rest.requests[j - 1] && replies[j] == replies[1..][j - 1];
        }
      }
    }
  }

  /** Every reply before the last one used was a failed attempt or a successful page
      of at least 100 records: none raised and none was a short or non-list page. */
  lemma {:induction false} EarlierPagesFull(address: string, replies: seq<TxReply>, key: Key, page: nat, attempts: nat)
    requires attempts < MaxRetries
    ensures var n := |UserPages(address, replies, key, page, attempts).requests|;
      forall j :: 0 <= j < n - 1 ==>
        Fails(replies[j]) || (StatusOk(replies[j]) && ResultList(replies[j]).Some? && |ResultList(replies[j]).value| >= PageSize)
    decreases |replies|
  {
    if replies != [] && !Ends(replies[0], attempts) {
      var n := |UserPages(address, replies, key, page, attempts).requests|;
      PagesStep(address, replies, key, page, attempts);
      EarlierPagesFull(address, replies[1..], key, NextPage(replies[0], page), NextAttempts(replies[0], attempts));
      forall j | 1 <= j < n - 1
        ensures Fails(replies[j]) || (StatusOk(replies[j]) && ResultList(replies[j]).Some? && |ResultList(replies[j]).value| >= PageSize)
      {
        assert replies[j] == replies[1..][j - 1];
      }
    }
  }

  /** Pagination ends at its last reply used, as that reply says: `Raised` for a body
      that is not an object, `GaveUp` for a failed attempt, `NotAList` for a successful
      reply whose result is not a list (it adds nothing) and `LastPage` for a short
      page. It is `Pending` only when every reply was used. */
  lemma {:induction false} StopOfLastReply(address: string, replies: seq<TxReply>, key: Key, page: nat, attempts: nat)
    requires attempts < MaxRetries
    ensures var r := UserPages(address, replies, key, page, attempts);
      var n := |r.requests|;
      && (r.stop == Pending ==> n == |replies|)
      && (r.stop != Pending ==> n > 0 && r.stop == EndStop(replies[n - 1]))
      && (r.stop == NotAList ==> StatusOk(replies[n - 1]) && ResultList(replies[n - 1]).None? && PageTxs(replies[n - 1]) == [])
      && (r.stop == LastPage ==> StatusOk(replies[n - 1]) && ResultList(replies[n - 1]).Some? && |ResultList(replies[n - 1]).value| < PageSize)
    decreases |replies|
  {
    if replies != [] && !Ends(replies[0], attempts) {
      var n := |UserPages(address, replies, key, page, attempts).requests|;
      PagesStep(address, replies, key, page, attempts);
      StopOfLastReply(address, replies[1..], key, NextPage(replies[0], page), NextAttempts(replies[0], attempts));
      if n > 1 {
        assert replies[n - 1] == replies[1..][n - 2];
      }
    }
  }

  /** Giving up ends a run of failed attempts: either every reply used failed and they
      were the attempts the page had left, or the last three replies used failed. */
  lemma {:induction false} GaveUpAfterFailures(address: string, replies: seq<TxReply>, key: Key, page: nat, attempts: nat)
    requires attempts < MaxRetries
    ensures var r := UserPages(address, replies, key, page, attempts);
      var n := |r.requests|;
      r.stop == GaveUp ==>
        || (n == MaxRetries - attempts && forall j :: 0 <= j < n ==> Fails(replies[j]))
        || (n >= MaxRetries && forall j :: n - MaxRetries <= j < n ==> Fails(replies[j]))
    decreases |replies|
  {
    if replies != [] && !Ends(replies[0], attempts) {
      var n := |UserPages(address, replies, key, page, attempts).requests|;
      PagesStep(address, replies, key, page, attempts);
      GaveUpAfterFailures(address, replies[1..], key, NextPage(replies[0], page), NextAttempts(replies[0], attempts));
      forall j | 1 <= j < n
        ensures replies[j] == replies[1..][j - 1]
      {
      }
    }
  }

  /** From a fresh page, giving up means the last three attempts all failed. */
  lemma GaveUpAfterThreeFailures(address: string, replies: seq<TxReply>, key: Key, page: nat)
    ensures var r := UserPages(address, replies, key, page, 0);
      var n := |r.requests|;
      r.stop == GaveUp ==> n >= MaxRetries && Fails(replies[n - 1]) && Fails(replies[n - 2]) && Fails(replies[n - 3])
  {
    GaveUpAfterFailures(address, replies, key, page, 0);
  }

  /** No request follows three failed attempts in a row, and while `attempts` failures
      are already counted on the page, no request follows the attempts it has left when
      they all fail: a failure streak cannot outlast the three tries of a page. */
  lemma {:induction false} NoRequestAfterThreeFailures(address: string, replies: seq<TxReply>, key: Key, page: nat, attempts: nat)
    requires attempts < MaxRetries
    ensures var r := UserPages(address, replies, key, page, attempts);
      && (forall j :: 0 <= j && j + MaxRetries < |r.requests| ==>
            !(Fails(replies[j]) && Fails(replies[j + 1]) && Fails(replies[j + 2])))
      && (MaxRetries - attempts < |r.requests| ==> exists j :: 0 <= j < MaxRetries - attempts && !Fails(replies[j]))
    decreases |replies|
  {
    if replies != [] && !Ends(replies[0], attempts) {
      var n := |UserPages(address, replies, key, page, attempts).requests|;
      var attempts' := NextAttempts(replies[0], attempts);
      PagesStep(address, replies, key, page, attempts);
      NoRequestAfterThreeFailures(address, replies[1..], key, NextPage(replies[0], page), attempts');
      forall j | 1 <= j && j + MaxRetries < n
        ensures !(Fails(replies[j]) && Fails(replies[j + 1]) && Fails(replies[j + 2]))
      {
        assert replies[j] == replies[1..][j - 1] && replies[j + 1] == replies[1..][j] && replies[j + 2] == replies[1..][j + 1];
      }
      if Fails(replies[0]) && MaxRetries - attempts' < n - 1 {
        var k :| 0 <= k < MaxRetries - attempts' && !Fails(replies[1..][k]);
        assert !Fails(replies[k + 1]);
      }
    }
  }

  /** From a fresh page, no request follows three failed attempts in a row. */
  lemma AtMostThreeAttempts(address: string, replies: seq<TxReply>, key: Key, page: nat)
    ensures var r := UserPages(address, replies, key, page, 0);
      forall j :: 0 <= j && j + MaxRetries < |r.requests| ==>
        !(Fails(replies[j]) && Fails(replies[j + 1]) && Fails(replies[j + 2]))
  {
    NoRequestAfterThreeFailures(address, replies, key, page, 0);
  }

  /** A successful reply with no `result` member is an empty last page. */
  lemma MissingResultIsLastPage(address: string, key: Key, later: seq<TxReply>)
    ensures UserPages(address, [Body(Some(JString("1")), None)] + later, key, 1, 0)
         == TxRun([], [TxRequest(address, 1, key)], LastPage)
  {
  }

  /** A full page then a short page: two requests, pages 1 and 2, and both pages' records. */
  lemma FullThenShortPage(address: string, key: Key, full: seq<Json>, short: seq<Json>)
    requires |full| == PageSize && |short| < PageSize
    ensures var r := UserPages(address, [Body(Some(JString("1")), Some(JArray(full))), Body(Some(JString("1")), Some(JArray(short)))], key, 1, 0);
      r == TxRun(full + short, [TxRequest(address, 1, key), TxRequest(address, 2, key)], LastPage)
  {
    var s := [Body(Some(JString("1")), Some(JArray(full))), Body(Some(JString("1")), Some(JArray(short)))];
    assert s[1..] == [Body(Some(JString("1")), Some(JArray(short)))];
  }

  /** A failed attempt as the next reply: one more request, and either the page is
      given up or it is retried with one more failed attempt counted. */
  lemma AdvanceOnFailure(whole: TxRun, acc: TxRun, address: string, rest: seq<TxReply>, key: Key, page: nat, attempts: nat)
    requires attempts < MaxRetries && rest != [] && Fails(rest[0])
    requires whole == Then(acc, UserPages(address, rest, key, page, attempts))
    ensures whole == Then(TxRun(acc.txs, acc.requests + [TxRequest(address, page, key)], Pending),
                          if attempts + 1 == MaxRetries then TxRun([], [], GaveUp)
                          else UserPages(address, rest[1..], key, page, attempts + 1))
  {
    var step := TxRun([], [TxRequest(address, page, key)], Pending);
    assert acc.txs + [] == acc.txs;
    if attempts + 1 == MaxRetries {
      ThenAssoc(acc, step, TxRun([], [], GaveUp));
    } else {
      ThenAssoc(acc, step, UserPages(address, rest[1..], key, page, attempts + 1));
    }
  }

  /** A reply that ends the attempts on a page without failing, after the requests
      `tries` that failed: the pagination is those requests and the reply's request,
      then its end or the next page. */
  lemma AdvanceOnReply(address: string, replies: seq<TxReply>, rest: seq<TxReply>, tries: seq<TxRequest>, key: Key, page: nat, attempts: nat)
    requires attempts < MaxRetries && rest != [] && !Fails(rest[0])
    requires UserPages(address, replies, key, page, 0) == Then(TxRun([], tries, Pending), UserPages(address, rest, key, page, attempts))
    ensures Ends(rest[0], 0) ==>
      UserPages(address, replies, key, page, 0) == TxRun(PageTxs(rest[0]), tries + [TxRequest(address, page, key)], EndStop(rest[0]))
    ensures !Ends(rest[0], 0) ==>
      UserPages(address, replies, key, page, 0)
      == Then(TxRun(PageTxs(rest[0]), tries + [TxRequest(address, page, key)], Pending), UserPages(address, rest[1..], key, page + 1, 0))
  {
    var reply := rest[0];
    var step := TxRun(PageTxs(reply), [TxRequest(address, page, key)], Pending);
    assert Ends(reply, attempts) == Ends(reply, 0);
    assert [] + PageTxs(reply) == PageTxs(reply);
    if !Ends(reply, 0) {
      ThenAssoc(TxRun([], tries, Pending), step, UserPages(address, rest[1..], key, page + 1, 0));
    }
  }

  /** The retry loop of `get_all_txlist_for_address`: attempts page `page` with `key`,
      consuming the replies `replies` in order, until a reply that does not fail, three
      failed attempts, or the replies run out; `rest` is what is left, starting with
      that reply. The requests sent are the first ones of the pagination from there. */
  method AttemptPage(address: string, replies: seq<TxReply>, key: Key, page: nat)
    returns (reply: Option<TxReply>, rest: seq<TxReply>, attempts: nat, tries: seq<TxRequest>)
    ensures |rest| <= |replies| && attempts == |replies| - |rest| == |tries| && attempts <= MaxRetries
    ensures reply.Some? ==> rest != [] && reply.value == rest[0] && !Fails(rest[0]) && attempts < MaxRetries
    ensures reply.None? ==> attempts == MaxRetries || rest == []
    ensures attempts == MaxRetries ==>
      UserPages(address, replies, key, page, 0) == TxRun([], tries, GaveUp)
    ensures attempts < MaxRetries ==>
      UserPages(address, replies, key, page, 0) == Then(TxRun([], tries, Pending), UserPages(address, rest, key, page, attempts))
  {
    ghost var whole := UserPages(address, replies, key, page, 0);
    rest, attempts, tries := replies, 0, [];
    reply := None;
    assert whole == Then(TxRun([], [], Pending), whole);
    while attempts < MaxRetries && reply.None? && rest != []
      invariant |rest| <= |replies| && attempts == |replies| - |rest| == |tries| && attempts <= MaxRetries
      invariant reply.Some? ==> rest != [] && reply.value == rest[0] && !Fails(rest[0]) && attempts < MaxRetries
      invariant whole == Then(TxRun([], tries, Pending),
                              if attempts == MaxRetries then TxRun([], [], GaveUp) else UserPages(address, rest, key, page, attempts))
      decreases |rest|, if reply.None? then 1 else 0
    {
      if Fails(rest[0]) {
        AdvanceOnFailure(whole, TxRun([], tries, Pending), address, rest, key, page, attempts);
        tries := tries + [TxRequest(address, page, key)];
        rest := rest[1..];
        attempts := attempts + 1;
      } else {
        reply := Some(rest[0]);
      }
    }
    assert tries + [] == tries;
  }

  class EtherscanScraper {
    /** The module-level `API_KEYS` deque; its front is the key in use. */
    var apiKeys: seq<Key>
    var currentKey: Key
    var failedAddresses: seq<string>
    var processed: set<string>
    /** The output directory: file name to saved contents. */
    var files: map<string, AddressFile>
    /** The contents of `progress.json` last written by this scraper, if any. */
    var savedProgress: Option<set<string>>

    /** `failed_addresses` stays empty: `ProcessAddress` appends to it only when
        pagination returns no list, and it always returns one. */
    ghost predicate Valid()
      reads this
    {
      |apiKeys| > 0 && currentKey == apiKeys[0] && failedAddresses == []
    }

    /** `loaded` is what `_load_progress` read (empty when the file is absent or
        unreadable); `existing` is what the output directory already holds. */
    constructor (keys: seq<Key>, loaded: set<string>, existing: map<string, AddressFile>)
      requires |keys| > 0
      ensures Valid()
      ensures apiKeys == keys && processed == loaded && files == existing && savedProgress == None
    {
      apiKeys := keys;
      currentKey := keys[0];
      failedAddresses := [];
      processed := loaded;
      files := existing;
      savedProgress := None;
    }

    /** `_rotate_key`: the front key moves to the back and the new front is the current
        key. Nothing in the scraper calls it. */
    method RotateKey()
      requires Valid()
      modifies this`apiKeys, this`currentKey
      ensures Valid()
      ensures apiKeys == RotateLeft(old(apiKeys))
      ensures multiset(apiKeys) == multiset(old(apiKeys))
    {
      apiKeys := RotateLeft(apiKeys);
      currentKey := apiKeys[0];
      RotatedFront(old(apiKeys), 1);
    }

    /** `get_all_txlist_for_address`: pages through the address's transactions with the
        current key from page 1. Returns the list of records gathered, the requests sent
        and how it ended. Whenever the call returns, it returns a list; it returns
        nothing when the exception leaves it (`Raised`) or before it has returned
        (`Pending`). It changes nothing. */
    method GetAllTxlist(address: string, replies: seq<TxReply>) returns (txData: Option<seq<Json>>, sent: seq<TxRequest>, stop: Stop)
      ensures var r := UserPages(address, replies, currentKey, 1, 0);
        && sent == r.requests && stop == r.stop
        && (txData.Some? <==> stop != Raised && stop != Pending)
        && (txData.Some? ==> txData.value == r.txs)
    {
      var txs: seq<Json>;
      ghost var whole := UserPages(address, replies, currentKey, 1, 0);
      txs, sent := [], [];
      var page := 1;
      var rest := replies;
      assert whole == Then(TxRun([], [], Pending), whole);
      while true
        invariant whole == Then(TxRun(txs, sent, Pending), UserPages(address, rest, currentKey, page, 0))
        decreases |rest|
      {
        var reply, rest', attempts, tries := AttemptPage(address, rest, currentKey, page);
        if attempts == MaxRetries || reply.None? {
          assert txs + [] == txs && tries + [] == tries;
          sent := sent + tries;
          stop := if attempts == MaxRetries then GaveUp else Pending;
          txData := if stop == GaveUp then Some(txs) else None;
          return;
        }
        var data := reply.value;
        var request := TxRequest(address, page, currentKey);
        AdvanceOnReply(address, rest, rest', tries, currentKey, page, attempts);
        if Ends(data, 0) {
          assert txs + PageTxs(data) + [] == txs + PageTxs(data);
          assert sent + (tries + [request]) + [] == sent + (tries + [request]);
        } else {
          ThenAssoc(TxRun(txs, sent, Pending), TxRun(PageTxs(data), tries + [request], Pending),
                    UserPages(address, rest'[1..], currentKey, page + 1, 0));
        }
        sent := sent + (tries + [request]);
        if data.NotAnObject? {
          stop, txData := Raised, None;
          return;
        }
        var txList := ResultList(data);
        if txList.None? {
          stop, txData := NotAList, Some(txs);
          return;
        }
        txs := txs + txList.value;
        if |txList.value| < PageSize {
          stop, txData := LastPage, Some(txs);
          return;
        }
        page := page + 1;
        rest := rest'[1..];
      }
    }

    /** `_save_address_file`: atomically writes the address's records to `<address>.json`. */
    method SaveAddressFile(address: string, txs: seq<Json>)
      modifies this`files
      ensures files == AtomicWrite(old(files), AddressFileName(address), AddressFileOf(address, txs))
    {
      var filename := AddressFileName(address);
      var payload := AddressFileOf(address, txs);
      files := files[TempPath(filename) := payload];
      assert files - {TempPath(filename)} == old(files) - {TempPath(filename)};
      files := (files - {TempPath(filename)})[filename := payload];
    }

    /** `_save_progress`: writes the processed set to `progress.json`. */
    method SaveProgress()
      modifies this`savedProgress
      ensures savedProgress == Some(processed)
    {
      savedProgress := Some(processed);
    }

    /** `process_address`: an address whose file exists is marked processed without a
        request; an address already processed is skipped; any other is paginated,
        saved, marked processed and the progress saved, unless the pagination raised or
        has not returned. The branch that records a failed address is never taken:
        `failed_addresses` never grows. */
    method ProcessAddress(address: string, replies: seq<TxReply>) returns (sent: seq<TxRequest>)
      requires Valid()
      modifies this
      ensures Valid()
      ensures apiKeys == old(apiKeys) && failedAddresses == old(failedAddresses)
      ensures AddressFileName(address) in old(files) ==>
        && sent == [] && processed == old(processed) + {address}
        && files == old(files) && savedProgress == old(savedProgress)
      ensures AddressFileName(address) !in old(files) && address in old(processed) ==> sent == [] && unchanged(this)
      ensures AddressFileName(address) !in old(files) && address !in old(processed) ==>
        var r := UserPages(address, replies, old(currentKey), 1, 0);
        && sent == r.requests
        && (r.stop in {Raised, Pending} ==>
              processed == old(processed) && files == old(files) && savedProgress == old(savedProgress))
        && (r.stop !in {Raised, Pending} ==>
              && processed == old(processed) + {address}
              && files == AtomicWrite(old(files), AddressFileName(address), AddressFileOf(address, r.txs))
              && savedProgress == Some(processed))
    {
      sent := [];
      var filename := AddressFileName(address);
      if filename in files {
        processed := processed + {address};
        return;
      }
      if address in processed {
        return;
      }
      var txData, stop;
      txData, sent, stop := GetAllTxlist(address, replies);
      if stop == Raised || stop == Pending {
        // The exception left the call, or the call has not returned yet.
        return;
      }
      if txData.Some? {
        SaveAddressFile(address, txData.value);
        processed := processed + {address};
        SaveProgress();
      } else {
        // `failed_addresses.append(address)`: unreachable, since a call that returns
        // always returns a list.
        assert false;
      }
    }
  }
}
