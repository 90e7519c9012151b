/** The OpenSea event scraper: its shared state, key rotation, the nested-loop
    paginator, the atomic saves and `process_token`, for one worker at a time. */
module EventScraperModel {
  import opened Common
  import opened KeyRotation
  import opened NftNames
  import opened OpenSeaPagination

  /** An input token: `str(token["token_id"])` and the optional "name" member. */
  datatype Token = Token(tokenId: string, name: Option<string>)

  /** `token.get("name", token_id)` */
  function NftNameOf(token: Token): string
  {
    if token.name.Some? then token.name.value else token.tokenId
  }

  /** The retry loop of `_handle_pagination`: sends the request for `cursor` with the
      current key, the front of `keys`, consuming the replies `replies` in order, until
      a response arrives, three transport failures have been counted, or the replies
      run out; `rest` is what is left, starting with the response. The requests sent
      are the first ones of the pagination from that state. */
  method SendRequest(tokenId: string, replies: seq<Reply>, keys: seq<Key>, cursor: Option<string>)
    returns (response: Option<Reply>, rest: seq<Reply>, failures: nat, tries: seq<Request>)
    requires |keys| > 0
    ensures |rest| <= |replies| && failures == |replies| - |rest| == |tries| && failures <= MaxRetries
    ensures response.Some? ==> rest != [] && response.value == rest[0] && rest[0].Response? && failures < MaxRetries
    ensures response.None? ==> failures == MaxRetries || rest == []
    ensures failures == MaxRetries ==>
      Paginate(tokenId, replies, keys, cursor, 0) == Run([], tries, 0, [], Failed)
    ensures failures < MaxRetries ==>
      Paginate(tokenId, replies, keys, cursor, 0) == Then(Run([], tries, 0, [], Pending), Paginate(tokenId, rest, keys, cursor, failures))
  {
    ghost var whole := Paginate(tokenId, replies, keys, cursor, 0);
    rest, failures, tries := replies, 0, [];
    response := None;
    assert whole == Then(Run([], [], 0, [], Pending), whole);
    while failures < MaxRetries && response.None? && rest != []
      invariant |rest| <= |replies| && failures == |replies| - |rest| == |tries| && failures <= MaxRetries
      invariant response.Some? ==> rest != [] && response.value == rest[0] && rest[0].Response? && failures < MaxRetries
      invariant whole == Then(Run([], tries, 0, [], Pending),
                              if failures == MaxRetries then Run([], [], 0, [], Failed) else Paginate(tokenId, rest, keys, cursor, failures))
      decreases |rest|, if response.None? then 1 else 0
    {
      if rest[0].RequestError? {
        AdvanceOnError(whole, Run([], tries, 0, [], Pending), tokenId, rest, keys, cursor, failures);
        tries := tries + [Request(tokenId, cursor, keys[0])];
        rest := rest[1..];
        failures := failures + 1;
      } else {
        response := Some(rest[0]);
      }
    }
    assert tries + [] == tries;
  }

  class EventScraper {
    /** The module-level `API_KEYS` deque; its front is the key in use. */
    var apiKeys: seq<Key>
    var currentKey: Key
    var failedTokens: seq<string>
    var processed: set<string>
    /** The output directory: file name to saved contents. */
    var outputFiles: map<string, NftFile>
    /** The contents of `progress.json` last written by this scraper, if any. */
    var savedProgress: Option<set<string>>

    ghost predicate Valid()
      reads this
    {
      |apiKeys| > 0 && currentKey == apiKeys[0]
    }

    /** `loaded` is what `_load_progress` read (empty when the file is absent or
        unreadable); `existing` is what the output directory already holds. */
    constructor (keys: seq<Key>, loaded: set<string>, existing: map<string, NftFile>)
      requires |keys| > 0
      ensures Valid()
      ensures apiKeys == keys && failedTokens == [] && processed == loaded
      ensures outputFiles == existing && savedProgress == None
    {
      apiKeys := keys;
      currentKey := keys[0];
      failedTokens := [];
      processed := loaded;
      outputFiles := existing;
      savedProgress := None;
    }

    /** `_rotate_key`: the front key moves to the back and becomes the last one
        tried; the new front is the current key. */
    method RotateKey()
      requires Valid()
      modifies this`apiKeys, this`currentKey
      ensures Valid()
      ensures apiKeys == RotateLeft(old(apiKeys))
      ensures multiset(apiKeys) == multiset(old(apiKeys))
    {
      apiKeys := RotateLeft(apiKeys);
      currentKey := apiKeys[0];
      RotatedFront(old(apiKeys), 1);
    }

    /** One pass of the outer loop of `_handle_pagination`: the request for `cursor` with
        its retries, then the handling of the response. What it sends, gathers and waits
        is the first page of the pagination from that state; it stops where the
        pagination ends, and otherwise leaves the state of the next page and the
        replies `rest` not yet used, fewer than `replies`. */
    method FetchPage(tokenId: string, replies: seq<Reply>, cursor: Option<string>)
      returns (pageEvents: seq<Json>, sent: seq<Request>, wait: seq<int>, rest: seq<Reply>, nextCursor: Option<string>, stop: bool,
               ghost rotations: nat, outcome: Outcome)
      requires Valid()
      modifies this`apiKeys, this`currentKey, this`failedTokens
      ensures Valid() && (!stop ==> |rest| < |replies|)
      ensures apiKeys == Rotated(old(apiKeys), rotations)
      ensures failedTokens == old(failedTokens) + if stop && outcome == Failed then [tokenId] else []
      ensures stop ==>
        Paginate(tokenId, replies, old(apiKeys), cursor, 0) == Run(pageEvents, sent, rotations, wait, outcome)
      ensures !stop ==>
        Paginate(tokenId, replies, old(apiKeys), cursor, 0)
        == Then(Run(pageEvents, sent, rotations, wait, Pending), Paginate(tokenId, rest, apiKeys, nextCursor, 0))
    {
      var keys := apiKeys;
      var response, failures;
      response, rest, failures, sent := SendRequest(tokenId, replies, keys, cursor);
      pageEvents, wait, nextCursor, rotations := [], [], cursor, 0;
      if failures == MaxRetries {
        failedTokens := failedTokens + [tokenId];
        stop, outcome := true, Failed;
      } else if response.None? {
        // The replies ran out while the request was still being retried.
        assert sent + [] == sent;
        stop, outcome := true, Pending;
      } else {
        var reply := response.value;
        AdvanceOnResponse(tokenId, replies, rest, sent, keys, cursor, failures);
        NextKeysRotated(keys, 0, reply);
        sent := sent + [Request(tokenId, cursor, currentKey)];
        pageEvents, wait, nextCursor, stop := ApplyResponse(tokenId, reply, cursor);
        rotations := AuthRotations(reply);
        outcome := if stop then EndOutcome(reply) else Pending;
        rest := rest[1..];
      }
    }

    /** `_handle_pagination`: requests pages of `tokenId`, one reply of `script` per
        request. Returns the events gathered, the requests sent, the Retry-After waits
        and how pagination ended (`Pending`: it has not returned yet); rotates the key
        on 401 and records the token as failed when it gives up. */
    method HandlePagination(tokenId: string, script: seq<Reply>)
      returns (events: seq<Json>, sent: seq<Request>, waits: seq<int>, outcome: Outcome)
      requires Valid()
      modifies this`apiKeys, this`currentKey, this`failedTokens
      ensures Valid()
      ensures var r := Paginate(tokenId, script, old(apiKeys), None, 0);
        && events == r.events && sent == r.requests && waits == r.waits && outcome == r.outcome
        && apiKeys == Rotated(old(apiKeys), r.rotations)
        && failedTokens == old(failedTokens) + (if r.outcome == Failed then [tokenId] else [])
    {
      ghost var whole := Paginate(tokenId, script, apiKeys, None, 0);
      ghost var rotations: nat := 0;
      events, sent, waits := [], [], [];
      var cursor: Option<string> := None;
      var rest := script;
      while true
        invariant Valid()
        invariant apiKeys == Rotated(old(apiKeys), rotations)
        invariant failedTokens == old(failedTokens)
        invariant whole == Then(Run(events, sent, rotations, waits, Pending), Paginate(tokenId, rest, apiKeys, cursor, 0))
        decreases |rest|
      {
        var pageEvents, pageSent, wait, next, nextCursor, stop, pageRotations, pageOutcome := FetchPage(tokenId, rest, cursor);
        RotatedCompose(old(apiKeys), rotations, pageRotations);
        ghost var page := Run(pageEvents, pageSent, pageRotations, wait, Pending);
        if stop {
          events, sent, waits, rotations := events + pageEvents, sent + pageSent, waits + wait, rotations + pageRotations;
          outcome := pageOutcome;
          break;
        }
        ThenAssoc(Run(events, sent, rotations, waits, Pending), page, Paginate(tokenId, next, apiKeys, nextCursor, 0));
        events, sent, waits, rotations := events + pageEvents, sent + pageSent, waits + wait, rotations + pageRotations;
        rest, cursor := next, nextCursor;
      }
    }

    /** The handling of one response in `_handle_pagination`: a 401 rotates the key and
        retries, a 429 waits its Retry-After and retries, another non-200 status marks
        the token failed and stops, and a 200 adds its events and stops on an empty
        page or a missing `next` cursor. */
    method ApplyResponse(tokenId: string, reply: Reply, cursor: Option<string>)
      returns (pageEvents: seq<Json>, wait: seq<int>, nextCursor: Option<string>, stop: bool)
      requires Valid() && reply.Response?
      modifies this`apiKeys, this`currentKey, this`failedTokens
      ensures Valid()
      ensures pageEvents == PageEvents(reply)
      ensures wait == RateWaits(reply)
      ensures stop == Ends(reply, 0)
      ensures !stop ==> nextCursor == NextCursor(reply, cursor)
      ensures apiKeys == NextKeys(reply, old(apiKeys))
      ensures failedTokens == old(failedTokens) + if stop && EndOutcome(reply) == Failed then [tokenId] else []
    {
      pageEvents, wait, nextCursor, stop := [], [], cursor, false;
      if reply.status == 401 {
        RotateKey();
      } else if reply.status == 429 {
        wait := [RetryAfterSeconds(reply.retryAfter)];
      } else if reply.status != 200 {
        failedTokens := failedTokens + [tokenId];
        stop := true;
      } else {
        pageEvents := reply.events;
        if |reply.events| == 0 {
          stop := true;
        } else {
          nextCursor := reply.next;
          if !Truthy(nextCursor) {
            stop := true;
          }
        }
      }
    }

    /** `_save_nft_file`: atomically writes the token's events under its sanitised name. */
    method SaveNftFile(tokenId: string, nftName: string, events: seq<Json>)
      modifies this`outputFiles
      ensures outputFiles == AtomicWrite(old(outputFiles), NftFileName(Sanitize(nftName), tokenId), NftFileOf(tokenId, nftName, events))
    {
      var filename := NftFileName(Sanitize(nftName), tokenId);
      var payload := NftFileOf(tokenId, nftName, events);
      outputFiles := outputFiles[TempPath(filename) := payload];
      assert outputFiles - {TempPath(filename)} == old(outputFiles) - {TempPath(filename)};
      outputFiles := (outputFiles - {TempPath(filename)})[filename := payload];
    }

    /** `_save_progress`: writes the processed set to `progress.json`. */
    method SaveProgress()
      modifies this`savedProgress
      ensures savedProgress == Some(processed)
    {
      savedProgress := Some(processed);
    }

    /** `process_token`: a token already processed is skipped without a request;
        any other token is paginated, saved, and marked processed even when its
        pagination failed. A pagination still `Pending` has not returned, so nothing
        is saved or marked yet. */
    method ProcessToken(token: Token, script: seq<Reply>) returns (sent: seq<Request>)
      requires Valid()
      modifies this
      ensures Valid()
      ensures token.tokenId in old(processed) ==> sent == [] && unchanged(this)
      ensures token.tokenId !in old(processed) ==>
        var r := Paginate(token.tokenId, script, old(apiKeys), None, 0);
        && sent == r.requests
        && failedTokens == old(failedTokens) + (if r.outcome == Failed then [token.tokenId] else [])
        && apiKeys == Rotated(old(apiKeys), r.rotations)
        && (r.outcome == Pending ==>
              processed == old(processed) && outputFiles == old(outputFiles) && savedProgress == old(savedProgress))
        && (r.outcome != Pending ==>
              && processed == old(processed) + {token.tokenId}
              && outputFiles == AtomicWrite(old(outputFiles), NftFileName(Sanitize(NftNameOf(token)), token.tokenId),
                                            NftFileOf(token.tokenId, NftNameOf(token), r.events))
              && savedProgress == Some(processed))
    {
      var tokenId := token.tokenId;
      var nftName := NftNameOf(token);
      ghost var r := Paginate(tokenId, script, apiKeys, None, 0);
      if tokenId in processed {
        sent := [];
        return;
      }
      var events, waits, outcome;
      events, sent, waits, outcome := HandlePagination(tokenId, script);
      if outcome == Pending {
        return;
      }
      SaveNftFile(tokenId, nftName, events);
      processed := processed + {tokenId};
      SaveProgress();
    }
  }

  /** A token whose every request fails ends up both processed and failed, and its
      file is still written, with no events. */
  method FailedTokenIsStillProcessed(keys: seq<Key>, tokenId: string) returns (scraper: EventScraper)
    requires |keys| > 0
    ensures scraper.Valid()
    ensures tokenId in scraper.processed && scraper.failedTokens == [tokenId]
    ensures NftFileName(Sanitize(tokenId), tokenId) in scraper.outputFiles
    ensures scraper.outputFiles[NftFileName(Sanitize(tokenId), tokenId)].metadata.eventCount == 0
  {
    scraper := new EventScraper(keys, {}, map[]);
    AlwaysTimingOut(tokenId, keys, []);
    assert [RequestError, RequestError, RequestError] + [] == [RequestError, RequestError, RequestError];
    var sent := scraper.ProcessToken(Token(tokenId, None), [RequestError, RequestError, RequestError]);
  }
}
