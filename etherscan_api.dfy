/** What the two Etherscan transaction scrapers share: the replies of the `txlist`
    endpoint, the requests sent, the run a pagination produces, and the address file
    both write. */
module EtherscanApi {
  import opened Common

  /** Records asked for per page (`offset` / `PAGE_SIZE`). */
  const PageSize: nat := 100
  /** Attempts per page (`max_retries` / `MAX_RETRIES`). */
  const MaxRetries: nat := 3

  /** What one attempt produced: an exception from `requests.get`, `raise_for_status`
      or the JSON decoder; a body that decodes to something other than a JSON object;
      or an object with its `status` and `result` members (absent members are `None`). */
  datatype TxReply =
    | RequestFailed
    | NotAnObject
    | Body(status: Option<Json>, result: Option<Json>)

  /** One request sent: the address, the `page` parameter and the `apikey` parameter. */
  datatype TxRequest = TxRequest(address: string, page: nat, key: Key)

  /** How pagination ended: every attempt on a page failed; a successful reply whose
      result is not a list; a short page; an exception that leaves the pagination; or
      the replies ran out before it ended. */
  datatype Stop = GaveUp | NotAList | LastPage | Raised | Pending

  /** Everything one pagination produced: the records gathered, the requests sent in
      order, and how it ended. */
  datatype TxRun = TxRun(txs: seq<Json>, requests: seq<TxRequest>, stop: Stop)

  /** A run that starts with what `done` produced and carries on as `rest`. */
  function Then(done: TxRun, rest: TxRun): TxRun
  {
    TxRun(done.txs + rest.txs, done.requests + rest.requests, rest.stop)
  }

  /** Joining runs is associative. */
  lemma ThenAssoc(a: TxRun, b: TxRun, c: TxRun)
    ensures Then(a, Then(b, c)) == Then(Then(a, b), c)
  {
    assert a.txs + (b.txs + c.txs) == (a.txs + b.txs) + c.txs;
    assert a.requests + (b.requests + c.requests) == (a.requests + b.requests) + c.requests;
  }

  /** `data.get("status") == "1"`: the member is present and is the string "1". */
  predicate StatusOk(reply: TxReply)
  {
    reply.Body? && reply.status == Some(JString("1"))
  }

  /** `f"{address}.json"` */
  function AddressFileName(address: string): string
  {
    address + ".json"
  }

  /** The address an address file belongs to. */
  function AddressOfFileName(f: string): Option<string>
  {
    if EndsWith(f, ".json") then Some(f[..|f| - 5]) else None
  }

  /** The address is read back from its file name, so distinct addresses never share a file. */
  lemma AddressFileNameRoundTrip(address: string)
    ensures AddressOfFileName(AddressFileName(address)) == Some(address)
  {
    var f := AddressFileName(address);
    assert f[|f| - 5..] == ".json";
    assert f[..|f| - 5] == address;
  }

  /** The temporary file of an atomic write is never the file of an address. */
  lemma TempIsNoAddressFile(address: string, other: string)
    ensures TempPath(AddressFileName(address)) != AddressFileName(other)
  {
    var t, f := TempPath(AddressFileName(address)), AddressFileName(other);
    assert t[|t| - 1] == 'p' && f[|f| - 1] == 'n';
  }

  /** The saved payload: the address, `transaction_count` and the records; the
      timestamp is left out. */
  datatype AddressFile = AddressFile(address: string, transactionCount: nat, transactions: seq<Json>)

  /** The payload both scrapers write for `address`. */
  function AddressFileOf(address: string, txs: seq<Json>): (f: AddressFile)
    ensures f.transactionCount == |f.transactions|
    ensures f.address == address && f.transactions == txs
  {
    AddressFile(address, |txs|, txs)
  }
}
