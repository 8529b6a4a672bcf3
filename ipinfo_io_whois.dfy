/** The asynchronous ipinfo.io WHOIS module: configuration of the API
    token, the WHOIS hook that answers from the cache or starts a web
    request, and the completion callback that renders the reply, stores
    it in the cache and sends the line.

    The HTTP transfer itself is not modelled: a request is a value handed
    to the host, and a response is the value the host hands back. */
module IpinfoIoWhois {
  import opened Common
  import opened GeoCache
  import opened IpinfoCore

  const MyConf: string := "ipinfo_io_whois"

  /** The outgoing request: its URL and `callback_data`, which the code
      sets to the WHOIS target. The requesting oper is carried as well, for
      the corrected delivery below. */
  datatype WebRequest = WebRequest(url: string, callbackData: Target, requester: Requester)

  /** What `json_loads` makes of the received body: nothing when the text
      does not parse. */
  datatype Body = Body(parsed: Option<JsonValue>)

  /** The host's response: an error text on a failed transfer, and the
      body when one was received. */
  datatype Response = Response(errorbuf: Option<string>, memory: Option<Body>)

  /** A line sent with `sendto_one` to the client `to`. */
  datatype Delivery = Delivery(to: nat, text: string)

  /** What the WHOIS hook does: nothing, a line from the cache, or a web
      request whose answer arrives later through the callback. */
  datatype WhoisReply = Silent | CachedLine(line: string) | Requested(request: WebRequest)

  /** The info text a response yields: none for a transfer error, a
      missing body, a body that does not parse, or an incomplete object. */
  function ResponseInfo(response: Response): (r: Option<string>)
    ensures response.errorbuf.Some? || response.memory.None? ==> r == None
    ensures r.Some? <==> response.errorbuf.None? && response.memory.Some?
                         && response.memory.value.parsed.Some?
                         && Complete(response.memory.value.parsed.value)
    ensures r.Some? ==> r == RenderInfo(response.memory.value.parsed.value) && |r.value| <= ResultCapacity
  {
    if response.errorbuf.Some? || response.memory.None? then None
    else if response.memory.value.parsed.None? then None
    else RenderInfo(response.memory.value.parsed.value)
  }

  /** The WHOIS hook's decision, given what the cache reported for the
      target's IP. */
  function WhoisDecision(requester: Requester, target: Target, cached: Option<string>, apikey: string): (r: WhoisReply)
    ensures r.Silent? <==> !MayShow(requester.isOper, target.isULine, target.isServer)
    ensures r.CachedLine? <==> MayShow(requester.isOper, target.isULine, target.isServer) && cached.Some?
    ensures r.CachedLine? ==> r.line == WhoisText(target.name, cached.value)
    ensures r.Requested? ==> r.request.url == RequestUrl(target.ip, apikey)
                             && r.request.callbackData == target && r.request.requester == requester
  {
    if !MayShow(requester.isOper, target.isULine, target.isServer) then Silent
    else if cached.Some? then CachedLine(WhoisText(target.name, cached.value))
    else Requested(WebRequest(RequestUrl(target.ip, apikey), target, requester))
  }

  /** The callback as written: `requester` is read from `callback_data`,
      which holds the WHOIS target, so the line goes to the target. */
  function DeliveryAsWritten(request: WebRequest, info: string): Delivery {
    Delivery(request.callbackData.id, WhoisText(request.callbackData.name, info))
  }

  /** The callback as intended: the line goes to the oper who asked. */
  function DeliveryToRequester(request: WebRequest, info: string): Delivery {
    Delivery(request.requester.id, WhoisText(request.callbackData.name, info))
  }

  /** As written, an oper's WHOIS of another user that misses the cache
      has its answer sent to that user and never to the oper. */
  lemma AsWrittenAnswersTheTarget(requester: Requester, target: Target, apikey: string, info: string)
    requires MayShow(requester.isOper, target.isULine, target.isServer)
    requires requester.id != target.id
    ensures WhoisDecision(requester, target, None, apikey).Requested?
    ensures var d := DeliveryAsWritten(WhoisDecision(requester, target, None, apikey).request, info);
            d.to == target.id && d.to != requester.id
  {
  }

  /** Corrected: every answer to a request the hook started goes to the
      oper who ran the WHOIS and names the target. */
  lemma AnswerReachesRequester(requester: Requester, target: Target, apikey: string, info: string)
    requires MayShow(requester.isOper, target.isULine, target.isServer)
    ensures WhoisDecision(requester, target, None, apikey).Requested?
    ensures var d := DeliveryToRequester(WhoisDecision(requester, target, None, apikey).request, info);
            d.to == requester.id && d.text == WhoisText(target.name, info)
  {
  }

  class IpinfoIoWhois {
    var apikey: Option<string>
    const cache: Cache

    /** Module test: `muhcfg` zeroed, the cache empty. */
    constructor ()
      ensures apikey == None && fresh(cache) && cache.entries == map[]
    {
      apikey := None;
      cache := new Cache();
    }

    /** `ipinfo_io_whois_configtest`: the key is reset, then every item
        without a name is an error and every `apikey` item replaces the
        key. */
    method ConfigTest(isMain: bool, block: ConfigBlock) returns (outcome: TestOutcome)
      modifies this
      ensures !IsMine(isMain, block, MyConf) ==> outcome == NotMine && apikey == old(apikey)
      ensures IsMine(isMain, block, MyConf) ==>
                outcome == Checked(BlankCount(block.items)) && apikey == ApikeyAfter(block.items, None)
    {
      if !IsMine(isMain, block, MyConf) {
        return NotMine;
      }
      apikey := None;
      var errors := 0;
      for i := 0 to |block.items|
        invariant errors == BlankCount(block.items[..i])
        invariant apikey == ApikeyAfter(block.items[..i], None)
      {
        var cep := block.items[i];
        assert block.items[..i + 1][..i] == block.items[..i];
        if cep.name.None? {
          errors := errors + 1;
          continue;
        }
        if cep.name.value == "apikey" {
          apikey := cep.value;
        }
      }
      assert block.items[..|block.items|] == block.items;
      outcome := Checked(errors);
    }

    /** `ipinfo_io_whois_configposttest`: an error exactly when no key is
        set. */
    function ConfigPostTest(): (outcome: TestOutcome)
      reads this
      ensures outcome.Checked?
      ensures Code(outcome) == -1 <==> apikey.None?
    {
      Checked(if apikey.None? then 1 else 0)
    }

    /** `ipinfo_io_whois_configrun`: the key is reset and the last
        `apikey` item wins. */
    method ConfigRun(isMain: bool, block: ConfigBlock) returns (applied: bool)
      modifies this
      ensures applied == IsMine(isMain, block, MyConf)
      ensures !applied ==> apikey == old(apikey)
      ensures applied ==> apikey == ApikeyAfter(block.items, None)
    {
      if !IsMine(isMain, block, MyConf) {
        return false;
      }
      apikey := None;
      for i := 0 to |block.items|
        invariant apikey == ApikeyAfter(block.items[..i], None)
      {
        var cep := block.items[i];
        assert block.items[..i + 1][..i] == block.items[..i];
        if cep.name.Some? && cep.name.value == "apikey" {
          apikey := cep.value;
        }
      }
      assert block.items[..|block.items|] == block.items;
      applied := true;
    }

    /** `ipinfo_io_whois_whois`. The gate comes first and touches nothing;
        past it the cache is consulted, and only a miss builds a request.
        The hook runs once configposttest has accepted a key. */
    method Whois(requester: Requester, target: Target, now: int) returns (reply: WhoisReply)
      requires apikey.Some?
      modifies cache
      ensures !MayShow(requester.isOper, target.isULine, target.isServer) ==>
                reply == Silent && cache.entries == old(cache.entries)
      ensures MayShow(requester.isOper, target.isULine, target.isServer) ==>
                cache.entries == AfterLookup(old(cache.entries), target.ip, now)
      ensures reply == WhoisDecision(requester, target, Lookup(old(cache.entries), target.ip, now), apikey.value)
    {
      if !MayShow(requester.isOper, target.isULine, target.isServer) {
        return Silent;
      }
      var cached := cache.Find(target.ip, now);
      if cached.Some? {
        return CachedLine(WhoisText(target.name, cached.value));
      }
      var url := RequestUrl(target.ip, apikey.value);
      reply := Requested(WebRequest(url, target, requester));
    }

    /** `ipinfo_io_whois_callback`, with the corrected destination. A
        failed or unusable response changes nothing and sends nothing; a
        complete one is stored under the target's IP, stamped `now`, and
        sent. The stored key must be absent, as `HASH_ADD_STR` demands. */
    method Callback(request: WebRequest, response: Response, now: int) returns (delivery: Option<Delivery>)
      requires request.callbackData.ip !in cache.entries
      requires |request.callbackData.ip| <= IpCapacity
      modifies cache
      ensures ResponseInfo(response).None? ==> delivery == None && cache.entries == old(cache.entries)
      ensures ResponseInfo(response).Some? ==>
                cache.entries == old(cache.entries)[request.callbackData.ip := Entry(ResponseInfo(response).value, now)]
                && delivery == Some(DeliveryToRequester(request, ResponseInfo(response).value))
    {
      var info := ResponseInfo(response);
      if info.None? {
        return None;
      }
      cache.Add(request.callbackData.ip, info.value, now);
      delivery := Some(DeliveryToRequester(request, info.value));
    }

    /** Module unload: the key is freed and the cache emptied. */
    method Unload()
      modifies this, cache
      ensures apikey == None && cache.entries == map[]
    {
      apikey := None;
      cache.Free();
    }
  }
}
