/** The synchronous ipinfo.io WHOIS module: the same cache and rendering
    as the asynchronous one, but the WHOIS hook performs the transfer
    itself with libcurl, collecting the body with `WriteMemoryCallback`,
    and appends the line to the reply it is building.

    libcurl is not modelled: the transfer's outcome is a parameter. */
module MIpinfoWhois {
  import opened Common
  import opened GeoCache
  import opened IpinfoCore

  const MyConf: string := "ipinfo_whois"

  newtype Byte = b: int | 0 <= b < 256

  /** `struct MemoryStruct`: a heap buffer holding `size` received bytes
      and room for one more. */
  class MemoryStruct {
    var memory: array<Byte>
    var size: nat

    ghost predicate Valid()
      reads this
    {
      size < memory.Length
    }

    /** The bytes received so far. */
    ghost function Contents(): seq<Byte>
      reads this, memory
      requires Valid()
    {
      memory[..size]
    }

    /** `chunk.memory = malloc(1); chunk.size = 0;` */
    constructor ()
      ensures Valid() && size == 0 && Contents() == [] && memory.Length == 1
    {
      memory := new Byte[1];
      size := 0;
    }

    /** `WriteMemoryCallback`: grow the buffer by `sz * nmemb` bytes with
        `realloc`, append them and terminate with NUL. When `realloc`
        fails (`allocOk` false) it returns 0 and the buffer is untouched,
        which makes libcurl abort the transfer. */
    method WriteMemory(contents: seq<Byte>, sz: nat, nmemb: nat, allocOk: bool) returns (written: nat)
      requires Valid()
      requires |contents| == sz * nmemb
      modifies this
      ensures Valid()
      ensures !allocOk ==> written == 0 && memory == old(memory) && size == old(size)
      ensures allocOk ==> written == |contents| && size == old(size) + written && fresh(memory)
      ensures allocOk ==> Contents() == old(Contents()) + contents && memory[size] == 0
    {
      var realsize := sz * nmemb;
      if !allocOk {
        return 0;
      }
      var prevMemory, prevSize := memory, size;
      var ptr := new Byte[prevSize + realsize + 1];
      for i := 0 to prevSize
        invariant forall j :: 0 <= j < i ==> ptr[j] == prevMemory[j]
      {
        ptr[i] := prevMemory[i];
      }
      for j := 0 to realsize
        invariant ptr[..prevSize] == prevMemory[..prevSize]
        invariant forall k :: 0 <= k < j ==> ptr[prevSize + k] == contents[k]
      {
        ptr[prevSize + j] := contents[j];
      }
      assert ptr[..prevSize + realsize] == prevMemory[..prevSize] + contents;
      memory := ptr;
      size := prevSize + realsize;
      memory[size] := 0;
      written := realsize;
    }
  }

  /** What the libcurl exchange yields: no handle from
      `curl_easy_init`, a transfer error, or a completed transfer whose
      body `json_loads` turned into a value (nothing when it does not
      parse). */
  datatype Transfer = NoHandle | TransferFailed | Completed(parsed: Option<JsonValue>)

  /** The info text a transfer yields. */
  function TransferInfo(transfer: Transfer): (r: Option<string>)
    ensures r.Some? <==> transfer.Completed? && transfer.parsed.Some? && Complete(transfer.parsed.value)
    ensures r.Some? ==> r == RenderInfo(transfer.parsed.value)
  {
    if transfer.Completed? && transfer.parsed.Some? then RenderInfo(transfer.parsed.value) else None
  }

  class MIpinfoWhois {
    var apikey: Option<string>
    const cache: Cache

    constructor ()
      ensures apikey == None && fresh(cache) && cache.entries == map[]
    {
      apikey := None;
      cache := new Cache();
    }

    /** `ipinfo_whois_configtest`: unlike the asynchronous module the key
        is not reset first, so without an `apikey` item it keeps its old
        value; an item without a name is an error. */
    method ConfigTest(isMain: bool, block: ConfigBlock) returns (outcome: TestOutcome)
      modifies this
      ensures !IsMine(isMain, block, MyConf) ==> outcome == NotMine && apikey == old(apikey)
      ensures IsMine(isMain, block, MyConf) ==>
                outcome == Checked(BlankCount(block.items)) && apikey == ApikeyAfter(block.items, old(apikey))
    {
      if !IsMine(isMain, block, MyConf) {
        return NotMine;
      }
      var errors := 0;
      for i := 0 to |block.items|
        invariant errors == BlankCount(block.items[..i])
        invariant apikey == ApikeyAfter(block.items[..i], old(apikey))
      {
        var cep := block.items[i];
        assert block.items[..i + 1][..i] == block.items[..i];
        if cep.name.None? {
          errors := errors + 1;
          continue;
        }
        if cep.name.value == "apikey" {
          apikey := cep.value;
        }
      }
      assert block.items[..|block.items|] == block.items;
      outcome := Checked(errors);
    }

    /** `ipinfo_whois_configposttest`: an error exactly when no key is set. */
    function ConfigPostTest(): (outcome: TestOutcome)
      reads this
      ensures outcome.Checked?
      ensures Code(outcome) == -1 <==> apikey.None?
    {
      Checked(if apikey.None? then 1 else 0)
    }

    /** `ipinfo_whois_configrun`: the last `apikey` item wins; without one
        the key is kept. */
    method ConfigRun(isMain: bool, block: ConfigBlock) returns (applied: bool)
      modifies this
      ensures applied == IsMine(isMain, block, MyConf)
      ensures !applied ==> apikey == old(apikey)
      ensures applied ==> apikey == ApikeyAfter(block.items, old(apikey))
    {
      if !IsMine(isMain, block, MyConf) {
        return false;
      }
      for i := 0 to |block.items|
        invariant apikey == ApikeyAfter(block.items[..i], old(apikey))
      {
        var cep := block.items[i];
        assert block.items[..i + 1][..i] == block.items[..i];
        if cep.name.Some? && cep.name.value == "apikey" {
          apikey := cep.value;
        }
      }
      assert block.items[..|block.items|] == block.items;
      applied := true;
    }

    /** `ipinfo_whois_whois`: the gate, then the cache at time `now`, then
        on a miss a transfer to the request URL; a complete reply is
        stored (stamped `later`, the clock after the transfer) and its line
        appended. `url` is the URL handed to libcurl, if any. */
    method Whois(requester: Requester, target: Target, now: int, transfer: Transfer, later: int)
      returns (line: Option<string>, url: Option<string>)
      requires apikey.Some?
      requires |target.ip| <= IpCapacity
      modifies cache
      ensures !MayShow(requester.isOper, target.isULine, target.isServer) ==>
                line == None && url == None && cache.entries == old(cache.entries)
      ensures MayShow(requester.isOper, target.isULine, target.isServer)
              && Lookup(old(cache.entries), target.ip, now).Some? ==>
                line == Some(WhoisText(target.name, Lookup(old(cache.entries), target.ip, now).value))
                && url == None && cache.entries == old(cache.entries)
      ensures MayShow(requester.isOper, target.isULine, target.isServer)
              && Lookup(old(cache.entries), target.ip, now).None? ==>
                url == (if transfer.NoHandle? then None else Some(RequestUrl(target.ip, apikey.value)))
                && (TransferInfo(transfer).None? ==>
                      line == None && cache.entries == AfterLookup(old(cache.entries), target.ip, now))
                && (TransferInfo(transfer).Some? ==>
                      line == Some(WhoisText(target.name, TransferInfo(transfer).value))
                      && cache.entries == AfterLookup(old(cache.entries), target.ip, now)
                                            [target.ip := Entry(TransferInfo(transfer).value, later)])
    {
      if !MayShow(requester.isOper, target.isULine, target.isServer) {
        return None, None;
      }
      var cached := cache.Find(target.ip, now);
      if cached.Some? {
        return Some(WhoisText(target.name, cached.value)), None;
      }
      line, url := None, None;
      if !transfer.NoHandle? {
        url := Some(RequestUrl(target.ip, apikey.value));
        var info := TransferInfo(transfer);
        if info.Some? {
          cache.Add(target.ip, info.value, later);
          line := Some(WhoisText(target.name, info.value));
        }
      }
    }

    /** Module unload: the key is freed and the cache emptied. */
    method Unload()
      modifies this, cache
      ensures apikey == None && cache.entries == map[]
    {
      apikey := None;
      cache.Free();
    }
  }
}
