/** The decision logic shared by the two ipinfo.io WHOIS modules: who may
    see the line, the request URL, how a parsed reply becomes the info
    text, and how the `apikey` directive is read from the config block.

    A parsed reply (jansson) is a `JsonValue`; only "is it an object",
    "is this member a string" and the string's value matter here. */
module IpinfoCore {
  import opened Common

  const ApiUrl: string := "https://ipinfo.io/"
  /** `char url[256]` and `char result_info[256]`. */
  const UrlCapacity: nat := 255
  const ResultCapacity: nat := 255

  datatype JsonValue =
    | JString(str: string)
    | JObject(fields: map<string, JsonValue>)
    | JOther  // numbers, booleans, null and arrays

  /** `json_object_get`: a member of an object; nothing for a missing key
      or a root that is not an object. */
  function Member(root: JsonValue, key: string): Option<JsonValue> {
    if root.JObject? && key in root.fields then Some(root.fields[key]) else None
  }

  /** `json_is_string(json_object_get(root, key))`. */
  predicate IsStringMember(root: JsonValue, key: string) {
    Member(root, key).Some? && Member(root, key).value.JString?
  }

  function StringMember(root: JsonValue, key: string): string
    requires IsStringMember(root, key)
  {
    Member(root, key).value.str
  }

  /** The four members a reply must carry, all as strings. */
  predicate Complete(root: JsonValue) {
    IsStringMember(root, "city") && IsStringMember(root, "region")
    && IsStringMember(root, "country") && IsStringMember(root, "org")
  }

  function Template(city: string, region: string, country: string, org: string): string {
    "City: " + city + ", Region: " + region + ", Country: " + country + ", Org: " + org
  }

  /** The info text for a parsed reply: the template filled with the four
      members and cut to the 255 bytes of `result_info`; nothing when
      any member is missing or not a string (no partial or "unknown"
      text). */
  function RenderInfo(root: JsonValue): (r: Option<string>)
    ensures r.Some? <==> Complete(root)
    ensures r.Some? ==> |r.value| <= ResultCapacity
    ensures r.Some? ==> r.value == Truncate(Template(StringMember(root, "city"),
      StringMember(root, "region"), StringMember(root, "country"), StringMember(root, "org")), ResultCapacity)
  {
    if Complete(root) then
      Some(Truncate(Template(StringMember(root, "city"), StringMember(root, "region"),
                             StringMember(root, "country"), StringMember(root, "org")), ResultCapacity))
    else None
  }

  /** A reply that lacks any one of the four members, or carries it as a
      non-string, produces no text at all. */
  lemma PartialReplyIsSilent(root: JsonValue, key: string)
    requires key in {"city", "region", "country", "org"}
    requires !IsStringMember(root, key)
    ensures RenderInfo(root) == None
  {
  }

  /** When the members are short enough, the text carries each of them
      verbatim after its label. */
  lemma RenderedCarriesFields(root: JsonValue)
    requires Complete(root)
    requires |Template(StringMember(root, "city"), StringMember(root, "region"),
                       StringMember(root, "country"), StringMember(root, "org"))| <= ResultCapacity
    ensures RenderInfo(root).Some?
    ensures var info := RenderInfo(root).value;
            var city := StringMember(root, "city");
            info[..6] == "City: " && info[6..6 + |city|] == city
            && info[|info| - |StringMember(root, "org")|..] == StringMember(root, "org")
  {
    var city, region, country, org := StringMember(root, "city"), StringMember(root, "region"),
                                       StringMember(root, "country"), StringMember(root, "org");
    var t := Template(city, region, country, org);
    assert t == "City: " + city + (", Region: " + region + ", Country: " + country + ", Org: " + org);
    assert t == ("City: " + city + ", Region: " + region + ", Country: " + country + ", Org: ") + org;
  }

  /** The client running WHOIS, and the client it is about. */
  datatype Requester = Requester(id: nat, name: string, isOper: bool)
  datatype Target = Target(id: nat, name: string, ip: string, isULine: bool, isServer: bool)

  /** The WHOIS gate: only an IRC operator sees the line, and never about a
      U-lined (services) client or a server. */
  predicate MayShow(requesterIsOper: bool, targetIsULine: bool, targetIsServer: bool) {
    requesterIsOper && !targetIsULine && !targetIsServer
  }

  /** The `320` WHOIS line body: `"%s :is connecting from %s"`. */
  function WhoisText(name: string, info: string): string {
    name + " :is connecting from " + info
  }

  /** `snprintf(url, 256, API_URL "%s?token=%s", ip, apikey)`. */
  function RequestUrl(ip: string, apikey: string): (url: string)
    ensures |url| == if |ApiUrl + ip + "?token=" + apikey| <= UrlCapacity
                      then |ApiUrl + ip + "?token=" + apikey| else UrlCapacity
    ensures url == (ApiUrl + ip + "?token=" + apikey)[..|url|]
    ensures url[..|ApiUrl|] == ApiUrl
  {
    Truncate(ApiUrl + ip + "?token=" + apikey, UrlCapacity)
  }

  /** A URL that fits names the IP right after the endpoint and ends with
      the token. */
  lemma UrlCarriesIpAndToken(ip: string, apikey: string)
    requires |ApiUrl| + |ip| + |"?token="| + |apikey| <= UrlCapacity
    ensures var url := RequestUrl(ip, apikey);
            url[|ApiUrl|..|ApiUrl| + |ip|] == ip
            && url[|url| - |apikey|..] == apikey
            && url[|ApiUrl| + |ip|..|url| - |apikey|] == "?token="
  {
    var full := ApiUrl + ip + "?token=" + apikey;
    assert full == ApiUrl + (ip + ("?token=" + apikey));
  }

  /** The `apikey` after scanning `items` with `safe_strdup` on each
      `apikey` item, starting from `init`: the last item wins, and an item
      without a value clears the key. */
  function ApikeyAfter(items: seq<ConfigEntry>, init: Option<string>): (r: Option<string>)
    ensures r == init || exists j :: 0 <= j < |items| && items[j].name == Some("apikey") && r == items[j].value
  {
    if items == [] then init
    else
      var last := items[|items| - 1];
      if last.name == Some("apikey") then last.value
      else
        var prefix := items[..|items| - 1];
        assert forall j :: 0 <= j < |prefix| ==> prefix[j] == items[j];
        ApikeyAfter(prefix, init)
  }

  /** The last `apikey` item decides the key. */
  lemma {:induction false} ApikeyLastWins(items: seq<ConfigEntry>, init: Option<string>, k: nat)
    requires k < |items| && items[k].name == Some("apikey")
    requires forall j :: k < j < |items| ==> items[j].name != Some("apikey")
    ensures ApikeyAfter(items, init) == items[k].value
  {
    if k < |items| - 1 {
      ApikeyLastWins(items[..|items| - 1], init, k);
    }
  }

  /** Without an `apikey` item the key keeps its starting value. */
  lemma {:induction false} ApikeyUntouched(items: seq<ConfigEntry>, init: Option<string>)
    requires forall j :: 0 <= j < |items| ==> items[j].name != Some("apikey")
    ensures ApikeyAfter(items, init) == init
  {
    if items != [] {
      ApikeyUntouched(items[..|items| - 1], init);
    }
  }

  /** Items without a name: each is one "blank item" error in configtest. */
  function BlankCount(items: seq<ConfigEntry>): (n: nat)
    ensures n <= |items|
    ensures n == 0 <==> forall j :: 0 <= j < |items| ==> items[j].name.Some?
  {
    if items == [] then 0
    else BlankCount(items[..|items| - 1]) + (if items[|items| - 1].name.None? then 1 else 0)
  }
}
