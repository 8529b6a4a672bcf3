# UnrealIRCd 6 contrib modules: a Dafny model

This project models the decision logic and state of seven third-party
UnrealIRCd 6 modules (nine C files) and proves properties of that model:

- **ipinfo.io WHOIS enrichment.** There are two variants. `ipinfo_io_whois.c` is asynchronous: it starts a web request and answers in a callback. `m_ipfinfo_whois.c` is synchronous: it runs a libcurl transfer inside the WHOIS hook. Both keep a 24-hour IP → text cache and render the reply as `City: …, Region: …, Country: …, Org: …`.
- **citywhois.** Adds a WHOIS line with the target's city, looked up in a local MaxMind database. Covers the `db` configuration and opening and closing the database.
- **IP-based ident** (`m_ipident/m_ipident.c` and the older `m_ipident.c`). Stores up to five cloak keys. On connect, it builds a nine-character username from the client's IP text followed by one of the keys.
- **channel-welcome** (`m_welcomemessages.c`). Keeps a table of channel patterns and notices. A joining user gets the notice of the first pattern that matches.
- **security-group listing** (`listsg.c`, `m_listsg.c`). `/SG` lists the members of a group, ten names or 462 bytes per notice. `/SG-user` lists the groups of a user.
- **AFK mode** (`m_afkmode.c`). A per-client `{afk, message}` record, changed by three commands and shown by WHOIS.

Layout: `common.dfy` holds the config-block shape and C-style truncation.
`geo_cache.dfy` holds the cache, whose code is the same in both ipinfo modules.
`ipinfo_core.dfy` holds the rendering, URL, WHOIS gate and `apikey` scan shared by both ipinfo modules.
Each remaining file models one module.
Three pairs of files share code:
- The legacy `m_ipident.c` has the same configrun, freecfg and connect hook as `m_ipident/m_ipident.c` (its lines 112-138, 67-77 and 146-181). `CloakIdent.CloakConfig` models both, built with the block name `cloak-keys` or `cloak-ident-keys`.
- `m_listsg.c`'s two listing functions (its lines 71-124) are the same code as `listsg.c`'s and are modelled in `ListSg`.
- `m_ipfinfo_whois.c`'s cache (its lines 175-200) is the same code as `ipinfo_io_whois.c`'s, minus the mutex.

State the C code updates in place is a class with `modifies` clauses:
- the cache
- each module's configuration
- the curl memory buffer
- the welcome table
- the cloak key slots
- the AFK record

Fixed-size buffers the code fills in place are arrays: the ident, the key slots, the listing line buffer and the curl buffer. Each such method is proved against a specification function, and the properties are proved about those functions. Host services are parameters: the clock, `rand()`, `match_simple`, `find_client`, group membership, path resolution and file access, the database lookup and the HTTP transfer.

A `string` stands for a C string: each `char` is one byte, and UTF-8 text is the sequence of its bytes. So every length limit in the model counts bytes, as `strlen` and the C buffer sizes do.

Behaviour of the code worth noting:
- The cache is never overwritten: `HASH_ADD_STR` is used, not an upsert.
- A reply with a missing field gives no text at all, not "unknown".
- The callback does not check that the requester is still connected.
- No timeout is set on the request.
- When the database is not loaded, citywhois sends nothing for a target that has an IP; a target without one still gets "No IP found!!".
- citywhois cuts a city name to 255 bytes.
- The AFK "too long" notice asks for a message shorter than 256 characters, but exactly 256 bytes is accepted.

## Model

| member | source | states |
|---|---|---|
| GeoCache.ExpiredIsEvicted | ipinfo_io_whois/ipinfo_io_whois.c:192-203 | an entry older than 86400 s is a miss and is deleted, and no other key changes |
| GeoCache.LiveIsServed | ipinfo_io_whois/ipinfo_io_whois.c:192-203 | an entry aged at most 86400 s, the boundary included, is served with its text and the table is unchanged |
| GeoCache.AbsentMisses | ipinfo_io_whois/ipinfo_io_whois.c:192-203 | a lookup of an absent IP misses and changes nothing |
| GeoCache.AddThenLookup | ipinfo_io_whois/ipinfo_io_whois.c:182-203 | round trip: text added at t is found at any now with now - t ≤ 86400, and finding it keeps the table |
| GeoCache.MissLeavesKeyFree | ipinfo_io_whois/ipinfo_io_whois.c:182-203 | after a miss the key is absent, so the add that follows a miss never meets a duplicate |
| GeoCache.ExpiryIsPermanent | ipinfo_io_whois/ipinfo_io_whois.c:192-203 | once a lookup misses, every later lookup of that IP misses too |
| GeoCache.Cache.constructor | ipinfo_io_whois/ipinfo_io_whois.c:43 | the cache starts empty |
| GeoCache.Cache.Add | ipinfo_io_whois/ipinfo_io_whois.c:182-190 | stores the entry stamped with now. The key must be absent and fit 45 bytes; the text must fit 255 |
| GeoCache.Cache.Find | ipinfo_io_whois/ipinfo_io_whois.c:192-203 | result and new table are `Lookup`/`AfterLookup`: hit iff present and not expired; on a miss the key is gone and the other keys stay |
| GeoCache.Cache.Free | ipinfo_io_whois/ipinfo_io_whois.c:205-213 | the deletion loop leaves the table empty |
| GeoCache.ExpiryScenario | ipinfo_io_whois/ipinfo_io_whois.c:44-203 | an entry added at t=0 is served at 50 and at exactly 86400, and is evicted at 86401 |
| IpinfoCore.RenderInfo | ipinfo_io_whois/ipinfo_io_whois.c:236-248 | text iff city, region, country and org are all strings; the text is the template cut to 255 bytes |
| IpinfoCore.PartialReplyIsSilent | ipinfo_io_whois/ipinfo_io_whois.c:242 | a reply lacking any of the four members, or holding one as a non-string, renders nothing |
| IpinfoCore.RenderedCarriesFields | ipinfo_io_whois/ipinfo_io_whois.c:243-248 | when the template fits, the text starts with "City: " and the city, and ends with the org |
| IpinfoCore.RequestUrl | ipinfo_io_whois/ipinfo_io_whois.c:275-276 | the URL is a prefix of endpoint+ip+"?token="+key, cut at 255 bytes, and always starts with the endpoint |
| IpinfoCore.UrlCarriesIpAndToken | ipinfo_io_whois/ipinfo_io_whois.c:276 | a URL that fits holds the IP right after the endpoint, then "?token=", then the key at the end |
| IpinfoCore.ApikeyAfter | ipinfo_io_whois/ipinfo_io_whois.c:124-131 | the key after the scan is the starting one or the value of some `apikey` item |
| IpinfoCore.ApikeyLastWins | ipinfo_io_whois/ipinfo_io_whois.c:118-133 | the last `apikey` item decides the key, including a value-less one that clears it |
| IpinfoCore.ApikeyUntouched | m_ipinfo_whois/m_ipfinfo_whois.c:98-111 | with no `apikey` item the key keeps its starting value |
| IpinfoCore.BlankCount | ipinfo_io_whois/ipinfo_io_whois.c:118-123 | one error per item without a name; zero errors iff every item is named |
| IpinfoIoWhois.ResponseInfo | ipinfo_io_whois/ipinfo_io_whois.c:222-248 | a transfer error, a missing body, an unparsable body or an incomplete object yields nothing; anything else yields the rendered text |
| IpinfoIoWhois.WhoisDecision | ipinfo_io_whois/ipinfo_io_whois.c:263-286 | silent iff the requester is not an oper or the target is U-lined or a server; a cached line iff shown and cached; otherwise a request for the URL that carries the target |
| IpinfoIoWhois.AsWrittenAnswersTheTarget | ipinfo_io_whois/ipinfo_io_whois.c:253-256 | as written, the callback's line goes to the WHOIS target, never to the oper who asked |
| IpinfoIoWhois.AnswerReachesRequester | ipinfo_io_whois/ipinfo_io_whois.c:253-256 | corrected: the line goes to the oper who asked and names the target |
| IpinfoIoWhois.IpinfoIoWhois.constructor | ipinfo_io_whois/ipinfo_io_whois.c:63-64 | no key, empty cache |
| IpinfoIoWhois.IpinfoIoWhois.ConfigTest | ipinfo_io_whois/ipinfo_io_whois.c:101-137 | a foreign block is ignored. For its own block, the key is reset and then set by the last `apikey` item; the errors are the blank items |
| IpinfoIoWhois.IpinfoIoWhois.ConfigPostTest | ipinfo_io_whois/ipinfo_io_whois.c:139-149 | an error exactly when no key is set |
| IpinfoIoWhois.IpinfoIoWhois.ConfigRun | ipinfo_io_whois/ipinfo_io_whois.c:151-180 | claims its own block only; the key is reset and then set by the last `apikey` item |
| IpinfoIoWhois.IpinfoIoWhois.Whois | ipinfo_io_whois/ipinfo_io_whois.c:263-287 | the gate touches nothing; past it the reply is `WhoisDecision` on the cache lookup, and the cache becomes `AfterLookup` |
| IpinfoIoWhois.IpinfoIoWhois.Callback | ipinfo_io_whois/ipinfo_io_whois.c:220-261 | an unusable response changes nothing and sends nothing; a complete one is cached under the target's IP and sent (corrected destination) |
| IpinfoIoWhois.IpinfoIoWhois.Unload | ipinfo_io_whois/ipinfo_io_whois.c:91-99 | the key is cleared and the cache emptied |
| MIpinfoWhois.MemoryStruct.constructor | m_ipinfo_whois/m_ipfinfo_whois.c:217-218 | a one-byte buffer holding no data |
| MIpinfoWhois.MemoryStruct.WriteMemory | m_ipinfo_whois/m_ipfinfo_whois.c:158-173 | a failed realloc returns 0 and leaves the buffer alone. Otherwise all bytes are appended in order, the size grows by their number, and the buffer is NUL-terminated |
| MIpinfoWhois.TransferInfo | m_ipinfo_whois/m_ipfinfo_whois.c:232-253 | text iff the transfer completed, parsed and is complete; it is the rendered text |
| MIpinfoWhois.MIpinfoWhois.constructor | m_ipinfo_whois/m_ipfinfo_whois.c:61-62 | no key, empty cache |
| MIpinfoWhois.MIpinfoWhois.ConfigTest | m_ipinfo_whois/m_ipfinfo_whois.c:85-115 | the key is not reset: the last `apikey` item wins, or the old key stays; the errors are the blank items |
| MIpinfoWhois.MIpinfoWhois.ConfigPostTest | m_ipinfo_whois/m_ipfinfo_whois.c:117-127 | an error exactly when no key is set |
| MIpinfoWhois.MIpinfoWhois.ConfigRun | m_ipinfo_whois/m_ipfinfo_whois.c:129-151 | claims its own block; last `apikey` item wins, else the key is kept |
| MIpinfoWhois.MIpinfoWhois.Whois | m_ipinfo_whois/m_ipfinfo_whois.c:202-271 | the gate changes nothing. A hit gives the cached line. A miss requests the URL when a handle exists; a usable reply is then cached and its line returned, any other outcome returns no line |
| MIpinfoWhois.MIpinfoWhois.Unload | m_ipinfo_whois/m_ipfinfo_whois.c:79-83 | the key is cleared and the cache emptied |
| CityWhois.Decide | citywhois/citywhois.c:142-200 | nothing unless an oper asks about a user. "No IP found!!" iff the target has no IP, whatever the database state. A closed database or a lookup error gives nothing. A found city always gives that city cut to 255 bytes; an entry without a city gives unknown city, and no entry gives unknown location |
| CityWhois.LineText | citywhois/citywhois.c:178-196 | the `320` line starts with the target's name, and its outcome (city, unknown city, unknown location, no IP) is read back from the rest |
| CityWhois.Whois | citywhois/citywhois.c:142-201 | a line iff `Decide` gives an outcome; it names the target and carries that outcome; with a found city it is "<name> :is connecting from City: <city cut to 255 bytes>" |
| CityWhois.ParseTailRoundTrip | citywhois/citywhois.c:181-196 | round trip: every line outcome is recovered from its text |
| CityWhois.LinesAreDistinct | citywhois/citywhois.c:181-196 | two outcomes for the same client never give the same line, so found, unknown city, unknown location and no IP are distinguishable |
| CityWhois.PathAfter | citywhois/citywhois.c:82-100 | the stored path is the starting one or the absolute path of some readable `db` item |
| CityWhois.ErrorCount | citywhois/citywhois.c:80-106 | one error per unknown directive or unreadable `db` file; zero iff every item is a readable `db` |
| CityWhois.PathLastWins | citywhois/citywhois.c:82-100 | the last readable `db` item decides the stored absolute path |
| CityWhois.PathKeptWithoutAcceptedDb | citywhois/citywhois.c:88-94 | with no readable `db` item the previously stored path stays |
| CityWhois.CityWhoisConfig.constructor | citywhois/citywhois.c:31-32 | no path, database closed |
| CityWhois.CityWhoisConfig.Load | citywhois/citywhois.c:45-56 | opens only when a path is set and the database is closed; a failed open fails the load and leaves it closed |
| CityWhois.CityWhoisConfig.Unload | citywhois/citywhois.c:58-68 | database closed and path cleared |
| CityWhois.CityWhoisConfig.ConfigTest | citywhois/citywhois.c:71-114 | a foreign block changes nothing; for its own block, the errors are `ErrorCount` and the path is `PathAfter` |
| CityWhois.CityWhoisConfig.ConfigPostTest | citywhois/citywhois.c:117-127 | an error exactly when no path is set |
| CloakIdent.IdentCharClass | m_ipident/m_ipident.c:186-192 | positions 0-5 are letters: lower case with an even alphabet index for an even byte, upper case with an odd index for an odd byte. Positions 6-8 are the digit byte % 10 |
| CloakIdent.IdentOf | m_ipident/m_ipident.c:186-194 | the ident has exactly nine characters |
| CloakIdent.CombinedIsCString | m_ipident/m_ipident.c:183-184 | the combined text of two C strings is a C string, and has at least nine characters when they do together |
| CloakIdent.BuildIdent | m_ipident/m_ipident.c:186-194 | the fill loop gives nine characters, letters at 0-5 and digits at 6-8, each built from byte i of the combined text |
| CloakIdent.IdentReadsNineBytes | m_ipident/m_ipident.c:186-187 | two combined texts with the same first nine characters give the same ident |
| CloakIdent.KeyIgnoredForLongIp | m_ipident/m_ipident.c:182-187 | for an IP text of nine or more characters the ident is the same whichever key is picked |
| CloakIdent.TestScan | m_ipident/m_ipident.c:110-125 | the configtest loop from a key count: the count grows by at most the number of entries, with at most one error per entry |
| CloakIdent.TestScanBounded | m_ipident/m_ipident.c:110-125 | configtest never counts past five keys |
| CloakIdent.TestScanAccepts | m_ipident/m_ipident.c:110-125 | a block passes iff every entry has a value and there are at most five; the count then grows by the number of entries |
| CloakIdent.FirstKeys | m_ipident/m_ipident.c:146-155 | configrun keeps min(n, 5) keys: the first values, in order |
| CloakIdent.AcceptedBlockKeepsEveryKey | m_ipident/m_ipident.c:110-155 | a block that configtest accepted loses no key in configrun |
| CloakIdent.Client.constructor | m_ipident/m_ipident.c:165-168 | a client with its IP, user record and username |
| CloakIdent.CloakConfig.constructor | m_ipident/m_ipident.c:55-56 | zeroed: no keys |
| CloakIdent.CloakConfig.FreeCfg | m_ipident/m_ipident.c:84-94 | every slot cleared and the count zero |
| CloakIdent.CloakConfig.ConfigTest | m_ipident/m_ipident.c:97-129 | a foreign block changes nothing; for its own block, the errors and the new count are those of `TestScan` |
| CloakIdent.CloakConfig.ConfigRun | m_ipident/m_ipident.c:132-158 | claims its own block. The configuration is freed, then the stored keys are `FirstKeys` of the block, the other slots empty |
| CloakIdent.CloakConfig.SetIdent | m_ipident/m_ipident.c:165-197 | no IP, no user or no key leaves the username alone; otherwise the username is the ident of IP followed by the key `rand() % key_count` picks |
| IpIdentLegacy.LegacyErrors | m_ipident.c:93-105 | the configtest loop as written: at most one error per entry; no error only when every entry is usable and, for a non-empty block, the count is below five. Nothing bounds the number of entries |
| IpIdentLegacy.UnusableCount | m_ipident.c:93-98 | one error per entry missing a name or a value; zero iff all are usable |
| IpIdentLegacy.BelowLimitCountsOnlyUnusable | m_ipident.c:93-105 | below five stored keys the errors are exactly the unusable entries, however many keys follow |
| IpIdentLegacy.AtLimitRejectsAnyKey | m_ipident.c:100-104 | from five stored keys on, any usable entry fails the block |
| IpIdentLegacy.ConfigTest | m_ipident.c:80-109 | reads the key count and changes nothing; a foreign block is ignored; the errors are `LegacyErrors` |
| IpIdentLegacy.SixKeysPassAsWritten | m_ipident.c:93-105 | as written, six keys pass configtest from a zero count while configrun keeps five |
| IpIdentLegacy.SixKeysFailWhenCounted | m_ipident/m_ipident.c:110-125 | corrected: counting keys, the same block fails; any block that passes keeps every key in configrun |
| WelcomeMessages.InvalidCount | m_welcomemessages/m_welcomemessages.c:110-131 | one error per entry lacking a name or value, or with a name of 32 or more, or a message of 512 or more; zero iff every entry is valid |
| WelcomeMessages.ConfigTest | m_welcomemessages/m_welcomemessages.c:97-132 | a foreign block is ignored; the errors are `InvalidCount` |
| WelcomeMessages.Stored | m_welcomemessages/m_welcomemessages.c:161-162 | a stored pair is a prefix of the name of at most 32 bytes and a prefix of the value of at most 511 |
| WelcomeMessages.AcceptedBlockStoredVerbatim | m_welcomemessages/m_welcomemessages.c:117-127 | every entry of a block configtest accepted is stored verbatim |
| WelcomeMessages.FirstMatch | m_welcomemessages/m_welcomemessages.c:174-179 | the lowest index whose pattern matches; none iff no pattern matches |
| WelcomeMessages.FirstMatchOfPrefix | m_welcomemessages/m_welcomemessages.c:174-179 | the search loop stopping at i agrees with `FirstMatch` |
| WelcomeMessages.JoinNoticeIsFirstMatch | m_welcomemessages/m_welcomemessages.c:174-179 | a notice is found iff some pattern matches |
| WelcomeMessages.WelcomeTable.constructor | m_welcomemessages/m_welcomemessages.c:81-85 | no table, count zero |
| WelcomeMessages.WelcomeTable.FreeCfg | m_welcomemessages/m_welcomemessages.c:88-94 | table released and count zero |
| WelcomeMessages.WelcomeTable.ConfigRun | m_welcomemessages/m_welcomemessages.c:140-167 | claims its own block. The count is the number of entries and entry i is stored at i, cut to the buffers |
| WelcomeMessages.WelcomeTable.Join | m_welcomemessages/m_welcomemessages.c:170-181 | a non-user gets nothing; a user gets the message of the first matching pattern, or nothing |
| ListSg.StrlCatText | listsg/listsg.c:117-119 | the buffer never holds more than 511 bytes |
| ListSg.Step | listsg/listsg.c:114-129 | a client outside the group changes nothing; one in it sets `member_found` and either joins the pending line or, at ten names or 462 bytes, is flushed with it as one more line |
| ListSg.Scan | listsg/listsg.c:114-130 | one chunk of names per flushed line |
| ListSg.MembersOutput | listsg/listsg.c:99-140 | an unknown group gives only "does not exist". Otherwise the header comes first, then one notice per chunk of names, plus "has no members" iff the group has no local member |
| ListSg.ScanShape | listsg/listsg.c:114-130 | fewer than ten pending names. Each flushed line has 1-10 names, flushed at ten names or 462 bytes. The chunks then the pending names are the members in order. `member_found` iff some member |
| ListSg.ScanBounds | listsg/listsg.c:114-130 | the pending line stays below ten names and 462 bytes; a flushed line holds 1-10 names and was flushed at ten names or 462 bytes |
| ListSg.ScanOrder | listsg/listsg.c:114-130 | the flushed chunks then the pending names are the group's members in list order; `member_found` iff there is one |
| ListSg.ScanExact | listsg/listsg.c:116-128 | with names of at most 48 bytes the buffer is the pending names joined by ", " and each line is "- " and its names joined |
| ListSg.MemberNoticesAreJoinedChunks | listsg/listsg.c:116-135 | with names of at most 48 bytes, member notice i is "- " and the names of the i-th chunk joined by ", ", the final partial line included |
| ListSg.ListingCoversMembers | listsg/listsg.c:114-135 | the names sent, line by line, are every member in list order, each once, with 1-10 per line |
| ListSg.NoMembersNoticeIffEmpty | listsg/listsg.c:133-139 | "has no members" ends the output iff no client is in the group, and then no member line is sent |
| ListSg.FlushedLinesAreMemberLines | listsg/listsg.c:125 | every flushed line starts with "- " |
| ListSg.StrlCat | listsg/listsg.c:117-119 | in-place `strlcat` on the 512-byte buffer: the new text is `StrlCatText` and it is NUL-terminated |
| ListSg.ListMembers | listsg/listsg.c:99-140 | the buffer loop emits exactly `MembersOutput`: "does not exist" alone for an unknown group, else header, member lines, final flush, and "has no members" |
| ListSg.GroupsOutput | listsg/listsg.c:87-96 | null or empty groups give only the "not part of any" notice; otherwise exactly two notices, the "Security groups for user" header and "- " with the groups |
| ListSg.CmdSg | listsg/listsg.c:60-68 | no parameter gives only the usage notice; otherwise the group's member listing |
| ListSg.CmdSgUser | listsg/listsg.c:71-84 | no parameter gives usage; an unknown nick gives "No such nickname"; otherwise the user's groups |
| MListSg.CmdSg | m_listsg/m_listsg.c:55-68 | no parameter gives usage. A nickname lists that user's groups, even over a group of the same name. Otherwise the argument is listed as a group |
| AfkMode.On | m_afkmode/m_afkmode.c:77-82 | AFK-ON creates a missing record, sets the flag and keeps the message |
| AfkMode.Off | m_afkmode/m_afkmode.c:88-96 | AFK-OFF clears flag and message of a record and leaves a missing record missing |
| AfkMode.SetMessage | m_afkmode/m_afkmode.c:109-117 | the message is replaced and the flag kept; a new record starts not AFK |
| AfkMode.WhoisLine | m_afkmode/m_afkmode.c:66-73 | a line iff a record exists, the flag is set and the target is not U-lined; it shows the message or "is currently AFK." |
| AfkMode.JudgeMessage | m_afkmode/m_afkmode.c:101-108 | no parameter gives usage, more than 256 bytes is too long, and exactly 256 is accepted |
| AfkMode.CommandsKeepBound | m_afkmode/m_afkmode.c:105-117 | no command ever stores a message longer than 256 |
| AfkMode.OffClearsEverything | m_afkmode/m_afkmode.c:88-96 | after AFK-OFF nothing is shown, and a later AFK-ON shows the default text |
| AfkMode.MessageAndOnCommute | m_afkmode/m_afkmode.c:77-117 | AFK-MESSAGE and AFK-ON commute, and then the message is shown |
| AfkMode.MessageAloneIsHidden | m_afkmode/m_afkmode.c:109-117 | a message set while not AFK is not shown |
| AfkMode.AfkInfo.constructor | m_afkmode/m_afkmode.c:79 | a new record is not AFK and has no message |
| AfkMode.AfkClient.constructor | m_afkmode/m_afkmode.c:67 | a client starts with no record |
| AfkMode.AfkClient.AfkOn | m_afkmode/m_afkmode.c:75-84 | non-local or U-lined clients are untouched; otherwise the record becomes `On` of the old one and the notice is sent |
| AfkMode.AfkClient.AfkOff | m_afkmode/m_afkmode.c:86-97 | the record becomes `Off` of the old one; a notice iff a record existed |
| AfkMode.AfkClient.AfkMessage | m_afkmode/m_afkmode.c:99-119 | usage and too-long leave the record alone with their notice; accepted, the record becomes `SetMessage` |
| AfkMode.AfkClient.Whois | m_afkmode/m_afkmode.c:66-73 | the line is `WhoisLine` of the client's record |

## Left out

- The HTTP transfer (UnrealIRCd's URL API and libcurl), JSON parsing (jansson) and the MaxMind database are abstract values handed in as parameters. Only their outcomes are modelled.
- The cache mutex and any concurrency: every operation is atomic.
- The persistent save and restore of the cache across reloads is not modelled. This is `LoadPersistentPointer` and `SavePersistentPointer`.
- Logging and `config_error`/`config_warn` texts. Only their count matters, as the error count.
- Memory management: `free`, the unused name-value list built in the callback, and `afk_info_free`. Also left out are the out-of-memory paths of `strdup` in citywhois configtest and cloak-key configrun, and the unchecked `malloc` of the welcome table.
- The SHA-256 digest computed in the ident hook is never used, and is left out.
- GeoCache.Cache.Add: requires the key to be absent. Two asynchronous requests for the same IP can both complete and add it twice, which `HASH_ADD_STR` does not prevent. This is not modelled.
- GeoCache.Cache.Add: requires the IP to fit 45 bytes and the text 255, because `strcpy` into the fixed fields overflows otherwise.
- MIpinfoWhois.MemoryStruct.WriteMemory: `size * nmemb` is unbounded, so `size_t` overflow is not modelled. The uninitialised first byte of the fresh one-byte buffer, read when a transfer delivers no data, is not modelled either.
- IpinfoIoWhois.IpinfoIoWhois.Callback: requires the target's IP to be absent from the cache and at most 45 bytes. Two requests for one IP can both complete and add it twice, which `HASH_ADD_STR` does not prevent; a longer IP overflows `strcpy` into `ip[46]`. Neither is modelled.
- MIpinfoWhois.MIpinfoWhois.Whois: requires a key, as configposttest guarantees before the hook runs, and an IP of at most 45 bytes, because `strcpy` into `ip[46]` overflows otherwise. A target without an IP is not modelled.
- IpinfoIoWhois.IpinfoIoWhois.Whois: requires a key, as configposttest guarantees before the hook runs. A target without an IP (`acptr->ip` NULL) is not modelled: the IP is a string.
- CityWhois.CityWhoisConfig.ConfigTest: requires a main-config block to have a name, which `strcmp` reads. For its own block it also requires every item name and every `db` value to be present, since the code passes them to `strcmp` and `strdup` unchecked. A foreign block's items are never read.
- CloakIdent.CloakConfig.SetIdent: requires the IP followed by the picked key to hold at least nine characters, because shorter text makes the loop read uninitialised bytes. It also requires both to be C strings.
- CloakIdent.CloakConfig.ConfigRun: requires values on the first five entries, which `strdup` receives. The failure path that frees everything when `strdup` fails is not modelled.
- WelcomeMessages.WelcomeTable.ConfigRun: requires every entry to have a name and a value, as the unchecked `strlcpy` calls need.
- `match_simple`, `find_client`, `find_security_group`, `user_allowed_by_security_group_name`, `get_security_groups`, `convert_to_absolute_path`, `access`, `rand` and `time` are parameters. They are not modelled.
- Notice and numeric formatting by the host (`sendnotice`, `add_nvplist_numeric_fmt`) is not modelled: a line is its text.
- The welcome module's configposttest always succeeds and citywhois configrun only claims its block (`CityWhois.ConfigRun`). Neither has a contract worth stating.

## Findings

| source | as written | input that shows it | evidently intended | confidence | as-written member | corrected member |
|---|---|---|---|---|---|---|
| ipinfo_io_whois/ipinfo_io_whois.c:253-256 | the callback reads `requester` from `callback_data`, which the WHOIS hook set to the target (line 282), and sends the line there | an oper WHOISes another user whose IP is not cached | the line goes to the oper who ran WHOIS | high, not executed | IpinfoIoWhois.AsWrittenAnswersTheTarget | IpinfoIoWhois.AnswerReachesRequester |
| m_ipident.c:93-105 | configtest compares the key count with five but never raises it, so from a fresh start the check never fires | a `cloak-keys` block with six valued entries: no error, and configrun silently keeps five | count keys in configtest, as `m_ipident/m_ipident.c:124` does, so a sixth key is an error | medium, not executed | IpIdentLegacy.SixKeysPassAsWritten | IpIdentLegacy.SixKeysFailWhenCounted |
