/** The citywhois module: a WHOIS line with the city of the target's IP,
    looked up in a local MaxMind database, plus the `db` configuration and
    the open/close state of the database.

    The database is not modelled: a lookup is the abstract outcome
    `MmdbOutcome`, and opening the file succeeds or fails as a
    parameter says. */
module CityWhois {
  import opened Common

  const MyConf: string := "citywhois"
  /** `char city[256]`. */
  const CityCapacity: nat := 255

  /** What `MMDB_lookup_string` and `MMDB_get_value(..., "city", "names",
      "en")` report for an IP: a getaddrinfo error, a libmaxminddb error,
      no entry, or an entry with the English city name when the value was
      read and has data (the `data_size` bytes of the UTF-8 text). */
  datatype MmdbOutcome = GaiError | MmdbError | NoEntry | Found(city: Option<string>)

  datatype CityTarget = CityTarget(name: string, isUser: bool, ip: Option<string>)

  /** The four lines the hook can add. */
  datatype CityLine = FromCity(city: string) | UnknownCity | UnknownLocation | NoIp

  /** `acptr->ip && *acptr->ip`. */
  predicate HasIp(target: CityTarget) {
    target.ip.Some? && target.ip.value != ""
  }

  /** `citywhois_whois`: which line, if any, the hook adds. */
  function Decide(requesterIsOper: bool, target: CityTarget, dbLoaded: bool, lookup: MmdbOutcome): (r: Option<CityLine>)
    ensures r.Some? ==> requesterIsOper && target.isUser
    ensures r == Some(NoIp) <==> requesterIsOper && target.isUser && !HasIp(target)
    ensures requesterIsOper && target.isUser && HasIp(target) ==>
              (r.None? <==> !dbLoaded || lookup.GaiError? || lookup.MmdbError?)
    ensures r == Some(UnknownLocation) <==>
              requesterIsOper && target.isUser && HasIp(target) && dbLoaded && lookup.NoEntry?
    ensures r == Some(UnknownCity) <==>
              requesterIsOper && target.isUser && HasIp(target) && dbLoaded && lookup == Found(None)
    ensures requesterIsOper && target.isUser && HasIp(target) && dbLoaded && lookup.Found? && lookup.city.Some? ==>
              r == Some(FromCity(Truncate(lookup.city.value, CityCapacity)))
    ensures r.Some? && r.value.FromCity? ==>
              lookup.Found? && lookup.city.Some? && r.value.city == Truncate(lookup.city.value, CityCapacity)
  {
    if !requesterIsOper || !target.isUser then None
    else if !HasIp(target) then Some(NoIp)
    else if !dbLoaded then None
    else match lookup
      case GaiError => None
      case MmdbError => None
      case Found(city) =>
        if city.Some? then Some(FromCity(Truncate(city.value, CityCapacity))) else Some(UnknownCity)
      case NoEntry => Some(UnknownLocation)
  }

  /** What follows the client's name in the `320` line. */
  function Tail(line: CityLine): string {
    match line
    case FromCity(city) => " :is connecting from City: " + city
    case UnknownCity => " :is connecting from an unknown city"
    case UnknownLocation => " :is connecting from an unknown location"
    case NoIp => " :No IP found!!"
  }

  /** The text of the `320` line for client `name`: it starts with the
      name, and the outcome can be read back from the rest. */
  function LineText(name: string, line: CityLine): (text: string)
    ensures |name| <= |text| && text[..|name|] == name
    ensures ParseTail(text[|name|..]) == line
  {
    ParseTailRoundTrip(line);
    assert (name + Tail(line))[|name|..] == Tail(line);
    name + Tail(line)
  }

  /** The line the hook adds to the WHOIS reply, if any: present exactly
      when `Decide` gives an outcome, naming the target, and telling which
      outcome it was; a found city is shown cut to 255 bytes. */
  function Whois(requesterIsOper: bool, target: CityTarget, dbLoaded: bool, lookup: MmdbOutcome): (r: Option<string>)
    ensures r.Some? <==> Decide(requesterIsOper, target, dbLoaded, lookup).Some?
    ensures r.Some? ==> |target.name| <= |r.value| && r.value[..|target.name|] == target.name
                        && ParseTail(r.value[|target.name|..]) == Decide(requesterIsOper, target, dbLoaded, lookup).value
    ensures requesterIsOper && target.isUser && HasIp(target) && dbLoaded && lookup.Found? && lookup.city.Some? ==>
              r == Some(target.name + " :is connecting from City: " + Truncate(lookup.city.value, CityCapacity))
  {
    var d := Decide(requesterIsOper, target, dbLoaded, lookup);
    if d.Some? then
      assert d.value.FromCity? ==>
        LineText(target.name, d.value) == target.name + " :is connecting from City: " + d.value.city;
      Some(LineText(target.name, d.value))
    else None
  }

  /** Reads the outcome back from a tail, by the characters at which
      the four texts differ. */
  function ParseTail(t: string): CityLine {
    if |t| > 2 && t[2] == 'N' then NoIp
    else if |t| >= 27 && t[21] == 'C' then FromCity(t[27..])
    else if |t| > 32 && t[32] == 'c' then UnknownCity
    else UnknownLocation
  }

  /** Round trip: every outcome is recovered from its tail. */
  lemma ParseTailRoundTrip(line: CityLine)
    ensures ParseTail(Tail(line)) == line
  {
    match line
    case FromCity(city) =>
      assert Tail(line)[2] == 'i' && Tail(line)[21] == 'C';
      assert Tail(line)[27..] == city;
    case UnknownCity =>
    case UnknownLocation =>
    case NoIp =>
  }

  /** The lines are told apart by their text: different outcomes for the
      same client never produce the same line, so a found city, an
      unknown city, an unknown location and a missing IP are always
      distinguishable to the reader. */
  lemma LinesAreDistinct(name: string, a: CityLine, b: CityLine)
    requires LineText(name, a) == LineText(name, b)
    ensures a == b
  {
    var n := |name|;
    assert Tail(a) == LineText(name, a)[n..] == LineText(name, b)[n..] == Tail(b);
    ParseTailRoundTrip(a);
    ParseTailRoundTrip(b);
  }

  /** A `db` item. */
  predicate IsDb(e: ConfigEntry) {
    e.name == Some("db")
  }

  /** A `db` item whose file, made absolute, is readable. */
  predicate Accepted(e: ConfigEntry, absolute: string -> string, readable: string -> bool) {
    IsDb(e) && e.value.Some? && readable(absolute(e.value.value))
  }

  /** The stored path after scanning `items` from `init`: each accepted
      `db` item replaces it with its absolute path. */
  function PathAfter(items: seq<ConfigEntry>, init: Option<string>,
                     absolute: string -> string, readable: string -> bool): (r: Option<string>)
    ensures r == init || exists j :: 0 <= j < |items| && Accepted(items[j], absolute, readable)
                                     && r == Some(absolute(items[j].value.value))
  {
    if items == [] then init
    else
      var last := items[|items| - 1];
      if Accepted(last, absolute, readable) then Some(absolute(last.value.value))
      else
        var prefix := items[..|items| - 1];
        assert forall j :: 0 <= j < |prefix| ==> prefix[j] == items[j];
        PathAfter(prefix, init, absolute, readable)
  }

  /** The configtest error count: one per unknown directive and one per
      `db` item whose file cannot be read. */
  function ErrorCount(items: seq<ConfigEntry>, absolute: string -> string, readable: string -> bool): (n: nat)
    ensures n <= |items|
    ensures n == 0 <==> forall j :: 0 <= j < |items| ==> Accepted(items[j], absolute, readable)
  {
    if items == [] then 0
    else
      var prefix := items[..|items| - 1];
      var n := ErrorCount(prefix, absolute, readable);
      assert forall j :: 0 <= j < |prefix| ==> prefix[j] == items[j];
      n + (if Accepted(items[|items| - 1], absolute, readable) then 0 else 1)
  }

  /** The last accepted `db` item decides the path. */
  lemma {:induction false} PathLastWins(items: seq<ConfigEntry>, init: Option<string>,
                                        absolute: string -> string, readable: string -> bool, k: nat)
    requires k < |items| && Accepted(items[k], absolute, readable)
    requires forall j :: k < j < |items| ==> !Accepted(items[j], absolute, readable)
    ensures PathAfter(items, init, absolute, readable) == Some(absolute(items[k].value.value))
  {
    if k < |items| - 1 {
      PathLastWins(items[..|items| - 1], init, absolute, readable, k);
    }
  }

  /** An unreadable file leaves the earlier path in place. */
  lemma {:induction false} PathKeptWithoutAcceptedDb(items: seq<ConfigEntry>, init: Option<string>,
                                                     absolute: string -> string, readable: string -> bool)
    requires forall j :: 0 <= j < |items| ==> !Accepted(items[j], absolute, readable)
    ensures PathAfter(items, init, absolute, readable) == init
  {
    if items != [] {
      PathKeptWithoutAcceptedDb(items[..|items| - 1], init, absolute, readable);
    }
  }

  /** What `citywhois_configtest` needs of the host's block: `strcmp` is
      called on the block name and on every item name, and `strdup` on the
      value of every `db` item, none of which may be NULL. */
  predicate WellFormed(block: ConfigBlock) {
    block.name.Some?
    && forall j :: 0 <= j < |block.items| ==>
         block.items[j].name.Some? && (IsDb(block.items[j]) ==> block.items[j].value.Some?)
  }

  /** `citywhois_configrun`: claims its own block and does nothing else,
      the path having been stored by configtest. */
  predicate ConfigRun(isMain: bool, block: ConfigBlock) {
    IsMine(isMain, block, MyConf)
  }

  /** `citywhois_config`: the configured path and whether the database is
      open. */
  class CityWhoisConfig {
    var dbPath: Option<string>
    var dbLoaded: bool

    /** Module test: the configuration is zeroed. */
    constructor ()
      ensures dbPath == None && !dbLoaded
    {
      dbPath := None;
      dbLoaded := false;
    }

    /** `MOD_LOAD`: the database is opened only when a path is set and it
        is not open yet; `openCalled` says whether `MMDB_open` was called and
        `openOk` is its result. A failed open fails the load and leaves the
        database closed. */
    method Load(openOk: bool) returns (success: bool, openCalled: bool)
      modifies this
      ensures dbPath == old(dbPath)
      ensures openCalled <==> old(dbPath).Some? && !old(dbLoaded)
      ensures success <==> !openCalled || openOk
      ensures dbLoaded <==> old(dbLoaded) || (openCalled && openOk)
    {
      openCalled := false;
      if dbPath.Some? && !dbLoaded {
        openCalled := true;
        if !openOk {
          return false, openCalled;
        }
        dbLoaded := true;
      }
      success := true;
    }

    /** `MOD_UNLOAD`: the database is closed and the path freed. */
    method Unload()
      modifies this
      ensures !dbLoaded && dbPath == None
    {
      if dbLoaded {
        dbLoaded := false;
      }
      if dbPath.Some? {
        dbPath := None;
      }
    }

    /** `citywhois_configtest`: every item other than `db` is an error; a
        `db` item whose absolute path is readable replaces the stored path,
        one that is not readable is an error and keeps the old path.
        `absolute` and `readable` stand for `convert_to_absolute_path` and
        `access(path, R_OK) == 0`. */
    method ConfigTest(isMain: bool, block: ConfigBlock, absolute: string -> string, readable: string -> bool)
      returns (outcome: TestOutcome)
      requires isMain ==> block.name.Some?
      requires IsMine(isMain, block, MyConf) ==> WellFormed(block)
      modifies this
      ensures dbLoaded == old(dbLoaded)
      ensures !IsMine(isMain, block, MyConf) ==> outcome == NotMine && dbPath == old(dbPath)
      ensures IsMine(isMain, block, MyConf) ==>
                outcome == Checked(ErrorCount(block.items, absolute, readable))
                && dbPath == PathAfter(block.items, old(dbPath), absolute, readable)
    {
      if !IsMine(isMain, block, MyConf) {
        return NotMine;
      }
      var items := block.items;
      var errors := 0;
      var stored := dbPath;
      for i := 0 to |items|
        invariant errors == ErrorCount(items[..i], absolute, readable)
        invariant stored == PathAfter(items[..i], old(dbPath), absolute, readable)
      {
        var cep := items[i];
        var seen := items[..i + 1];
        assert seen[..i] == items[..i] && seen[i] == cep;
        assert cep.name.Some? && (IsDb(cep) ==> cep.value.Some?);
        if cep.name.value == "db" {
          var path := absolute(cep.value.value);
          if !readable(path) {
            errors := errors + 1;
          } else {
            stored := Some(path);
          }
        } else {
          errors := errors + 1;
        }
      }
      assert items[..|items|] == items;
      dbPath := stored;
      outcome := Checked(errors);
    }

    /** `citywhois_configposttest`: an error exactly when no path is set. */
    function ConfigPostTest(): (outcome: TestOutcome)
      reads this
      ensures outcome.Checked?
      ensures Code(outcome) == -1 <==> dbPath.None?
    {
      Checked(if dbPath.None? then 1 else 0)
    }
  }
}
