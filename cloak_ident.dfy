/** The IP-based ident module: up to five cloak keys read from the
    `cloak-ident-keys` block, and on each local connect a nine-character
    ident derived from the client's IP text followed by one of the keys.

    C strings are `string`s whose characters are the bytes 1..255; the
    byte a character stands for is its code. `rand()` is the parameter
    `pick`. */
module CloakIdent {
  import opened Common

  const MyConf: string := "cloak-ident-keys"
  const MaxCloakKeys: nat := 5
  /** `char combined_hash[SHA256_DIGEST_LENGTH + 64 + 1]`: 96 characters and
      the terminator. */
  const CombinedCapacity: nat := 96
  const IdentLength: nat := 9

  /** A C string: no NUL, every character one byte. */
  predicate IsCString(s: string) {
    forall i :: 0 <= i < |s| ==> 0 < s[i] as int < 256
  }

  predicate IsLower(c: char) { 'a' <= c <= 'z' }
  predicate IsUpper(c: char) { 'A' <= c <= 'Z' }
  predicate IsDigit(c: char) { '0' <= c <= '9' }

  /** `snprintf(combined_hash, 97, "%s%s", ip, key)`. */
  function Combined(ip: string, key: string): (c: string)
    ensures |c| <= CombinedCapacity
  {
    Truncate(ip + key, CombinedCapacity)
  }

  /** Position `i` of the ident for source byte `b`: a letter for the first
      six positions (lower case for an even byte, upper case for an odd
      one, `b % 26` letters in), a decimal digit `b % 10` for the rest. */
  function IdentChar(i: nat, b: int): char
    requires 0 <= b < 256
  {
    if i < 6 then
      if b % 2 == 0 then ('a' as int + b % 26) as char else ('A' as int + b % 26) as char
    else ('0' as int + b % 10) as char
  }

  /** The character classes the ident is made of: letters whose case
      follows the parity of the byte (an even byte can only give an
      even-indexed letter, an odd one an odd-indexed letter), then digits. */
  lemma IdentCharClass(i: nat, b: int)
    requires 0 <= b < 256
    ensures i < 6 && b % 2 == 0 ==> IsLower(IdentChar(i, b)) && (IdentChar(i, b) as int - 'a' as int) % 2 == 0
    ensures i < 6 && b % 2 == 1 ==> IsUpper(IdentChar(i, b)) && (IdentChar(i, b) as int - 'A' as int) % 2 == 1
    ensures i >= 6 ==> IsDigit(IdentChar(i, b)) && IdentChar(i, b) as int - '0' as int == b % 10
  {
    var k := 13 * (b / 26);
    assert b % 26 == b - 2 * k;
  }

  /** The ident for a combined text of at least nine characters. */
  function IdentOf(combined: string): (ident: string)
    requires IsCString(combined) && IdentLength <= |combined|
    ensures |ident| == IdentLength
  {
    seq(IdentLength, i requires 0 <= i < IdentLength => IdentChar(i, combined[i] as int))
  }

  /** A C-string IP and key give a C-string combined text. */
  lemma CombinedIsCString(ip: string, key: string)
    requires IsCString(ip) && IsCString(key)
    ensures IsCString(Combined(ip, key))
    ensures |ip| + |key| >= IdentLength ==> |Combined(ip, key)| >= IdentLength
  {
    var c := Combined(ip, key);
    assert forall i :: 0 <= i < |c| ==> c[i] == (ip + key)[i];
  }

  /** The ident loop of `set_crypto_ip_based_ident`: position `i` is made
      from byte `i % 96` of the combined text, which is byte `i` since
      `i < 9`. The combined text must hold at least nine characters; a
      shorter one would make the loop read past its terminator. */
  method BuildIdent(combined: string) returns (ident: string)
    requires IsCString(combined)
    requires IdentLength <= |combined| <= CombinedCapacity
    ensures |ident| == IdentLength
    ensures forall i :: 0 <= i < 6 ==> IsLower(ident[i]) || IsUpper(ident[i])
    ensures forall i :: 6 <= i < IdentLength ==> IsDigit(ident[i])
    ensures forall i :: 0 <= i < IdentLength ==> ident[i] == IdentChar(i, combined[i % CombinedCapacity] as int)
    ensures ident == IdentOf(combined)
  {
    var buf := new char[IdentLength];
    for i := 0 to IdentLength
      invariant forall j :: 0 <= j < i ==> buf[j] == IdentChar(j, combined[j % CombinedCapacity] as int)
      invariant forall j :: 0 <= j < i && j < 6 ==> IsLower(buf[j]) || IsUpper(buf[j])
      invariant forall j :: 6 <= j < i ==> IsDigit(buf[j])
    {
      var b := combined[i % CombinedCapacity] as int;
      IdentCharClass(i, b);
      if i < 6 {
        buf[i] := if b % 2 == 0 then ('a' as int + b % 26) as char else ('A' as int + b % 26) as char;
      } else {
        buf[i] := ('0' as int + b % 10) as char;
      }
    }
    ident := buf[..];
    assert forall i :: 0 <= i < IdentLength ==> i % CombinedCapacity == i;
  }

  /** Only the first nine characters of the combined text matter. */
  lemma IdentReadsNineBytes(c1: string, c2: string)
    requires IsCString(c1) && IsCString(c2)
    requires IdentLength <= |c1| && IdentLength <= |c2|
    requires c1[..IdentLength] == c2[..IdentLength]
    ensures IdentOf(c1) == IdentOf(c2)
  {
    assert forall i :: 0 <= i < IdentLength ==> c1[i] == c1[..IdentLength][i];
    assert forall i :: 0 <= i < IdentLength ==> c2[i] == c2[..IdentLength][i];
  }

  /** For an IP text of nine characters or more (any dotted IPv4 address
      of ten or more characters, most IPv6 addresses) the combined text
      starts with nine characters of the IP, so the ident is the same
      whichever key is picked. */
  lemma KeyIgnoredForLongIp(ip: string, key1: string, key2: string)
    requires IsCString(ip) && IsCString(key1) && IsCString(key2)
    requires |ip| >= IdentLength
    ensures IdentOf(Combined(ip, key1)) == IdentOf(Combined(ip, key2))
  {
    CombinedIsCString(ip, key1);
    CombinedIsCString(ip, key2);
    assert (ip + key1)[..IdentLength] == ip[..IdentLength];
    assert (ip + key2)[..IdentLength] == ip[..IdentLength];
    assert Combined(ip, key1)[..IdentLength] == Combined(ip, key2)[..IdentLength];
    IdentReadsNineBytes(Combined(ip, key1), Combined(ip, key2));
  }

  /** The configtest scan: keys counted from `count`, and errors. */
  datatype Scan = Scan(count: nat, errors: nat)

  /** `m_ipident_configtest`'s loop from a key count of `count`: an entry
      without a value is an error and is skipped; once the count has
      reached five, the next valued entry is an error and ends the scan;
      any other entry adds one key. */
  function TestScan(items: seq<ConfigEntry>, count: nat): (s: Scan)
    ensures count <= s.count <= count + |items|
    ensures s.errors <= |items|
    decreases |items|
  {
    if items == [] then Scan(count, 0)
    else if items[0].value.None? then
      var rest := TestScan(items[1..], count);
      Scan(rest.count, rest.errors + 1)
    else if count >= MaxCloakKeys then Scan(count, 1)
    else TestScan(items[1..], count + 1)
  }

  /** The scan never counts past five keys. */
  lemma {:induction false} TestScanBounded(items: seq<ConfigEntry>, count: nat)
    requires count <= MaxCloakKeys
    ensures count <= TestScan(items, count).count <= MaxCloakKeys
    decreases |items|
  {
    if items != [] && (items[0].value.None? || count < MaxCloakKeys) {
      TestScanBounded(items[1..], if items[0].value.None? then count else count + 1);
    }
  }

  /** A block passes exactly when every entry has a value and, counting
      from `count`, there are at most five keys; the count then grows by
      the number of entries. */
  lemma {:induction false} TestScanAccepts(items: seq<ConfigEntry>, count: nat)
    requires count <= MaxCloakKeys
    ensures TestScan(items, count).errors == 0 <==>
              (forall j :: 0 <= j < |items| ==> items[j].value.Some?) && count + |items| <= MaxCloakKeys
    ensures TestScan(items, count).errors == 0 ==> TestScan(items, count).count == count + |items|
    decreases |items|
  {
    if items != [] {
      if items[0].value.None? {
        TestScanAccepts(items[1..], count);
      } else if count < MaxCloakKeys {
        TestScanAccepts(items[1..], count + 1);
        assert forall j :: 1 <= j < |items| ==> items[j] == items[1..][j - 1];
      }
    }
  }

  /** What `m_ipident_configrun` stores: the values of the first five
      entries, in order. */
  function FirstKeys(items: seq<ConfigEntry>): (keys: seq<Option<string>>)
    ensures |keys| == if |items| < MaxCloakKeys then |items| else MaxCloakKeys
    ensures forall j :: 0 <= j < |keys| ==> keys[j] == items[j].value
  {
    if |items| <= MaxCloakKeys then seq(|items|, j requires 0 <= j < |items| => items[j].value)
    else seq(MaxCloakKeys, j requires 0 <= j < MaxCloakKeys => items[j].value)
  }

  /** A block that configtest accepted from zero keys loses no key in
      configrun. */
  lemma AcceptedBlockKeepsEveryKey(items: seq<ConfigEntry>)
    requires TestScan(items, 0).errors == 0
    ensures |FirstKeys(items)| == |items|
    ensures forall j :: 0 <= j < |items| ==> FirstKeys(items)[j] == items[j].value && items[j].value.Some?
  {
    TestScanAccepts(items, 0);
  }

  /** A connecting client: its IP text (NULL when unknown), whether it has
      a user record, and the username that record holds. */
  class Client {
    const ip: Option<string>
    const hasUser: bool
    var username: string

    constructor (ip: Option<string>, hasUser: bool, username: string)
      ensures this.ip == ip && this.hasUser == hasUser && this.username == username
    {
      this.ip := ip;
      this.hasUser := hasUser;
      this.username := username;
    }
  }

  /** `CloakConfig`: the key slots (NULL is `None`) and the key count. The
      block name the configuration answers to is fixed per module. */
  class CloakConfig {
    const blockName: string
    const keys: array<Option<string>>
    var keyCount: nat

    ghost predicate Valid()
      reads this, keys
    {
      keys.Length == MaxCloakKeys && keyCount <= MaxCloakKeys
      && forall j :: 0 <= j < keyCount ==> keys[j].Some?
    }

    /** The configured keys, in order. */
    ghost function Keys(): seq<Option<string>>
      reads this, keys
      requires Valid()
    {
      keys[..keyCount]
    }

    /** Module test: the configuration is zeroed. */
    constructor (blockName: string)
      ensures Valid() && fresh(keys) && this.blockName == blockName
      ensures keyCount == 0 && forall j :: 0 <= j < MaxCloakKeys ==> keys[j].None?
    {
      this.blockName := blockName;
      keys := new Option<string>[MaxCloakKeys](_ => None);
      keyCount := 0;
    }

    /** `freecfg` then `setcfg`: the keys are released and the whole
        configuration zeroed. */
    method FreeCfg()
      requires keys.Length == MaxCloakKeys
      modifies this, keys
      ensures Valid() && keyCount == 0 && Keys() == []
      ensures forall j :: 0 <= j < MaxCloakKeys ==> keys[j].None?
    {
      for j := 0 to MaxCloakKeys
        invariant forall k :: 0 <= k < j ==> keys[k].None?
      {
        keys[j] := None;
      }
      keyCount := 0;
    }

    /** `m_ipident_configtest`: scans the block with `TestScan`, counting
        keys into `key_count` (which the module init zeroes again before
        configrun). */
    method ConfigTest(isMain: bool, block: ConfigBlock) returns (outcome: TestOutcome)
      modifies this
      ensures !IsMine(isMain, block, blockName) ==> outcome == NotMine && keyCount == old(keyCount)
      ensures IsMine(isMain, block, blockName) ==>
                outcome == Checked(TestScan(block.items, old(keyCount)).errors)
                && keyCount == TestScan(block.items, old(keyCount)).count
    {
      if !IsMine(isMain, block, blockName) {
        return NotMine;
      }
      var items := block.items;
      var errors := 0;
      var i := 0;
      while i < |items|
        invariant 0 <= i <= |items|
        invariant TestScan(items[i..], keyCount).count == TestScan(items, old(keyCount)).count
        invariant errors + TestScan(items[i..], keyCount).errors == TestScan(items, old(keyCount)).errors
      {
        assert items[i..][1..] == items[i + 1..];
        if items[i].value.None? {
          errors := errors + 1;
          i := i + 1;
          continue;
        }
        if keyCount >= MaxCloakKeys {
          errors := errors + 1;
          break;
        }
        keyCount := keyCount + 1;
        i := i + 1;
      }
      outcome := Checked(errors);
    }

    /** `m_ipident_configrun`: the configuration is freed, then the values
        of the first five entries are copied in order; later entries are
        ignored. `strdup` is given each of those values, so they must be
        present. */
    method ConfigRun(isMain: bool, block: ConfigBlock) returns (applied: bool)
      requires Valid()
      requires IsMine(isMain, block, blockName) ==>
                 forall j :: 0 <= j < |block.items| && j < MaxCloakKeys ==> block.items[j].value.Some?
      modifies this, keys
      ensures Valid()
      ensures applied == IsMine(isMain, block, blockName)
      ensures !applied ==> keyCount == old(keyCount) && keys[..] == old(keys[..])
      ensures applied ==> Keys() == FirstKeys(block.items)
      ensures applied ==> forall j :: keyCount <= j < MaxCloakKeys ==> keys[j].None?
    {
      if !IsMine(isMain, block, blockName) {
        return false;
      }
      FreeCfg();
      var items := block.items;
      for i := 0 to |items|
        invariant Valid()
        invariant keyCount == if i < MaxCloakKeys then i else MaxCloakKeys
        invariant forall j :: 0 <= j < keyCount ==> keys[j] == items[j].value
        invariant forall j :: keyCount <= j < MaxCloakKeys ==> keys[j].None?
      {
        if keyCount < MaxCloakKeys {
          keys[keyCount] := items[i].value;
          keyCount := keyCount + 1;
        }
      }
      assert Keys() == FirstKeys(items);
      applied := true;
    }

    /** The connect hook has something to do: the client has an IP and a
        user record, and a key is configured. */
    predicate Eligible(client: Client)
      reads this
    {
      client.ip.Some? && client.hasUser && keyCount > 0
    }

    /** The key `rand() % key_count` selects. */
    function PickedKey(pick: nat): string
      reads this, keys
      requires Valid() && keyCount > 0
    {
      keys[pick % keyCount].value
    }

    /** `set_crypto_ip_based_ident`: an eligible client's username becomes
        the ident built from its IP followed by a configured key; any other
        client is left alone. The nine characters fit `username`
        (`USERLEN` 10), so `strlcpy` copies all of them. */
    method SetIdent(client: Client, pick: nat)
      requires Valid()
      requires Eligible(client) ==>
                 IsCString(client.ip.value) && IsCString(PickedKey(pick))
                 && |client.ip.value| + |PickedKey(pick)| >= IdentLength
      modifies client
      ensures !Eligible(client) ==> client.username == old(client.username)
      ensures Eligible(client) ==>
                client.username == IdentOf(Combined(client.ip.value, PickedKey(pick)))
    {
      if client.ip.None? || !client.hasUser {
        return;
      }
      if keyCount == 0 {
        return;
      }
      var key := keys[pick % keyCount].value;
      CombinedIsCString(client.ip.value, key);
      var ident := BuildIdent(Combined(client.ip.value, key));
      client.username := ident;
    }
  }
}
