/** The older copy of the IP-based ident module, configured by a
    `cloak-keys` block. Its key store, configrun, freecfg and connect hook
    are the same code as the `cloak-ident-keys` module and are modelled by
    `CloakIdent.CloakConfig` built with this block name; only configtest
    differs, and it is modelled here. */
module IpIdentLegacy {
  import opened Common
  import opened CloakIdent

  const MyConf: string := "cloak-keys"

  /** An entry with both a name and a value. */
  predicate Usable(e: ConfigEntry) {
    e.name.Some? && e.value.Some?
  }

  /** The errors of this configtest's loop with the key count at `count`:
      an entry missing its name or value is an error and is skipped; when
      the count is already five or more, the first usable entry is an
      error and ends the scan. The count itself is never changed. */
  function LegacyErrors(items: seq<ConfigEntry>, count: nat): (n: nat)
    ensures n <= |items|
    ensures n == 0 ==> (forall j :: 0 <= j < |items| ==> Usable(items[j]))
                       && (items != [] ==> count < MaxCloakKeys)
    decreases |items|
  {
    if items == [] then 0
    else if !Usable(items[0]) then 1 + LegacyErrors(items[1..], count)
    else if count >= MaxCloakKeys then 1
    else LegacyErrors(items[1..], count)
  }

  /** Entries missing a name or a value. */
  function UnusableCount(items: seq<ConfigEntry>): (n: nat)
    ensures n <= |items|
    ensures n == 0 <==> forall j :: 0 <= j < |items| ==> Usable(items[j])
    decreases |items|
  {
    if items == [] then 0
    else
      var n := UnusableCount(items[1..]);
      assert forall j :: 1 <= j < |items| ==> items[j] == items[1..][j - 1];
      (if Usable(items[0]) then 0 else 1) + n
  }

  /** Below five keys the count plays no part: the errors are exactly the
      entries missing a name or a value, however many entries there are. */
  lemma {:induction false} BelowLimitCountsOnlyUnusable(items: seq<ConfigEntry>, count: nat)
    requires count < MaxCloakKeys
    ensures LegacyErrors(items, count) == UnusableCount(items)
    decreases |items|
  {
    if items != [] {
      BelowLimitCountsOnlyUnusable(items[1..], count);
    }
  }

  /** From five keys on, any usable entry makes the block fail. */
  lemma {:induction false} AtLimitRejectsAnyKey(items: seq<ConfigEntry>, count: nat, k: nat)
    requires count >= MaxCloakKeys
    requires k < |items| && Usable(items[k])
    ensures LegacyErrors(items, count) >= 1
    decreases |items|
  {
    if Usable(items[0]) {
    } else {
      assert k > 0;
      AtLimitRejectsAnyKey(items[1..], count, k - 1);
    }
  }

  /** `m_ipident_configtest` of the older copy: reads the key count and
      changes nothing. */
  method ConfigTest(cfg: CloakConfig, isMain: bool, block: ConfigBlock) returns (outcome: TestOutcome)
    ensures !IsMine(isMain, block, MyConf) ==> outcome == NotMine
    ensures IsMine(isMain, block, MyConf) ==> outcome == Checked(LegacyErrors(block.items, cfg.keyCount))
  {
    if !IsMine(isMain, block, MyConf) {
      return NotMine;
    }
    var items := block.items;
    var count := cfg.keyCount;
    var errors := 0;
    var i := 0;
    while i < |items|
      invariant 0 <= i <= |items|
      invariant errors + LegacyErrors(items[i..], count) == LegacyErrors(items, count)
    {
      assert items[i..][1..] == items[i + 1..];
      if items[i].name.None? || items[i].value.None? {
        errors := errors + 1;
        i := i + 1;
        continue;
      }
      if count >= MaxCloakKeys {
        errors := errors + 1;
        break;
      }
      i := i + 1;
    }
    outcome := Checked(errors);
  }

  /** Six keys, one more than the store holds. */
  function SixKeys(): seq<ConfigEntry> {
    seq(6, j => ConfigEntry(Some("key"), Some("k")))
  }

  /** As written, the key count is only raised by configrun and the module
      starts with it at zero, so configtest accepts a block of six keys
      while configrun keeps five of them and drops the sixth without a
      word. */
  lemma SixKeysPassAsWritten()
    ensures LegacyErrors(SixKeys(), 0) == 0
    ensures |FirstKeys(SixKeys())| == 5 < |SixKeys()|
  {
    BelowLimitCountsOnlyUnusable(SixKeys(), 0);
  }

  /** Corrected: counting keys as the `cloak-ident-keys` copy does
      (`CloakIdent.TestScan`), the same block fails configtest, and in
      general a block passes only when configrun will keep every key. */
  lemma SixKeysFailWhenCounted()
    ensures TestScan(SixKeys(), 0).errors > 0
    ensures forall items: seq<ConfigEntry> :: TestScan(items, 0).errors == 0 ==> |FirstKeys(items)| == |items|
  {
    TestScanAccepts(SixKeys(), 0);
    forall items: seq<ConfigEntry> | TestScan(items, 0).errors == 0
      ensures |FirstKeys(items)| == |items|
    {
      AcceptedBlockKeepsEveryKey(items);
    }
  }
}
