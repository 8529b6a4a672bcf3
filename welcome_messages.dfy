/** The channel welcome module: a `channel-welcome` block maps channel
    patterns to notices, and a local user joining a channel receives the
    notice of the first pattern that matches.

    `match_simple` is the parameter `matches(pattern, name)`. */
module WelcomeMessages {
  import opened Common

  const MyConf: string := "channel-welcome"
  /** `CHANNELLEN` of UnrealIRCd 6. */
  const ChannelLen: nat := 32
  /** `MAX_WELCOME_MSG`: the message buffer, terminator included. */
  const MaxWelcomeMsg: nat := 512

  /** `ChannelMessage`: a channel pattern and its notice. */
  datatype ChannelMessage = ChannelMessage(channel: string, message: string)

  /** An entry configtest accepts: a name and a value, the name shorter
      than `CHANNELLEN` and the value shorter than 512. */
  predicate ValidEntry(e: ConfigEntry) {
    e.name.Some? && e.value.Some? && |e.name.value| < ChannelLen && |e.value.value| < MaxWelcomeMsg
  }

  /** One configtest error per entry that is not valid. */
  function InvalidCount(items: seq<ConfigEntry>): (n: nat)
    ensures n <= |items|
    ensures n == 0 <==> forall j :: 0 <= j < |items| ==> ValidEntry(items[j])
  {
    if items == [] then 0
    else
      var prefix := items[..|items| - 1];
      var n := InvalidCount(prefix);
      assert forall j :: 0 <= j < |prefix| ==> prefix[j] == items[j];
      n + (if ValidEntry(items[|items| - 1]) then 0 else 1)
  }

  /** `m_channelwelcome_configtest`: reads nothing but the block. */
  method ConfigTest(isMain: bool, block: ConfigBlock) returns (outcome: TestOutcome)
    ensures !IsMine(isMain, block, MyConf) ==> outcome == NotMine
    ensures IsMine(isMain, block, MyConf) ==> outcome == Checked(InvalidCount(block.items))
  {
    if !IsMine(isMain, block, MyConf) {
      return NotMine;
    }
    var items := block.items;
    var errors := 0;
    for i := 0 to |items|
      invariant errors == InvalidCount(items[..i])
    {
      assert items[..i + 1][..i] == items[..i];
      var cep := items[i];
      if cep.name.None? || cep.value.None? {
        errors := errors + 1;
        continue;
      }
      if |cep.name.value| >= ChannelLen {
        errors := errors + 1;
        continue;
      }
      if |cep.value.value| >= MaxWelcomeMsg {
        errors := errors + 1;
        continue;
      }
    }
    assert items[..|items|] == items;
    outcome := Checked(errors);
  }

  /** Entries with a name and a value, as configrun's `strlcpy` calls
      need. */
  predicate Complete(items: seq<ConfigEntry>) {
    forall j :: 0 <= j < |items| ==> items[j].name.Some? && items[j].value.Some?
  }

  /** What configrun stores for an entry: the name cut to `CHANNELLEN`
      bytes and the value to 511. */
  function Stored(e: ConfigEntry): (m: ChannelMessage)
    requires e.name.Some? && e.value.Some?
    ensures |m.channel| <= ChannelLen && |m.message| < MaxWelcomeMsg
    ensures |m.channel| <= |e.name.value| && |m.message| <= |e.value.value|
    ensures m.channel == e.name.value[..|m.channel|] && m.message == e.value.value[..|m.message|]
  {
    ChannelMessage(Truncate(e.name.value, ChannelLen), Truncate(e.value.value, MaxWelcomeMsg - 1))
  }

  /** A block configtest accepted is stored verbatim, entry by entry: the
      length checks are strictly tighter than the buffers. */
  lemma AcceptedBlockStoredVerbatim(items: seq<ConfigEntry>)
    requires InvalidCount(items) == 0
    ensures Complete(items)
    ensures forall j :: 0 <= j < |items| ==>
              Stored(items[j]) == ChannelMessage(items[j].name.value, items[j].value.value)
  {
  }

  /** The first entry whose pattern matches `channel`. */
  function FirstMatch(table: seq<ChannelMessage>, channel: string, matches: (string, string) -> bool): (r: Option<nat>)
    ensures r.Some? ==> r.value < |table| && matches(table[r.value].channel, channel)
                        && forall j :: 0 <= j < r.value ==> !matches(table[j].channel, channel)
    ensures r.None? ==> forall j :: 0 <= j < |table| ==> !matches(table[j].channel, channel)
  {
    if table == [] then None
    else if matches(table[0].channel, channel) then Some(0)
    else
      var rest := FirstMatch(table[1..], channel, matches);
      assert forall j :: 1 <= j < |table| ==> table[j] == table[1..][j - 1];
      if rest.Some? then Some(rest.value + 1) else None
  }

  /** `channel_messages` and `channel_count`. */
  class WelcomeTable {
    var channelMessages: array?<ChannelMessage>
    var channelCount: nat

    ghost predicate Valid()
      reads this
    {
      (channelMessages == null ==> channelCount == 0)
      && (channelMessages != null ==> channelCount == channelMessages.Length)
    }

    /** The stored pairs, in order. */
    ghost function Table(): seq<ChannelMessage>
      reads this, channelMessages
      requires Valid()
    {
      if channelMessages == null then [] else channelMessages[..]
    }

    /** `setcfg`, at module init: no table. */
    constructor ()
      ensures Valid() && channelMessages == null && channelCount == 0
    {
      channelMessages := null;
      channelCount := 0;
    }

    /** `freecfg`: the table is released and the count zeroed. */
    method FreeCfg()
      modifies this
      ensures Valid() && channelMessages == null && channelCount == 0 && Table() == []
    {
      if channelMessages != null {
        channelMessages := null;
      }
      channelCount := 0;
    }

    /** `m_channelwelcome_configrun`: the table is rebuilt with one pair
        per entry, in order. */
    method ConfigRun(isMain: bool, block: ConfigBlock) returns (applied: bool)
      requires Valid()
      requires IsMine(isMain, block, MyConf) ==> Complete(block.items)
      modifies this
      ensures Valid()
      ensures applied == IsMine(isMain, block, MyConf)
      ensures !applied ==> channelMessages == old(channelMessages) && channelCount == old(channelCount)
      ensures applied ==> channelCount == |block.items|
      ensures applied ==> fresh(channelMessages)
      ensures applied ==> forall j :: 0 <= j < |block.items| ==> Table()[j] == Stored(block.items[j])
    {
      if !IsMine(isMain, block, MyConf) {
        return false;
      }
      FreeCfg();
      var items := block.items;
      for i := 0 to |items|
        invariant channelCount == i && channelMessages == null
      {
        channelCount := channelCount + 1;
      }
      var table := new ChannelMessage[channelCount];
      for i := 0 to |items|
        invariant channelCount == |items| && channelMessages == null
        invariant forall j :: 0 <= j < i ==> table[j] == Stored(items[j])
      {
        table[i] := Stored(items[i]);
      }
      channelMessages := table;
      applied := true;
    }

    /** `custom_join`: a user joining `channel` gets the message of the
        first matching pattern, and nothing when none matches; a client
        that is not a user gets nothing. */
    method Join(isUser: bool, channel: string, matches: (string, string) -> bool) returns (notice: Option<string>)
      requires Valid()
      ensures !isUser ==> notice == None
      ensures isUser ==>
                notice == (var k := FirstMatch(Table(), channel, matches);
                           if k.Some? then Some(Table()[k.value].message) else None)
    {
      if !isUser {
        return None;
      }
      notice := None;
      if channelMessages == null {
        return;
      }
      var i := 0;
      while i < channelCount
        invariant 0 <= i <= channelCount
        invariant forall j :: 0 <= j < i ==> !matches(channelMessages[j].channel, channel)
        invariant notice == None
      {
        if matches(channelMessages[i].channel, channel) {
          notice := Some(channelMessages[i].message);
          break;
        }
        i := i + 1;
      }
      FirstMatchOfPrefix(Table(), channel, matches, i);
    }
  }

  /** The loop's outcome agrees with `FirstMatch`: if the first `i`
      patterns miss and pattern `i` (when there is one) matches, the first
      match is `i`; if all miss there is none. */
  lemma {:induction false} FirstMatchOfPrefix(table: seq<ChannelMessage>, channel: string,
                                              matches: (string, string) -> bool, i: nat)
    requires i <= |table|
    requires forall j :: 0 <= j < i ==> !matches(table[j].channel, channel)
    ensures i < |table| && matches(table[i].channel, channel) ==> FirstMatch(table, channel, matches) == Some(i)
    ensures i == |table| ==> FirstMatch(table, channel, matches) == None
  {
    var r := FirstMatch(table, channel, matches);
    if r.Some? {
      assert r.value >= i;
    }
  }

  /** At most one notice per join, and it is the message of a pattern that
      matches while every earlier pattern does not. */
  lemma JoinNoticeIsFirstMatch(table: seq<ChannelMessage>, channel: string, matches: (string, string) -> bool)
    ensures var k := FirstMatch(table, channel, matches);
            k.Some? <==> exists j :: 0 <= j < |table| && matches(table[j].channel, channel)
  {
  }
}
