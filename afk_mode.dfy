/** The AFK module: a per-client record `{afk, message}` changed by the
    commands AFK-ON, AFK-OFF and AFK-MESSAGE, and shown by WHOIS.

    The record hangs off the client as module data: `info` is null until a
    command creates it. Each command acts on the client that sent it. */
module AfkMode {
  import opened Common

  const MaxAfkMessageLength: nat := 256
  const DefaultMessage: string := "is currently AFK."
  const UsageNotice: string := "Usage: /afk-message <message>"
  const TooLongNotice: string := "AFK message is too long. Please use a message shorter than 256 characters."
  const MessageSetNotice: string := "AFK message set."

  /** The record as a value: absent, or present with its flag and
      message. */
  datatype AfkState = NoRecord | Record(afk: bool, message: Option<string>)

  /** AFK-ON on an eligible client: the flag is set, a missing record is
      created, and the message is kept. */
  function On(s: AfkState): (t: AfkState)
    ensures t.Record? && t.afk
    ensures t.message == (if s.Record? then s.message else None)
  {
    Record(true, if s.Record? then s.message else None)
  }

  /** AFK-OFF on an eligible client: a record is cleared, and without one
      nothing happens. */
  function Off(s: AfkState): (t: AfkState)
    ensures s.NoRecord? ==> t == NoRecord
    ensures s.Record? ==> t == Record(false, None)
  {
    if s.Record? then Record(false, None) else s
  }

  /** A successful AFK-MESSAGE: the message is replaced and the flag kept;
      a record it creates starts with the flag clear. */
  function SetMessage(s: AfkState, m: string): (t: AfkState)
    ensures t.Record? && t.message == Some(m)
    ensures t.afk == (s.Record? && s.afk)
  {
    Record(if s.Record? then s.afk else false, Some(m))
  }

  /** `afkmod_whois`: the line shown about client `name`, if any. */
  function WhoisLine(name: string, isULine: bool, s: AfkState): (r: Option<string>)
    ensures r.Some? <==> s.Record? && s.afk && !isULine
    ensures r.Some? ==> r.value == name + " :" + (if s.message.Some? then s.message.value else DefaultMessage)
  {
    if s.Record? && s.afk && !isULine then
      Some(name + " :" + (if s.message.Some? then s.message.value else DefaultMessage))
    else None
  }

  /** What AFK-MESSAGE does with its parameters. */
  datatype MessageVerdict = Usage | TooLong | Accept(message: string)

  /** No parameter gives the usage notice; a message longer than 256
      bytes is refused; 256 exactly is accepted. */
  function JudgeMessage(params: seq<string>): (v: MessageVerdict)
    ensures v.Usage? <==> params == []
    ensures v.TooLong? <==> params != [] && |params[0]| > MaxAfkMessageLength
    ensures v.Accept? ==> v.message == params[0] && |v.message| <= MaxAfkMessageLength
  {
    if params == [] then Usage
    else if |params[0]| > MaxAfkMessageLength then TooLong
    else Accept(params[0])
  }

  /** A stored message is never longer than 256 bytes. */
  predicate Bounded(s: AfkState) {
    s.Record? && s.message.Some? ==> |s.message.value| <= MaxAfkMessageLength
  }

  /** Every command keeps stored messages within the bound. */
  lemma CommandsKeepBound(s: AfkState, params: seq<string>)
    requires Bounded(s)
    ensures Bounded(On(s)) && Bounded(Off(s))
    ensures JudgeMessage(params).Accept? ==> Bounded(SetMessage(s, JudgeMessage(params).message))
  {
  }

  /** After AFK-OFF, WHOIS shows nothing, and AFK-ON afterwards shows the
      default text: the old message is gone. */
  lemma OffClearsEverything(name: string, s: AfkState)
    ensures WhoisLine(name, false, Off(s)) == None
    ensures WhoisLine(name, false, On(Off(s))) == Some(name + " :" + DefaultMessage)
  {
  }

  /** Setting a message and turning AFK on, in either order, shows that
      message. */
  lemma MessageAndOnCommute(name: string, s: AfkState, m: string)
    ensures On(SetMessage(s, m)) == SetMessage(On(s), m)
    ensures WhoisLine(name, false, On(SetMessage(s, m))) == Some(name + " :" + m)
  {
  }

  /** A message set on a client that was not AFK is not shown until
      AFK-ON. */
  lemma MessageAloneIsHidden(name: string, isULine: bool, s: AfkState, m: string)
    requires s.NoRecord? || !s.afk
    ensures WhoisLine(name, isULine, SetMessage(s, m)) == None
  {
  }

  /** `UserAFKInfo`. */
  class AfkInfo {
    var afk: bool
    var message: Option<string>

    /** `safe_alloc`: zeroed. */
    constructor ()
      ensures !afk && message == None
    {
      afk := false;
      message := None;
    }
  }

  /** A client: its name, whether it is a local user (`MyUser`), whether
      it is U-lined, and its AFK record. */
  class AfkClient {
    const name: string
    const isMyUser: bool
    const isULine: bool
    var info: AfkInfo?

    constructor (name: string, isMyUser: bool, isULine: bool)
      ensures this.name == name && this.isMyUser == isMyUser && this.isULine == isULine && info == null
    {
      this.name := name;
      this.isMyUser := isMyUser;
      this.isULine := isULine;
      info := null;
    }

    /** The record as a value. */
    function State(): AfkState
      reads this, info
    {
      if info == null then NoRecord else Record(info.afk, info.message)
    }

    /** The commands act only for a local, non-U-lined user. */
    predicate MayUse() {
      isMyUser && !isULine
    }

    /** `cmd_afk_on`. */
    method AfkOn() returns (notice: Option<string>)
      modifies this, info
      ensures !MayUse() ==> notice == None && State() == old(State())
      ensures MayUse() ==> notice == Some("AFK mode activated.") && State() == On(old(State()))
      ensures old(info) != null ==> info == old(info)
      ensures old(info) == null && MayUse() ==> fresh(info)
    {
      if !isMyUser || isULine {
        return None;
      }
      if info == null {
        info := new AfkInfo();
      }
      info.afk := true;
      notice := Some("AFK mode activated.");
    }

    /** `cmd_afk_off`: without a record nothing changes and no notice is
        sent. */
    method AfkOff() returns (notice: Option<string>)
      modifies info
      ensures !MayUse() ==> notice == None && State() == old(State())
      ensures MayUse() ==> State() == Off(old(State()))
      ensures MayUse() ==> (notice.Some? <==> old(info) != null)
      ensures notice.Some? ==> notice.value == "AFK mode deactivated and message cleared."
    {
      notice := None;
      if !isMyUser || isULine {
        return;
      }
      if info != null {
        info.afk := false;
        if info.message.Some? {
          info.message := None;
        }
        notice := Some("AFK mode deactivated and message cleared.");
      }
    }

    /** `cmd_afk_message`. */
    method AfkMessage(params: seq<string>) returns (notice: Option<string>)
      modifies this, info
      ensures !MayUse() ==> notice == None && State() == old(State())
      ensures MayUse() && !JudgeMessage(params).Accept? ==> State() == old(State())
      ensures MayUse() && JudgeMessage(params).Usage? ==> notice == Some(UsageNotice)
      ensures MayUse() && JudgeMessage(params).TooLong? ==>
                notice == Some(TooLongNotice)
      ensures MayUse() && JudgeMessage(params).Accept? ==>
                notice == Some(MessageSetNotice) && State() == SetMessage(old(State()), params[0])
      ensures old(info) != null ==> info == old(info)
      ensures old(info) == null && info != null ==> fresh(info)
    {
      if !isMyUser || isULine {
        return None;
      }
      if |params| < 1 {
        return Some(UsageNotice);
      }
      if |params[0]| > MaxAfkMessageLength {
        return Some(TooLongNotice);
      }
      if info == null {
        info := new AfkInfo();
      }
      info.message := Some(params[0]);
      notice := Some(MessageSetNotice);
    }

    /** `afkmod_whois` about this client. */
    function Whois(): (r: Option<string>)
      reads this, info
      ensures r == WhoisLine(name, isULine, State())
    {
      WhoisLine(name, isULine, State())
    }
  }
}
