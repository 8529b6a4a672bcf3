/** Types shared by every module of the model: optional values, the
    configuration-block shape the host hands to config hooks, and the
    bounded copy that `snprintf`/`strlcpy` into a fixed buffer performs.

    A `string` stands for a C string as the host holds it: each `char` is
    one byte, and UTF-8 text is the sequence of its bytes. Every length
    bound in the model therefore counts bytes, as `strlen` and the size
    of a C buffer do. */
module Common {

  datatype Option<T> = None | Some(value: T)

  /** One item `name value;` of a configuration block. In the host's
      ConfigEntry either part may be missing (a NULL pointer). */
  datatype ConfigEntry = ConfigEntry(name: Option<string>, value: Option<string>)

  /** A configuration block as a config hook receives it: the block's own
      name and its items in file order. */
  datatype ConfigBlock = ConfigBlock(name: Option<string>, items: seq<ConfigEntry>)

  /** What a config-test hook reports: 0 for a block that is not its own,
      otherwise 1 or -1 with the error count written to `*errs`. */
  datatype TestOutcome = NotMine | Checked(errors: nat)

  function Code(o: TestOutcome): (c: int)
    ensures o.NotMine? ==> c == 0
    ensures o.Checked? ==> (c == 1 <==> o.errors == 0) && (c == -1 <==> o.errors > 0)
  {
    match o
    case NotMine => 0
    case Checked(e) => if e > 0 then -1 else 1
  }

  /** The guard every config hook starts with: a CONFIG_MAIN block whose
      name is present and equal to the module's block name. */
  predicate IsMine(isMain: bool, block: ConfigBlock, myConf: string) {
    isMain && block.name == Some(myConf)
  }

  /** Copy of `s` into a buffer that holds `n` bytes plus the
      terminating NUL (`snprintf(buf, n + 1, "%s", s)`, `strlcpy`): the
      longest prefix of `s` that fits. */
  function Truncate(s: string, n: nat): (r: string)
    ensures |r| == if |s| <= n then |s| else n
    ensures r == s[..|r|]
    ensures |s| <= n ==> r == s
  {
    if |s| <= n then s else s[..n]
  }
}
