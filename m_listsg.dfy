/** The single-command variant of the security-group listing: `/SG`
    takes a nickname or a group name. Its two listings are the same code
    as in `ListSg` and are modelled there; only the dispatch differs. */
module MListSg {
  import opened Common
  import opened ListSg

  /** `cmd_sg`: with no parameter only the usage notice; an argument that
      names a client lists that user's groups, even when a group of the
      same name exists; any other argument is taken as a group name. */
  method CmdSg(params: seq<string>, findClient: string -> Option<UserInfo>, groupExists: string -> bool,
               clients: seq<LocalClient>) returns (notices: seq<string>)
    ensures params == [] ==> notices == ["Usage: /SG <nickname|groupname>"]
    ensures params != [] && findClient(params[0]).Some? ==> notices == GroupsOutput(findClient(params[0]).value)
    ensures params != [] && findClient(params[0]).None? ==>
              notices == MembersOutput(groupExists(params[0]), params[0], clients)
  {
    if |params| < 1 {
      return ["Usage: /SG <nickname|groupname>"];
    }
    var arg := params[0];
    var targetUser := findClient(arg);
    if targetUser.Some? {
      notices := GroupsOutput(targetUser.value);
    } else {
      notices := ListMembers(groupExists(arg), arg, clients);
    }
  }
}
