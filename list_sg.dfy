/** The security-group listing commands: `/SG <group>` lists the local
    members of a group, at most ten nicknames to a notice, and
    `/SG-user <nick>` lists the groups of a user.

    The host's lookups are parameters: `find_client` is `findClient`,
    `find_security_group` is `groupExists`, and each local client carries
    the answer of `user_allowed_by_security_group_name` for the group
    being listed. Notices are their text. */
module ListSg {
  import opened Common

  /** `MAX_BUFFER_SIZE`: the line buffer, terminator included. */
  const MaxBufferSize: nat := 512
  const MaxNicknamesPerLine: nat := 10
  /** A line is flushed once the buffer holds this many bytes. */
  const FlushLength: nat := 462

  /** A client on the local client list, in list order. */
  datatype LocalClient = LocalClient(name: string, inGroup: bool)

  /** A client found by nickname, with what `get_security_groups` returns
      for it (NULL is `None`). */
  datatype UserInfo = UserInfo(name: string, groups: Option<string>)

  /** `strlcat(buffer, s, 512)` on a buffer holding `dst`. */
  function StrlCatText(dst: string, s: string): (r: string)
    ensures |r| < MaxBufferSize
  {
    Truncate(dst + s, MaxBufferSize - 1)
  }

  /** The names of the clients in the group, in list order. */
  function Members(clients: seq<LocalClient>): seq<string> {
    if clients == [] then []
    else
      var last := clients[|clients| - 1];
      Members(clients[..|clients| - 1]) + (if last.inGroup then [last.name] else [])
  }

  /** Names joined with ", ". */
  function Join(names: seq<string>): string {
    if |names| == 0 then ""
    else if |names| == 1 then names[0]
    else Join(names[..|names| - 1]) + ", " + names[|names| - 1]
  }

  function Flatten(chunks: seq<seq<string>>): seq<string> {
    if chunks == [] then [] else Flatten(chunks[..|chunks| - 1]) + chunks[|chunks| - 1]
  }

  /** The listing loop's state: the text in `buffer`, the names it was
      built from (`nickname_count` is their number), `member_found`, the
      lines flushed so far and the names of each. */
  datatype Listing = Listing(buffer: string, pending: seq<string>, found: bool,
                             lines: seq<string>, chunks: seq<seq<string>>)

  /** One turn of the loop: a client in the group is appended, after ", "
      unless the line is empty; the line is flushed when it reaches
      `FlushLength` bytes or ten names. */
  function Step(st: Listing, c: LocalClient): (r: Listing)
    ensures !c.inGroup ==> r == st
    ensures c.inGroup ==> r.found
    ensures c.inGroup ==>
              (r.pending == st.pending + [c.name] && r.lines == st.lines && r.chunks == st.chunks)
              || (r.pending == [] && r.buffer == "" && r.chunks == st.chunks + [st.pending + [c.name]]
                  && |r.lines| == |st.lines| + 1 && r.lines[..|st.lines|] == st.lines)
  {
    if !c.inGroup then st
    else
      var b1 := if |st.pending| > 0 then StrlCatText(st.buffer, ", ") else st.buffer;
      var b2 := StrlCatText(b1, c.name);
      var p := st.pending + [c.name];
      if |b2| >= FlushLength || |p| >= MaxNicknamesPerLine then
        Listing("", [], true, st.lines + ["- " + b2], st.chunks + [p])
      else Listing(b2, p, true, st.lines, st.chunks)
  }

  /** The state after the loop has seen `clients`. */
  function Scan(clients: seq<LocalClient>): (st: Listing)
    ensures |st.lines| == |st.chunks|
  {
    if clients == [] then Listing("", [], false, [], [])
    else Step(Scan(clients[..|clients| - 1]), clients[|clients| - 1])
  }

  /** The notices `list_members_of_security_group` sends. */
  function MembersOutput(groupExists: bool, groupname: string, clients: seq<LocalClient>): (out: seq<string>)
    ensures !groupExists ==> out == ["Security group " + groupname + " does not exist."]
    ensures groupExists ==>
              |out| == 1 + |SentChunks(Scan(clients))| + (if Members(clients) == [] then 1 else 0)
              && out[0] == "Members of security group " + groupname + ":"
  {
    if !groupExists then ["Security group " + groupname + " does not exist."]
    else
      var st := Scan(clients);
      ScanOrder(clients);
      ["Members of security group " + groupname + ":"] + st.lines
      + (if |st.pending| > 0 then ["- " + st.buffer] else [])
      + (if !st.found then ["Security group " + groupname + " has no members."] else [])
  }

  /** The names the listing sends, line by line: the flushed chunks and the
      pending names of the final line. */
  function SentChunks(st: Listing): seq<seq<string>> {
    st.chunks + (if |st.pending| > 0 then [st.pending] else [])
  }

  /** What holds of the loop state for every client list: fewer than ten
      pending names, each flushed line has one to ten names and was flushed
      because it reached ten names or `FlushLength` bytes, the chunks
      and pending names are the members in order, each once, and
      `member_found` says whether there is a member. */
  lemma ScanShape(clients: seq<LocalClient>)
    ensures var st := Scan(clients);
            |st.pending| < MaxNicknamesPerLine
            && |st.buffer| < FlushLength
            && (st.pending == [] ==> st.buffer == "")
            && |st.lines| == |st.chunks|
            && (forall i :: 0 <= i < |st.chunks| ==> 1 <= |st.chunks[i]| <= MaxNicknamesPerLine)
            && (forall i :: 0 <= i < |st.chunks| ==>
                  |st.chunks[i]| == MaxNicknamesPerLine || |st.lines[i]| >= FlushLength + 2)
            && Flatten(st.chunks) + st.pending == Members(clients)
            && (st.found <==> Members(clients) != [])
  {
    ScanBounds(clients);
    ScanOrder(clients);
  }

  /** The sizes in the loop state: the pending line stays below ten names
      and `FlushLength` bytes, and a flushed line holds one to ten
      names and was flushed for one of the two reasons. */
  lemma {:induction false} ScanBounds(clients: seq<LocalClient>)
    ensures var st := Scan(clients);
            |st.pending| < MaxNicknamesPerLine
            && |st.buffer| < FlushLength
            && (st.pending == [] ==> st.buffer == "")
            && |st.lines| == |st.chunks|
            && (forall i :: 0 <= i < |st.chunks| ==> 1 <= |st.chunks[i]| <= MaxNicknamesPerLine)
            && (forall i :: 0 <= i < |st.chunks| ==>
                  |st.chunks[i]| == MaxNicknamesPerLine || |st.lines[i]| >= FlushLength + 2)
  {
    if clients != [] {
      ScanBounds(clients[..|clients| - 1]);
    }
  }

  /** The names in the loop state: the flushed chunks then the pending
      names are the members in list order, and `member_found` says whether
      there is one. */
  lemma {:induction false} ScanOrder(clients: seq<LocalClient>)
    ensures var st := Scan(clients);
            Flatten(st.chunks) + st.pending == Members(clients)
            && (st.found <==> Members(clients) != [])
  {
    if clients != [] {
      var prefix := clients[..|clients| - 1];
      var c := clients[|clients| - 1];
      ScanOrder(prefix);
      var st := Scan(prefix);
      if c.inGroup {
        var p := st.pending + [c.name];
        assert (st.chunks + [p])[..|st.chunks|] == st.chunks;
        assert Flatten(st.chunks + [p]) == Flatten(st.chunks) + p;
        assert Flatten(st.chunks) + p == Members(prefix) + [c.name];
      }
    }
  }

  /** Every name is below this length: the bound under which `strlcat`
      never cuts a name (a buffer under 462 bytes, ", " and the name
      fit the 511 usable bytes). */
  predicate ShortNames(clients: seq<LocalClient>) {
    forall i :: 0 <= i < |clients| ==> |clients[i].name| <= MaxBufferSize - 1 - (FlushLength - 1) - 2
  }

  /** With short names nothing is cut: the buffer is the pending names
      joined with ", ", and each flushed line is "- " and its names joined
      with ", ". */
  lemma {:induction false} ScanExact(clients: seq<LocalClient>)
    requires ShortNames(clients)
    ensures var st := Scan(clients);
            st.buffer == Join(st.pending)
            && |st.lines| == |st.chunks|
            && forall i :: 0 <= i < |st.chunks| ==> st.lines[i] == "- " + Join(st.chunks[i])
  {
    if clients != [] {
      var prefix := clients[..|clients| - 1];
      var c := clients[|clients| - 1];
      assert ShortNames(prefix) by {
        assert forall i :: 0 <= i < |prefix| ==> prefix[i] == clients[i];
      }
      ScanExact(prefix);
      ScanBounds(prefix);
      var st := Scan(prefix);
      if c.inGroup {
        var p := st.pending + [c.name];
        assert p[..|p| - 1] == st.pending;
        var b1 := if |st.pending| > 0 then StrlCatText(st.buffer, ", ") else st.buffer;
        if |st.pending| > 0 {
          assert b1 == st.buffer + ", ";
          assert Join(p) == Join(st.pending) + ", " + c.name;
        } else {
          assert b1 == "";
          assert Join(p) == c.name;
        }
        var b2 := StrlCatText(b1, c.name);
        assert b2 == b1 + c.name == Join(p);
        if |b2| >= FlushLength || |p| >= MaxNicknamesPerLine {
          var lines := st.lines + ["- " + b2];
          var chunks := st.chunks + [p];
          assert Scan(clients).lines == lines && Scan(clients).chunks == chunks;
          assert forall i :: 0 <= i < |st.chunks| ==> lines[i] == st.lines[i] && chunks[i] == st.chunks[i];
        }
      }
    }
  }

  /** The listing format in one place: with short names, notice `1 + i`
      is "- " followed by the names of chunk `i` joined with ", ". */
  lemma MemberNoticesAreJoinedChunks(groupname: string, clients: seq<LocalClient>)
    requires ShortNames(clients)
    ensures var out := MembersOutput(true, groupname, clients);
            var sent := SentChunks(Scan(clients));
            |out| >= 1 + |sent|
            && forall i :: 0 <= i < |sent| ==> out[1 + i] == "- " + Join(sent[i])
  {
    ScanExact(clients);
    ScanBounds(clients);
    var st := Scan(clients);
    var out := MembersOutput(true, groupname, clients);
    var sent := SentChunks(st);
    forall i | 0 <= i < |sent|
      ensures out[1 + i] == "- " + Join(sent[i])
    {
      if i < |st.chunks| {
        assert out[1 + i] == st.lines[i];
      } else {
        assert out[1 + i] == "- " + st.buffer;
      }
    }
  }

  /** Joined back, the lines name every member in list order, each once:
      the names sent, chunk by chunk, are exactly the members. */
  lemma ListingCoversMembers(clients: seq<LocalClient>)
    ensures Flatten(SentChunks(Scan(clients))) == Members(clients)
    ensures forall i :: 0 <= i < |SentChunks(Scan(clients))| ==>
              1 <= |SentChunks(Scan(clients))[i]| <= MaxNicknamesPerLine
  {
    ScanShape(clients);
    var st := Scan(clients);
    if |st.pending| > 0 {
      assert (st.chunks + [st.pending])[..|st.chunks|] == st.chunks;
      assert Flatten(st.chunks + [st.pending]) == Flatten(st.chunks) + st.pending;
    } else {
      assert SentChunks(st) == st.chunks;
      assert Flatten(st.chunks) + st.pending == Flatten(st.chunks);
    }
  }

  /** "has no members" is sent exactly when no client is in the group, and
      then no member line is sent. */
  lemma NoMembersNoticeIffEmpty(groupname: string, clients: seq<LocalClient>)
    ensures var out := MembersOutput(true, groupname, clients);
            (out[|out| - 1] == "Security group " + groupname + " has no members.") <==> Members(clients) == []
    ensures Members(clients) == [] ==>
              MembersOutput(true, groupname, clients)
              == ["Members of security group " + groupname + ":", "Security group " + groupname + " has no members."]
  {
    ScanShape(clients);
    FlushedLinesAreMemberLines(clients);
    var st := Scan(clients);
    var noMembers := "Security group " + groupname + " has no members.";
    if Members(clients) != [] {
      var out := MembersOutput(true, groupname, clients);
      if |st.pending| > 0 {
        assert out[|out| - 1] == "- " + st.buffer;
        assert out[|out| - 1][0] == '-' != noMembers[0];
      } else {
        assert st.chunks != [];
        assert out[|out| - 1] == st.lines[|st.lines| - 1];
        assert out[|out| - 1][0] == '-' != noMembers[0];
      }
    } else {
      assert Flatten(st.chunks) == [] && st.pending == [];
      FlattenEmpty(st.chunks);
    }
  }

  /** Every flushed line starts with "- ". */
  lemma {:induction false} FlushedLinesAreMemberLines(clients: seq<LocalClient>)
    ensures forall i :: 0 <= i < |Scan(clients).lines| ==>
              |Scan(clients).lines[i]| >= 2 && Scan(clients).lines[i][..2] == "- "
  {
    if clients != [] {
      FlushedLinesAreMemberLines(clients[..|clients| - 1]);
    }
  }

  /** Chunks of one name or more flatten to nothing only when there are
      none. */
  lemma {:induction false} FlattenEmpty(chunks: seq<seq<string>>)
    requires forall i :: 0 <= i < |chunks| ==> |chunks[i]| >= 1
    requires Flatten(chunks) == []
    ensures chunks == []
  {
  }

  /** `strlcat(buf, s, 512)` on the C string of `len` bytes in `buf`:
      appends what fits of `s` and terminates. */
  method StrlCat(buf: array<char>, len: nat, s: string) returns (newLen: nat)
    requires buf.Length == MaxBufferSize && len < MaxBufferSize
    modifies buf
    ensures newLen < MaxBufferSize && buf[newLen] == '\0'
    ensures buf[..newLen] == StrlCatText(old(buf[..len]), s)
  {
    var room := MaxBufferSize - 1 - len;
    var n := if |s| < room then |s| else room;
    ghost var dst := buf[..len];
    for k := 0 to n
      invariant buf[..len + k] == dst + s[..k]
    {
      buf[len + k] := s[k];
      assert buf[..len + k + 1] == buf[..len + k] + [s[k]];
      assert s[..k + 1] == s[..k] + [s[k]];
    }
    newLen := len + n;
    buf[newLen] := '\0';
    assert buf[..newLen] == dst + s[..n];
    assert (dst + s)[..newLen] == dst + s[..n];
  }

  /** `list_members_of_security_group`: the loop over the local clients
      fills a 512-byte buffer with `strlcat` and flushes it as a notice. */
  method ListMembers(groupExists: bool, groupname: string, clients: seq<LocalClient>) returns (notices: seq<string>)
    ensures notices == MembersOutput(groupExists, groupname, clients)
  {
    if !groupExists {
      return ["Security group " + groupname + " does not exist."];
    }
    var header := ["Members of security group " + groupname + ":"];
    notices := header;
    var buffer := new char[MaxBufferSize];
    buffer[0] := '\0';
    var len: nat := 0;
    var memberFound := false;
    var nicknameCount := 0;
    for i := 0 to |clients|
      invariant len < MaxBufferSize
      invariant buffer[..len] == Scan(clients[..i]).buffer
      invariant nicknameCount == |Scan(clients[..i]).pending|
      invariant memberFound == Scan(clients[..i]).found
      invariant notices == header + Scan(clients[..i]).lines
    {
      assert clients[..i + 1][..i] == clients[..i];
      var target := clients[i];
      assert Scan(clients[..i + 1]) == Step(Scan(clients[..i]), target);
      if target.inGroup {
        if nicknameCount > 0 {
          len := StrlCat(buffer, len, ", ");
        }
        len := StrlCat(buffer, len, target.name);
        nicknameCount := nicknameCount + 1;
        memberFound := true;
        if len >= MaxBufferSize - 50 || nicknameCount >= MaxNicknamesPerLine {
          notices := notices + ["- " + buffer[..len]];
          buffer[0] := '\0';
          len := 0;
          nicknameCount := 0;
        }
      }
    }
    assert clients[..|clients|] == clients;
    if nicknameCount > 0 {
      notices := notices + ["- " + buffer[..len]];
    }
    if !memberFound {
      notices := notices + ["Security group " + groupname + " has no members."];
    }
  }

  /** `list_security_groups_for_user`. */
  function GroupsOutput(user: UserInfo): (out: seq<string>)
    ensures user.groups.None? || user.groups == Some("") ==>
              out == ["User " + user.name + " is not part of any security groups."]
    ensures user.groups.Some? && user.groups.value != "" ==>
              out == ["Security groups for user " + user.name + ":", "- " + user.groups.value]
  {
    if user.groups.None? || user.groups.value == "" then
      ["User " + user.name + " is not part of any security groups."]
    else ["Security groups for user " + user.name + ":", "- " + user.groups.value]
  }

  /** `cmd_sg`: with no parameter only the usage notice; otherwise the
      members of the named group. */
  method CmdSg(params: seq<string>, groupExists: string -> bool, clients: seq<LocalClient>) returns (notices: seq<string>)
    ensures params == [] ==> notices == ["Usage: /SG <groupname>"]
    ensures params != [] ==> notices == MembersOutput(groupExists(params[0]), params[0], clients)
  {
    if |params| < 1 {
      return ["Usage: /SG <groupname>"];
    }
    var groupname := params[0];
    notices := ListMembers(groupExists(groupname), groupname, clients);
  }

  /** `cmd_sg_user`: with no parameter only the usage notice; an unknown
      nickname is reported; otherwise the user's groups. */
  method CmdSgUser(params: seq<string>, findClient: string -> Option<UserInfo>) returns (notices: seq<string>)
    ensures params == [] ==> notices == ["Usage: /SG-user <nickname>"]
    ensures params != [] && findClient(params[0]).None? ==> notices == ["No such nickname: " + params[0]]
    ensures params != [] && findClient(params[0]).Some? ==> notices == GroupsOutput(findClient(params[0]).value)
  {
    if |params| < 1 {
      return ["Usage: /SG-user <nickname>"];
    }
    var nickname := params[0];
    var targetUser := findClient(nickname);
    if targetUser.Some? {
      notices := GroupsOutput(targetUser.value);
    } else {
      notices := ["No such nickname: " + nickname];
    }
  }
}
