/**
 * The names under which the tools of MCP servers are offered to the model:
 * `mcp__<server>__<tool>`, made from a pair of names and parsed back.
 */
module McpNames {
  import opened Common

  const Prefix := "mcp__"
  const Separator := "__"

  datatype NameError = Empty | DoubleUnderscore | BadCharacters

  datatype Error =
    | BadServer(reason: NameError)
    | BadTool(reason: NameError)
    | NoPrefix
    | NotTwoParts

  datatype Identity = Identity(serverId: string, toolName: string)

  predicate HasDouble(s: string) {
    exists i :: 0 <= i < |s| - 1 && s[i] == '_' && s[i + 1] == '_'
  }

  predicate Lower(c: char) {
    'a' <= c <= 'z'
  }

  /** `[a-z][a-z0-9_]*`. */
  predicate MatchesPattern(s: string) {
    && s != "" && Lower(s[0])
    && forall i :: 0 <= i < |s| ==> Lower(s[i]) || '0' <= s[i] <= '9' || s[i] == '_'
  }

  function CheckName(s: string): (e: Option<NameError>)
    ensures e.None? <==> MatchesPattern(s) && !HasDouble(s)
  {
    if s == "" then Some(Empty)
    else if HasDouble(s) then Some(DoubleUnderscore)
    else if !MatchesPattern(s) then Some(BadCharacters)
    else None
  }

  predicate ValidName(s: string) {
    CheckName(s).None?
  }

  function CheckIdentity(server: string, tool: string): (r: Result<Identity, Error>)
    ensures r.Ok? <==> ValidName(server) && ValidName(tool)
  {
    if CheckName(server).Some? then Err(BadServer(CheckName(server).value))
    else if CheckName(tool).Some? then Err(BadTool(CheckName(tool).value))
    else Ok(Identity(server, tool))
  }

  function Make(server: string, tool: string): Result<string, Error> {
    match CheckIdentity(server, tool)
    case Err(e) => Err(e)
    case Ok(_) => Ok(Prefix + server + Separator + tool)
  }

  /** `s.split("__")`: leftmost separators, none overlapping. */
  function Split(s: string): (parts: seq<string>)
    ensures |parts| >= 1
  {
    if |s| < 2 then [s]
    else if s[0] == '_' && s[1] == '_' then [""] + Split(s[2..])
    else
      var parts := Split(s[1..]);
      [[s[0]] + parts[0]] + parts[1..]
  }

  function Parse(name: string): Result<Identity, Error> {
    if !(Prefix <= name) then Err(NoPrefix)
    else
      var parts := Split(name[|Prefix|..]);
      if |parts| != 2 then Err(NotTwoParts) else CheckIdentity(parts[0], parts[1])
  }

  // ----- Splitting -----

  function Join(parts: seq<string>): string
    requires parts != []
  {
    if |parts| == 1 then parts[0] else parts[0] + Separator + Join(parts[1..])
  }

  lemma {:induction false} JoinSplit(s: string)
    ensures Join(Split(s)) == s
  {
    if |s| < 2 {
    } else if s[0] == '_' && s[1] == '_' {
      var rest := Split(s[2..]);
      JoinSplit(s[2..]);
      assert ([""] + rest)[1..] == rest;
      assert s == "" + Separator + s[2..];
    } else {
      var parts := Split(s[1..]);
      JoinSplit(s[1..]);
      var whole := [[s[0]] + parts[0]] + parts[1..];
      assert whole[1..] == parts[1..];
      if |parts| > 1 {
        ConcatAssociative([s[0]], parts[0], Separator);
        ConcatAssociative([s[0]], parts[0] + Separator, Join(parts[1..]));
      }
      assert s == [s[0]] + s[1..];
    }
  }

  lemma {:induction false} SplitSingle(s: string)
    requires !HasDouble(s)
    ensures Split(s) == [s]
  {
    if |s| >= 2 {
      TailHasNoDouble(s);
      SplitSingle(s[1..]);
      assert s == [s[0]] + s[1..];
    }
  }

  lemma TailHasNoDouble(s: string)
    requires s != "" && !HasDouble(s)
    ensures !HasDouble(s[1..])
  {
  }

  /** A separator behind a part without one, and not ending in an underscore,
      is where the text is split. */
  lemma {:induction false} SplitAt(head: string, tail: string)
    requires !HasDouble(head) && (head == "" || head[|head| - 1] != '_')
    ensures Split(head + Separator + tail) == [head] + Split(tail)
  {
    var s := head + Separator + tail;
    if head == "" {
      assert s[2..] == tail;
    } else {
      TailHasNoDouble(head);
      SplitAt(head[1..], tail);
      assert s[1..] == head[1..] + Separator + tail;
      assert s[0] == head[0] && (s[0] == '_' ==> s[1] != '_') by {
        if |head| > 1 {
          assert s[1] == head[1];
        }
      }
      assert head == [head[0]] + head[1..];
      assert ([head[1..]] + Split(tail))[1..] == Split(tail);
    }
  }

  predicate EndsInUnderscore(s: string) {
    s != "" && s[|s| - 1] == '_'
  }

  /** How a made name splits: an underscore at the end of the server's name goes
      over to the tool's. */
  lemma SplitMade(server: string, tool: string)
    requires ValidName(server) && ValidName(tool)
    ensures Split(server + Separator + tool)
            == if EndsInUnderscore(server) then [server[..|server| - 1], "_" + tool] else [server, tool]
  {
    hide Split, HasDouble;
    if EndsInUnderscore(server) {
      var short, late := server[..|server| - 1], "_" + tool;
      ShortServer(server);
      LateTool(tool);
      assert server + Separator + tool == short + Separator + late by {
        assert server == short + "_";
      }
      SplitAt(short, late);
      SplitSingle(late);
      assert [short] + [late] == [short, late];
    } else {
      SplitAt(server, tool);
      SplitSingle(tool);
    }
  }

  lemma ShortServer(server: string)
    requires ValidName(server) && EndsInUnderscore(server)
    ensures var short := server[..|server| - 1]; short != "" && !HasDouble(short) && !EndsInUnderscore(short)
  {
  }

  lemma LateTool(tool: string)
    requires ValidName(tool)
    ensures !HasDouble("_" + tool)
  {
  }

  // ----- Names and identities -----

  /** Parsing a made name gives the pair back, unless the server's name ends in
      an underscore: then it is refused, not misread. */
  lemma ParseMade(server: string, tool: string)
    requires ValidName(server) && ValidName(tool)
    ensures Make(server, tool).Ok?
    ensures Parse(Make(server, tool).value)
            == if EndsInUnderscore(server) then Err(BadTool(BadCharacters)) else Ok(Identity(server, tool))
  {
    hide Split, CheckName;
    var name := Make(server, tool).value;
    assert name[|Prefix|..] == server + Separator + tool;
    assert Prefix <= name;
    SplitMade(server, tool);
    if EndsInUnderscore(server) {
      ShortenedServer(server, tool);
    }
  }

  lemma ShortenedServer(server: string, tool: string)
    requires ValidName(server) && ValidName(tool) && EndsInUnderscore(server)
    ensures ValidName(server[..|server| - 1])
    ensures CheckName("_" + tool) == Some(BadCharacters)
  {
  }

  /** Exactly the made names whose server does not end in an underscore parse,
      and each to the pair it was made from. */
  lemma ParseIsInverse(name: string, id: Identity)
    ensures Parse(name) == Ok(id)
            <==> Make(id.serverId, id.toolName) == Ok(name) && !EndsInUnderscore(id.serverId)
  {
    hide Split, CheckName;
    if Parse(name) == Ok(id) {
      var rest := name[|Prefix|..];
      JoinSplit(rest);
      assert Split(rest) == [id.serverId, id.toolName];
      assert Join([id.serverId, id.toolName]) == id.serverId + Separator + id.toolName;
      assert name == Prefix + rest;
      ConcatAssociative(Prefix, id.serverId, Separator);
      ConcatAssociative(Prefix, id.serverId + Separator, id.toolName);
      ParseMade(id.serverId, id.toolName);
    }
    if Make(id.serverId, id.toolName) == Ok(name) && !EndsInUnderscore(id.serverId) {
      ParseMade(id.serverId, id.toolName);
    }
  }

  /** Different identities have different names, also those that do not parse. */
  lemma MakeInjective(s: string, t: string, s': string, t': string)
    requires Make(s, t).Ok? && Make(s, t) == Make(s', t')
    ensures s == s' && t == t'
  {
    hide Split, CheckName, HasDouble;
    var name := Make(s, t).value;
    assert name[|Prefix|..] == s + Separator + t;
    assert name[|Prefix|..] == s' + Separator + t';
    SplitMade(s, t);
    SplitMade(s', t');
    assert ("_" + t)[1..] == t && ("_" + t')[1..] == t';
    assert ("_" + t)[0] == '_' && ("_" + t')[0] == '_' && t[0] != '_' && t'[0] != '_';
    if EndsInUnderscore(s) && EndsInUnderscore(s') {
      assert s == s[..|s| - 1] + "_" && s' == s'[..|s'| - 1] + "_";
    }
  }
}
