/** The Nexar client's local part (ai-easyeda-compiler/nexar-api.js): the
  * `.env` reader that copies `key=value` lines into the process
  * environment, the credential record read back from it, and the choice
  * searchParts makes between a stored token, a fetched token and an error.
  * The HTTPS calls themselves are parameters. */
module NexarApi {
  import opened Wrappers
  import opened Strings

  /** The process environment, as far as this module reads and writes it. */
  type Env = map<string, string>

  const ClientIdVar := "NEXAR_CLIENT_ID"
  const ClientSecretVar := "NEXAR_CLIENT_SECRET"
  const AccessTokenVar := "NEXAR_ACCESS_TOKEN"
  const DefaultLimit := 15
  const MissingCredentials := "Set NEXAR_ACCESS_TOKEN or " + "NEXAR_CLIENT_ID + NEXAR_CLIENT_SECRET in .env"

  // ---------------------------------------------------------------------
  // loadEnv
  // ---------------------------------------------------------------------

  /** The characters JavaScript's `.` does not match. */
  predicate IsLineTerminator(c: char)
  {
    c == '\n' || c == '\r' || c == '\U{2028}' || c == '\U{2029}'
  }

  predicate IsQuote(c: char) { c == '"' || c == '\'' }

  /** `v.replace(/^["']|["']$/g, '')`: one leading quote and one trailing
    * quote, each removed on its own; a lone quote is removed once. */
  function StripQuotes(v: string): (r: string)
    ensures |r| <= |v| && |v| - 2 <= |r|
    ensures |v| > 0 && !IsQuote(v[0]) && !IsQuote(v[|v| - 1]) ==> r == v
  {
    var a := if |v| > 0 && IsQuote(v[0]) then v[1..] else v;
    if |a| > 0 && IsQuote(a[|a| - 1]) then a[..|a| - 1] else a
  }

  /** The match of `/^\s*([^#=]+)=(.*)$/` on one line, as the assignment it
    * makes: `[^#=]+` cannot pass the first '=', so the line splits there;
    * everything before it must be non-empty and free of '#' (the leading
    * white space is also matched by `[^#=]`), and everything after it must
    * be free of the characters `.` refuses. None is a line that does not
    * match and sets nothing. */
  function ParseLine(line: string): (r: Option<(string, string)>)
    ensures r.Some? ==> '=' in line && NoSpaceAtEnds(r.value.0) && '=' !in r.value.0 && '#' !in r.value.0
  {
    if '=' !in line then None
    else
      var e := FirstIndexOfChar(line, '=');
      if e == 0 || '#' in line[..e] || exists i :: e < i < |line| && IsLineTerminator(line[i]) then None
      else
        assert forall c :: c in Trim(line[..e]) ==> c in line[..e] by { TrimWithin(line[..e]); }
        Some((Trim(line[..e]), StripQuotes(Trim(line[e + 1..]))))
  }

  /** The environment after the lines of one `.env` file, first to last. */
  function Applied(env: Env, lines: seq<string>): Env
  {
    if |lines| == 0 then env
    else
      var prev := Applied(env, lines[..|lines| - 1]);
      match ParseLine(lines[|lines| - 1])
      case None => prev
      case Some((k, v)) => prev[k := v]
  }

  /** loadEnv; `file` is the content of `.env`, None when it does not exist. */
  function Loaded(env: Env, file: Option<string>): Env
  {
    if file.None? then env else Applied(env, Split(file.value, '\n'))
  }

  lemma AppliedStep(env: Env, lines: seq<string>, i: nat)
    requires i < |lines|
    ensures Applied(env, lines[..i + 1]) ==
      match ParseLine(lines[i])
      case None => Applied(env, lines[..i])
      case Some((k, v)) => Applied(env, lines[..i])[k := v]
  {
    assert lines[..i + 1][..i] == lines[..i];
  }

  /** The loop of loadEnv over the file's lines, writing into the
    * environment. */
  method LoadEnv(env0: Env, file: Option<string>) returns (env: Env)
    ensures env == Loaded(env0, file)
    ensures file.None? ==> env == env0
  {
    env := env0;
    if file.Some? {
      var lines := Split(file.value, '\n');
      for i := 0 to |lines|
        invariant env == Applied(env0, lines[..i])
      {
        AppliedStep(env0, lines, i);
        var m := ParseLine(lines[i]);
        if m.Some? {
          env := env[m.value.0 := m.value.1];
        }
      }
      assert lines[..|lines|] == lines;
    }
  }

  lemma TrimWithin(s: string)
    ensures forall c :: c in Trim(s) ==> c in s
  {
    var a := TrimStart(s);
    assert forall c :: c in a ==> c in s;
    assert forall c :: c in TrimEnd(a) ==> c in a;
  }

  /** A `key=value` line sets the trimmed key to the trimmed, unquoted
    * value; the split is at the first '=', so the value may hold more of
    * them. */
  lemma ParseAssignment(key: string, value: string)
    requires |key| > 0 && '=' !in key && '#' !in key
    requires forall i :: 0 <= i < |value| ==> !IsLineTerminator(value[i])
    ensures ParseLine(key + "=" + value) == Some((Trim(key), StripQuotes(Trim(value))))
  {
    var line := key + "=" + value;
    assert line[..|key|] == key;
    assert line[|key|] == '=';
    FirstIndexOfCharAt(line, '=', |key|);
    assert line[|key| + 1..] == value;
    assert !exists i :: |key| < i < |line| && IsLineTerminator(line[i]) by {
      forall i | |key| < i < |line| ensures !IsLineTerminator(line[i]) {
        assert line[i] == value[i - |key| - 1];
      }
    }
  }

  /** A line whose first non-blank character is '#' sets nothing, even
    * when it holds an '='. */
  lemma CommentLineIgnored(blank: string, rest: string)
    requires forall i :: 0 <= i < |blank| ==> IsSpace(blank[i])
    ensures ParseLine(blank + "#" + rest) == None
  {
    var line := blank + "#" + rest;
    if '=' in line {
      var e := FirstIndexOfChar(line, '=');
      assert line[|blank|] == '#';
      assert line[..e][|blank|] == '#';
    }
  }

  /** A line without '=' sets nothing. */
  lemma PlainLineIgnored(line: string)
    requires '=' !in line
    ensures ParseLine(line) == None
  {
  }

  /** A key assigned by some line holds the value of the last line that
    * assigns it. */
  lemma {:induction false} LastAssignmentWins(env: Env, lines: seq<string>, i: nat)
    requires i < |lines| && ParseLine(lines[i]).Some?
    requires forall j :: i < j < |lines| && ParseLine(lines[j]).Some? ==>
      ParseLine(lines[j]).value.0 != ParseLine(lines[i]).value.0
    ensures var kv := ParseLine(lines[i]).value;
      kv.0 in Applied(env, lines) && Applied(env, lines)[kv.0] == kv.1
  {
    var init := lines[..|lines| - 1];
    var kv := ParseLine(lines[i]).value;
    var prev := Applied(env, init);
    assert Applied(env, lines) == match ParseLine(lines[|lines| - 1])
      case None => prev
      case Some((k, v)) => prev[k := v];
    if i < |lines| - 1 {
      assert init[i] == lines[i];
      assert forall j :: i < j < |init| ==> init[j] == lines[j];
      LastAssignmentWins(env, init, i);
    }
  }

  /** A key no line assigns keeps what the environment held. */
  lemma {:induction false} UnassignedKept(env: Env, lines: seq<string>, k: string)
    requires forall j :: 0 <= j < |lines| && ParseLine(lines[j]).Some? ==> ParseLine(lines[j]).value.0 != k
    ensures (k in Applied(env, lines)) == (k in env)
    ensures k in env ==> Applied(env, lines)[k] == env[k]
  {
    if |lines| > 0 {
      UnassignedKept(env, lines[..|lines| - 1], k);
    }
  }

  // ---------------------------------------------------------------------
  // Finding: a CRLF line never matches
  // ---------------------------------------------------------------------

  /** As written, a line still carrying the '\r' of a CRLF file fails
    * `(.*)$`, so a `.env` saved with Windows line ends sets nothing,
    * although the value would have been trimmed. */
  lemma CrlfLineIgnored(key: string, value: string)
    ensures ParseLine(key + "=" + value + "\r") == None
  {
    var line := key + "=" + value + "\r";
    var e := FirstIndexOfChar(line, '=');
    if e < |line| - 1 && e != 0 && '#' !in line[..e] {
      assert IsLineTerminator(line[|line| - 1]);
    }
  }

  /** The corrected reader: a final '\r' is dropped before matching. */
  function ParseLineFixed(line: string): (r: Option<(string, string)>)
  {
    if |line| > 0 && line[|line| - 1] == '\r' then ParseLine(line[..|line| - 1]) else ParseLine(line)
  }

  /** Corrected, a CRLF line sets what the same line with a plain LF end
    * sets. */
  lemma CrlfLineFixed(key: string, value: string)
    requires |key| > 0 && '=' !in key && '#' !in key
    requires forall i :: 0 <= i < |value| ==> !IsLineTerminator(value[i])
    ensures ParseLineFixed(key + "=" + value + "\r") == Some((Trim(key), StripQuotes(Trim(value))))
  {
    var line := key + "=" + value + "\r";
    assert line[..|line| - 1] == key + "=" + value;
    ParseAssignment(key, value);
  }

  // ---------------------------------------------------------------------
  // getCredentials and the token choice of searchParts
  // ---------------------------------------------------------------------

  datatype Credentials = Credentials(clientId: string, clientSecret: string, accessToken: string)

  /** `process.env.X || ''`: an unset variable reads as the empty string. */
  function Read(env: Env, name: string): (r: string)
    ensures name in env ==> r == env[name]
    ensures name !in env ==> r == ""
  {
    if name in env then env[name] else ""
  }

  /** getCredentials: loadEnv, then the three variables. */
  method GetCredentials(env0: Env, file: Option<string>) returns (env: Env, c: Credentials)
    ensures env == Loaded(env0, file)
    ensures c == Credentials(Read(env, ClientIdVar), Read(env, ClientSecretVar), Read(env, AccessTokenVar))
  {
    env := LoadEnv(env0, file);
    c := Credentials(Read(env, ClientIdVar), Read(env, ClientSecretVar), Read(env, AccessTokenVar));
  }

  /** The outgoing calls searchParts makes, in order. */
  datatype Call = TokenRequest(clientId: string, clientSecret: string) | GraphqlQuery(token: string, q: string, limit: int)

  /** The two HTTPS calls: getToken and graphql with the search query;
    * an Err is the rejection. */
  datatype Api = Api(getToken: (string, string) -> Result<string>, graphql: (string, string, int) -> Result<string>)

  /** searchParts: the stored token if non-empty; otherwise a fetched token
    * when both the id and the secret are non-empty; with no token the
    * error is thrown before any query. `limit` None is the default 15. */
  method SearchParts(env0: Env, file: Option<string>, query: string, limit: Option<int>, api: Api)
    returns (env: Env, calls: seq<Call>, r: Result<string>)
    ensures env == Loaded(env0, file)
    ensures var c := Credentials(Read(env, ClientIdVar), Read(env, ClientSecretVar), Read(env, AccessTokenVar));
      var lim := limit.GetOr(DefaultLimit);
      && (c.accessToken != "" ==>
            calls == [GraphqlQuery(c.accessToken, query, lim)] && r == api.graphql(c.accessToken, query, lim))
      && (c.accessToken == "" && (c.clientId == "" || c.clientSecret == "") ==>
            calls == [] && r == Err(MissingCredentials))
      && (c.accessToken == "" && c.clientId != "" && c.clientSecret != "" ==>
            var ask := TokenRequest(c.clientId, c.clientSecret);
            match api.getToken(c.clientId, c.clientSecret)
            case Err(e) => calls == [ask] && r == Err(e)
            case Ok(t) =>
              if t == "" then calls == [ask] && r == Err(MissingCredentials)
              else calls == [ask, GraphqlQuery(t, query, lim)] && r == api.graphql(t, query, lim))
    ensures forall k :: 0 <= k < |calls| && calls[k].GraphqlQuery? ==> calls[k].token != "" && k == |calls| - 1
  {
    var c;
    env, c := GetCredentials(env0, file);
    var lim := limit.GetOr(DefaultLimit);
    calls := [];
    var token := c.accessToken;
    if token == "" && c.clientId != "" && c.clientSecret != "" {
      calls := calls + [TokenRequest(c.clientId, c.clientSecret)];
      var t := api.getToken(c.clientId, c.clientSecret);
      if t.Err? {
        r := Err(t.error);
        return;
      }
      token := t.value;
    }
    if token == "" {
      r := Err(MissingCredentials);
      return;
    }
    calls := calls + [GraphqlQuery(token, query, lim)];
    r := api.graphql(token, query, lim);
  }
}
