/**
 * `LMSServer` (LMSTools/server.py): the JSON-RPC client of a Logitech Media
 * Server. Each request posts `{id, method: "slim.request", params: [player,
 * tokens]}` to `http://host:port/jsonrpc.js`; the server object keeps the
 * request id, the cached version and the last list of players.
 *
 * The HTTP exchange is not performed: each request is given its outcome as
 * an `HttpOutcome` argument, and the payloads posted are recorded in the
 * ghost field `posted`.
 *
 * In the source every request except the two in `get_player_count` and
 * the `rescan ?` probe is written `self._request(params=...)`, a keyword
 * that `_request(self, command, player="-")` does not have, so those calls
 * raise TypeError before anything is sent. The methods below send the
 * command those calls evidently intend; `BindRequestKeywords` models the
 * call as written.
 */
module Server {
  import opened Text
  import opened Dicts
  import opened Values

  /** The `command` argument of `_request`: a string to split on whitespace, or a ready list. */
  datatype Command = Words(line: string) | Tokens(items: seq<Json>)

  /** How the HTTP exchange of one request ended. */
  datatype HttpOutcome =
    | HttpOk(body: Json)    // a 2xx status and a body that decodes as JSON
    | HttpStatusError       // a response whose status makes raise_for_status raise
    | HttpUndecodable       // a 2xx status, but response.json() cannot decode the body
    | HttpUnreachable       // requests.post itself fails to connect

  /** What `LMSPlayer.from_index` yields, reduced to the two attributes the server reads. */
  datatype Player = Player(name: string, ref: string)

  /** One entry of the `players` list of `show_players_sync_status`. */
  datatype PlayerSync = PlayerSync(name: string, ref: string, syncIndex: int)

  /** The dict returned by `show_players_sync_status`. */
  datatype SyncStatus = SyncStatus(groupCount: nat, playerCount: nat, players: seq<PlayerSync>)

  const DefaultHost := "localhost"
  const DefaultPort := 9000

  /** The web base `http://{host}:{port}/`. */
  function WebUrl(host: string, port: int): string {
    "http://" + host + ":" + IntToString(port) + "/"
  }

  /** The JSON-RPC endpoint `http://{host}:{port}/jsonrpc.js`. */
  function RpcUrl(host: string, port: int): string {
    "http://" + host + ":" + IntToString(port) + "/jsonrpc.js"
  }

  /** The endpoint sits directly under the web base, and the web base determines host and port. */
  lemma UrlsDetermineServer(host: string, port: int, host': string, port': int)
    ensures RpcUrl(host, port) == WebUrl(host, port) + "jsonrpc.js"
    ensures WebUrl(host, port) == WebUrl(host', port') && ':' !in host && ':' !in host'
            ==> host == host' && port == port'
  {
    RpcUnderWeb(host, port);
    if WebUrl(host, port) == WebUrl(host', port') && ':' !in host && ':' !in host' {
      var p, p' := IntToString(port), IntToString(port');
      WebUrlTail(host, port);
      WebUrlTail(host', port');
      HostPortFromTail(host, p, host', p');
      ParseIntToString(port);
      ParseIntToString(port');
    }
  }

  lemma RpcUnderWeb(host: string, port: int)
    ensures RpcUrl(host, port) == WebUrl(host, port) + "jsonrpc.js"
  {
    var front := "http://" + host + ":" + IntToString(port);
    assert RpcUrl(host, port) == front + "/jsonrpc.js";
    assert WebUrl(host, port) == front + "/";
    assert front + "/jsonrpc.js" == (front + "/") + "jsonrpc.js";
  }

  /** After `http://` the web base holds `{host}:{port}/`. */
  lemma WebUrlTail(host: string, port: int)
    ensures |WebUrl(host, port)| >= 7
    ensures WebUrl(host, port)[7..] == host + ":" + (IntToString(port) + "/")
  {
    assert WebUrl(host, port) == "http://" + (host + ":" + (IntToString(port) + "/"));
  }

  /** `{host}:{port}/` gives back host and port when the host holds no ':'. */
  lemma HostPortFromTail(host: string, p: string, host': string, p': string)
    requires ':' !in host && ':' !in host'
    requires host + ":" + (p + "/") == host' + ":" + (p' + "/")
    ensures host == host' && p == p'
  {
    var tail, tail' := p + "/", p' + "/";
    var v := host + ":" + tail;
    assert Find(v, ':') == |host| by { FindAfter(host, tail); }
    assert Find(v, ':') == |host'| by { FindAfter(host', tail'); }
    assert host == v[..|host|] == host';
    assert tail == v[|host| + 1..] == tail';
    assert p == tail[..|tail| - 1] == p';
  }

  lemma FindAfter(h: string, t: string)
    requires ':' !in h
    ensures Find(h + ":" + t, ':') == |h|
  {
    var v := h + ":" + t;
    assert v[..|h|] == h;
    FindIs(v, ':', |h|);
  }

  /** `command.split()` for a string, the list unchanged otherwise. */
  function Tokenize(c: Command): (toks: seq<Json>)
    ensures c.Tokens? ==> toks == c.items
    ensures c.Words? ==> forall i :: 0 <= i < |toks| ==> toks[i].JStr? && IsWord(toks[i].s)
  {
    match c
    case Words(line) =>
      var ws := SplitWhitespace(line);
      seq(|ws|, i requires 0 <= i < |ws| => JStr(ws[i]))
    case Tokens(items) => items
  }

  /** A command written as space-separated words is sent as exactly those words. */
  lemma TokenizeJoinedWords(words: seq<string>)
    requires forall i :: 0 <= i < |words| ==> IsWord(words[i])
    ensures |Tokenize(Words(Join(" ", words)))| == |words|
    ensures forall i :: 0 <= i < |words| ==> Tokenize(Words(Join(" ", words)))[i] == JStr(words[i])
  {
    SplitWhitespaceJoin(words);
  }

  /**
   * `str.split()` ignores whitespace at either end: a command string with
   * extra spaces around it is sent as the same tokens.
   */
  lemma TokenizeIgnoresOuterSpace(line: string)
    ensures Tokenize(Words(" " + line)) == Tokenize(Words(line))
    ensures Tokenize(Words(line + " ")) == Tokenize(Words(line))
  {
    assert (" " + line)[1..] == line;
    SplitWhitespaceTrailingSpace(line);
  }

  lemma OneWord(a: string)
    requires IsWord(a)
    ensures Tokenize(Words(a)) == [JStr(a)]
  {
    SplitWhitespaceJoin([a]);
  }

  lemma TwoWords(a: string, b: string)
    requires IsWord(a) && IsWord(b)
    ensures Tokenize(Words(a + " " + b)) == [JStr(a), JStr(b)]
  {
    assert Join(" ", [a, b]) == a + " " + b by {
      assert [a, b][1..] == [b];
    }
    SplitWhitespaceJoin([a, b]);
  }

  lemma ThreeWords(a: string, b: string, c: string)
    requires IsWord(a) && IsWord(b) && IsWord(c)
    ensures Tokenize(Words(a + " " + b + " " + c)) == [JStr(a), JStr(b), JStr(c)]
  {
    JoinCons(" ", a, [b, c]);
    assert [b, c][1..] == [c];
    assert ([a] + [b, c]) == [a, b, c];
    assert a + " " + (b + " " + c) == a + " " + b + " " + c;
    SplitWhitespaceJoin([a, b, c]);
  }

  /** `player count ?` is sent as three tokens. */
  lemma PlayerCountTokens()
    ensures Tokenize(Words("player count ?")) == [JStr("player"), JStr("count"), JStr("?")]
  {
    assert IsWord("player") && IsWord("count") && IsWord("?");
    ThreeWords("player", "count", "?");
    assert "player" + " " + "count" + " " + "?" == "player count ?";
  }

  /** A query `<name> ?` is sent as the name and `?`. */
  lemma QueryTokens(name: string)
    requires IsWord(name)
    ensures Tokenize(Words(name + " ?")) == [JStr(name), JStr("?")]
  {
    assert IsWord("?");
    TwoWords(name, "?");
    assert name + " " + "?" == name + " ?";
  }

  lemma SyncGroupsTokens()
    ensures Tokenize(Words("syncgroups ?")) == [JStr("syncgroups"), JStr("?")]
  {
    assert IsWord("syncgroups");
    QueryTokens("syncgroups");
    assert "syncgroups" + " ?" == "syncgroups ?";
  }

  lemma VersionTokens()
    ensures Tokenize(Words("version ?")) == [JStr("version"), JStr("?")]
  {
    assert IsWord("version");
    QueryTokens("version");
    assert "version" + " ?" == "version ?";
  }

  lemma RescanProbeTokens()
    ensures Tokenize(Words("rescan ?")) == [JStr("rescan"), JStr("?")]
  {
    assert IsWord("rescan");
    QueryTokens("rescan");
    assert "rescan" + " ?" == "rescan ?";
  }

  /** `rescan playlists` is sent as two tokens. */
  lemma RescanPlaylistsTokens()
    ensures Tokenize(Words("rescan playlists")) == [JStr("rescan"), JStr("playlists")]
  {
    assert IsWord("rescan") && IsWord("playlists");
    TwoWords("rescan", "playlists");
    assert "rescan" + " " + "playlists" == "rescan playlists";
  }

  /** The JSON-RPC request body. */
  function Payload(id: int, player: string, tokens: seq<Json>): Json {
    JObj([("id", JInt(id)),
          ("method", JStr("slim.request")),
          ("params", JList([JStr(player), JList(tokens)]))])
  }

  /** The id, the player and the tokens can be read back out of a payload. */
  lemma PayloadFields(id: int, player: string, tokens: seq<Json>)
    ensures Subscript(Payload(id, player, tokens), "id") == Ok(JInt(id))
    ensures Subscript(Payload(id, player, tokens), "method") == Ok(JStr("slim.request"))
    ensures Subscript(Payload(id, player, tokens), "params") == Ok(JList([JStr(player), JList(tokens)]))
  {
    var fields := Payload(id, player, tokens).fields;
    assert IndexOf(fields, "id") == 0;
    assert IndexOf(fields[1..], "method") == 0;
    assert IndexOf(fields, "method") == 1;
    assert IndexOf(fields[2..], "params") == 0;
    assert IndexOf(fields[1..], "params") == 1;
    assert IndexOf(fields, "params") == 2;
  }

  /** What `_request` returns or raises once the request has been posted. */
  function ResponseResult(o: HttpOutcome): (r: Result<Json>)
    ensures r.Ok? <==> o.HttpOk? && o.body.JObj? && "result" in Keys(o.body.fields)
  {
    match o
    case HttpOk(body) => Subscript(body, "result")
    case HttpStatusError => Err(HTTPError)
    case HttpUndecodable => Err(ValueError)
    case HttpUnreachable => Err(ConnectionError)
  }

  /** `self._request(...)[key]` */
  function ResultField(o: HttpOutcome, key: string): Result<Json> {
    match ResponseResult(o)
    case Ok(v) => Subscript(v, key)
    case Err(e) => Err(e)
  }

  /** Whether `_request` moves the id on: only once raise_for_status has passed. */
  predicate IdAdvances(o: HttpOutcome) {
    o.HttpOk? || o.HttpUndecodable?
  }

  /** The id after one request that started with `id`. */
  function NextId(o: HttpOutcome, id: int): int {
    if IdAdvances(o) then id + 1 else id
  }

  /** What one request adds to the log of payloads: nothing when the server cannot be reached. */
  function Sent(o: HttpOutcome, id: int, player: string, tokens: seq<Json>): seq<Json> {
    if o.HttpUnreachable? then [] else [Payload(id, player, tokens)]
  }

  /** `range(n)` accepts an int (or a bool); its length is never negative. */
  function RangeLength(n: Json): (r: Result<nat>)
    ensures n.JInt? ==> r == Ok(if n.i < 0 then 0 else n.i)
    ensures !n.JInt? && !n.JBool? ==> r == Err(TypeError)
  {
    match n
    case JInt(i) => Ok(if i < 0 then 0 else i)
    case JBool(b) => Ok(if b then 1 else 0)
    case _ => Err(TypeError)
  }

  // ---------------------------------------------------------------------
  // Sync groups

  /** `x.get("sync_members", "")` for one `syncgroups_loop` entry: it must be a string to be split. */
  function Members(entry: Json): (r: Result<string>)
    ensures !entry.JObj? ==> r == Err(AttributeError)
    ensures entry.JObj? && "sync_members" !in Keys(entry.fields) ==> r == Ok("")
    ensures entry.JObj? && "sync_members" in Keys(entry.fields) ==>
              r == (if Get(entry.fields, "sync_members").value.JStr? then Ok(Get(entry.fields, "sync_members").value.s)
                    else Err(AttributeError))
  {
    match GetOr(entry, "sync_members", JStr(""))
    case Ok(JStr(s)) => Ok(s)
    case Ok(_) => Err(AttributeError)
    case Err(e) => Err(e)
  }

  /** The comprehension over the loop entries: one group per entry, in order. */
  function GroupsOf(entries: seq<Json>): (r: Result<seq<seq<string>>>)
    ensures r.Ok? <==> forall i :: 0 <= i < |entries| ==> Members(entries[i]).Ok?
    ensures r.Ok? ==> |r.value| == |entries|
    ensures r.Ok? ==> forall i :: 0 <= i < |entries| ==> r.value[i] == Split(Members(entries[i]).value, ',')
    ensures r.Err? ==> exists i :: 0 <= i < |entries| && Members(entries[i]) == Err(r.error)
  {
    if entries == [] then Ok([])
    else
      match Members(entries[0])
      case Err(e) => Err(e)
      case Ok(m) =>
        match GroupsOf(entries[1..])
        case Err(e) =>
          assert exists i :: 1 <= i < |entries| && Members(entries[i]) == Err(e) by {
            var i :| 0 <= i < |entries| - 1 && Members(entries[1..][i]) == Err(e);
            assert entries[1..][i] == entries[i + 1];
          }
          Err(e)
        case Ok(rest) =>
          assert forall i :: 1 <= i < |entries| ==> entries[i] == entries[1..][i - 1];
          Ok([Split(m, ',')] + rest)
  }

  /** `get_sync_groups` applied to the request's result. */
  function SyncGroups(result: Json): (r: Result<seq<seq<string>>>)
    ensures !result.JObj? ==> r == Err(AttributeError)
    ensures result.JObj? && "syncgroups_loop" !in Keys(result.fields) ==> r == Ok([])
    ensures result.JObj? && "syncgroups_loop" in Keys(result.fields) ==>
              var entries := Iterate(Get(result.fields, "syncgroups_loop").value);
              (r.Ok? <==> entries.Ok? && GroupsOf(entries.value).Ok?)
              && (r.Ok? ==> |r.value| == |entries.value|)
              && (entries.Ok? ==> r == GroupsOf(entries.value))
              && (entries.Err? ==> r == Err(entries.error))
  {
    match GetOr(result, "syncgroups_loop", JObj([]))
    case Err(e) => Err(e)
    case Ok(loop) =>
      match Iterate(loop)
      case Err(e) => Err(e)
      case Ok(entries) => GroupsOf(entries)
  }

  /** Each group joined with commas is the entry's `sync_members`; a missing one gives `[""]`. */
  lemma {:induction false} SyncGroupsJoin(entries: seq<Json>)
    requires GroupsOf(entries).Ok?
    ensures forall i :: 0 <= i < |entries| ==>
      Join(",", GroupsOf(entries).value[i]) == Members(entries[i]).value
    ensures forall i :: 0 <= i < |entries| && entries[i].JObj? && "sync_members" !in Keys(entries[i].fields) ==>
      GroupsOf(entries).value[i] == [""]
  {
    forall i | 0 <= i < |entries|
      ensures Join(",", GroupsOf(entries).value[i]) == Members(entries[i]).value
    {
      JoinSplit(Members(entries[i]).value, ',');
    }
  }

  /** A result without `syncgroups_loop` has no groups; a non-dict result has no `.get`. */
  lemma SyncGroupsMissingLoop(fields: seq<(string, Json)>)
    requires "syncgroups_loop" !in Keys(fields)
    ensures SyncGroups(JObj(fields)) == Ok([])
  {
  }

  /** The groups of the documented example, `[['40:40', '41:41']]`, come back as one group of two. */
  lemma SyncGroupsRoundTrip(refs: seq<string>)
    requires |refs| >= 1
    requires forall i :: 0 <= i < |refs| ==> ',' !in refs[i]
    ensures SyncGroups(JObj([("syncgroups_loop", JList([JObj([("sync_members", JStr(Join(",", refs)))])]))]))
            == Ok([refs])
  {
    var entry := JObj([("sync_members", JStr(Join(",", refs)))]);
    SingleEntryGroups(Join(",", refs));
    SplitJoin(refs, ',');
    LoopGroups([entry]);
  }

  lemma SingleEntryGroups(members: string)
    ensures GroupsOf([JObj([("sync_members", JStr(members))])]) == Ok([Split(members, ',')])
  {
    var entry := JObj([("sync_members", JStr(members))]);
    GetFirstField("sync_members", JStr(members), [], JStr(""));
    assert [("sync_members", JStr(members))] + [] == entry.fields;
    assert Members(entry) == Ok(members);
    assert [entry][0] == entry;
    assert GroupsOf([entry][1..]) == Ok([]);
    assert [Split(members, ',')] + [] == [Split(members, ',')];
  }

  lemma LoopGroups(entries: seq<Json>)
    ensures SyncGroups(JObj([("syncgroups_loop", JList(entries))])) == GroupsOf(entries)
  {
    GetFirstField("syncgroups_loop", JList(entries), [], JObj([]));
    assert [("syncgroups_loop", JList(entries))] + [] == [("syncgroups_loop", JList(entries))];
  }

  /**
   * The index of the first group that holds `ref`, or -1: `index[0]` of
   * `[i for i, g in enumerate(groups) if ref in g]`, -1 when that is empty.
   */
  function SyncIndex(groups: seq<seq<string>>, ref: string): (r: int)
    ensures -1 <= r < |groups|
    ensures r >= 0 ==> ref in groups[r] && forall j :: 0 <= j < r ==> ref !in groups[j]
    ensures r == -1 <==> forall j :: 0 <= j < |groups| ==> ref !in groups[j]
  {
    if groups == [] then -1
    else if ref in groups[0] then 0
    else
      var k := SyncIndex(groups[1..], ref);
      assert forall j :: 1 <= j < |groups| ==> groups[j] == groups[1..][j - 1];
      if k < 0 then -1 else k + 1
  }

  /** The sync-status entry of one player. */
  function PlayerEntry(p: Player, groups: seq<seq<string>>): PlayerSync {
    PlayerSync(p.name, p.ref, SyncIndex(groups, p.ref))
  }

  // ---------------------------------------------------------------------
  // Rescan

  /** The command `rescan(mode)` sends when no scan is running; None for any other mode. */
  function RescanCommand(mode: string): (c: Option<string>)
    ensures c.Some? <==> mode in {"fast", "full", "playlists"}
  {
    if mode == "fast" then Some("rescan")
    else if mode == "full" then Some("wipecache")
    else if mode == "playlists" then Some("rescan playlists")
    else None
  }

  /**
   * `is_scanning` after the `rescan ?` probe: any exception while probing
   * (the request itself, a non-dict result, a missing `_rescan`) counts as scanning.
   */
  predicate ScanInProgress(probe: HttpOutcome)
    ensures ResponseResult(probe).Err? ==> ScanInProgress(probe)
    ensures !ScanInProgress(probe) ==> probe.HttpOk? && ResultField(probe, "_rescan").Ok?
  {
    match ResultField(probe, "_rescan")
    case Ok(v) => Truthy(v)
    case Err(_) => true
  }

  // ---------------------------------------------------------------------
  // The call as written

  /**
   * Binding keyword arguments to `_request(self, command, player="-")`:
   * an unknown keyword, a repeated one or a missing `command` raises TypeError.
   */
  function BindRequestKeywords(names: seq<string>): (r: Result<()>)
    ensures r.Ok? ==> "command" in names
    ensures r.Ok? ==> forall i :: 0 <= i < |names| ==> names[i] in {"command", "player"}
  {
    if exists i :: 0 <= i < |names| && names[i] !in {"command", "player"} then Err(TypeError)
    else if exists i, j :: 0 <= i < j < |names| && names[i] == names[j] then Err(TypeError)
    else if "command" !in names then Err(TypeError)
    else Ok(())
  }

  /** The calls `_request(params=...)` and `_request(player=..., params=...)` raise TypeError. */
  lemma AsWrittenCallsRaise()
    ensures BindRequestKeywords(["params"]) == Err(TypeError)
    ensures BindRequestKeywords(["player", "params"]) == Err(TypeError)
    ensures BindRequestKeywords(["player", "command"]) == Ok(())
  {
    assert ["params"][0] !in {"command", "player"};
    assert ["player", "params"][1] !in {"command", "player"};
  }

  // ---------------------------------------------------------------------

  class LMSServer {
    const host: string
    const port: int
    const web: string
    const url: string
    /** The id the next request will carry. */
    var id: int
    /** `_version`; JNull is Python's None. */
    var version: Json
    /** `self.players`, which exists only once `get_players` has run. */
    var players: Option<seq<Player>>
    /** Every payload posted to `url`, oldest first. */
    ghost var posted: seq<Json>

    constructor (host: string := DefaultHost, port: int := DefaultPort)
      ensures this.host == host && this.port == port
      ensures web == WebUrl(host, port) && url == RpcUrl(host, port)
      ensures id == 1 && version == JNull && players == None && posted == []
    {
      this.host := host;
      this.port := port;
      version := JNull;
      id := 1;
      web := "http://" + host + ":" + IntToString(port) + "/";
      url := "http://" + host + ":" + IntToString(port) + "/jsonrpc.js";
      players := None;
      posted := [];
    }

    /**
     * `_request(command, player)`: posts the payload with the current id; the
     * id moves on by one once the status check has passed.
     */
    method Request(command: Command, player: string, outcome: HttpOutcome) returns (r: Result<Json>)
      modifies this`id, this`posted
      ensures posted == old(posted) + (if outcome.HttpUnreachable? then [] else [Payload(old(id), player, Tokenize(command))])
      ensures id == if IdAdvances(outcome) then old(id) + 1 else old(id)
      ensures r == ResponseResult(outcome)
    {
      var tokens := match command case Words(line) => Tokenize(command) case Tokens(items) => items;
      var payload := JObj([("id", JInt(id)),
                           ("method", JStr("slim.request")),
                           ("params", JList([JStr(player), JList(tokens)]))]);
      if outcome.HttpUnreachable? {
        return Err(ConnectionError);
      }
      posted := posted + [payload];
      if outcome.HttpStatusError? {
        return Err(HTTPError);
      }
      id := id + 1;
      if outcome.HttpUndecodable? {
        return Err(ValueError);
      }
      r := Subscript(outcome.body, "result");
    }

    /** `get_player_count`: the `_count` field of `player count ?`. */
    method GetPlayerCount(outcome: HttpOutcome) returns (r: Result<Json>)
      modifies this`id, this`posted
      ensures posted == old(posted) + (if outcome.HttpUnreachable? then [] else [Payload(old(id), "-", Tokenize(Words("player count ?")))])
      ensures id == if IdAdvances(outcome) then old(id) + 1 else old(id)
      ensures r == ResultField(outcome, "_count")
    {
      var res := Request(Words("player count ?"), "-", outcome);
      if res.Err? {
        return Err(res.error);
      }
      r := Subscript(res.value, "_count");
    }

    /**
     * `get_players`: resets `players`, asks for the count and appends
     * `from_index(i)` for i = 0 .. count-1 in ascending order.
     */
    method GetPlayers(countOutcome: HttpOutcome, fromIndex: nat -> Player) returns (r: Result<seq<Player>>)
      modifies this`id, this`posted, this`players
      ensures posted == old(posted) + (if countOutcome.HttpUnreachable? then [] else [Payload(old(id), "-", Tokenize(Words("player count ?")))])
      ensures id == if IdAdvances(countOutcome) then old(id) + 1 else old(id)
      ensures r.Err? <==> ResultField(countOutcome, "_count").Err? || RangeLength(ResultField(countOutcome, "_count").value).Err?
      ensures r.Err? ==> players == Some([])
      ensures r.Ok? ==> players == Some(r.value)
      ensures r.Ok? ==> |r.value| == RangeLength(ResultField(countOutcome, "_count").value).value
      ensures r.Ok? ==> forall i :: 0 <= i < |r.value| ==> r.value[i] == fromIndex(i)
      ensures r.Ok? <==> PlayerCountOf(countOutcome).Ok?
      ensures r.Ok? ==> |r.value| == PlayerCountOf(countOutcome).value
      ensures r.Err? ==> r.error == PlayerCountOf(countOutcome).error
    {
      players := Some([]);
      var count := GetPlayerCount(countOutcome);
      if count.Err? {
        return Err(count.error);
      }
      var n := RangeLength(count.value);
      if n.Err? {
        return Err(n.error);
      }
      var list := PlayersFrom(n.value, fromIndex);
      players := Some(list);
      r := Ok(list);
    }

    /** `get_sync_groups`, sending `syncgroups ?` as its `params=` argument intends. */
    method GetSyncGroups(outcome: HttpOutcome) returns (r: Result<seq<seq<string>>>)
      modifies this`id, this`posted
      ensures posted == old(posted) + (if outcome.HttpUnreachable? then [] else [Payload(old(id), "-", Tokenize(Words("syncgroups ?")))])
      ensures id == if IdAdvances(outcome) then old(id) + 1 else old(id)
      ensures r == SyncGroupsOf(outcome)
    {
      var res := Request(Words("syncgroups ?"), "-", outcome);
      if res.Err? {
        return Err(res.error);
      }
      r := SyncGroups(res.value);
    }

    /**
     * `show_players_sync_status`: the players (in `get_players` order), each
     * with the index of the first sync group holding it, and both counts.
     * The groups are asked for only once the players are known.
     */
    method ShowPlayersSyncStatus(countOutcome: HttpOutcome, fromIndex: nat -> Player, groupsOutcome: HttpOutcome)
      returns (r: Result<SyncStatus>)
      modifies this`id, this`posted, this`players
      ensures r.Ok? <==> PlayerCountOf(countOutcome).Ok? && SyncGroupsOf(groupsOutcome).Ok?
      ensures PlayerCountOf(countOutcome).Err? ==>
                && r == Err(PlayerCountOf(countOutcome).error)
                && players == Some([])
                && posted == old(posted) + Sent(countOutcome, old(id), "-", Tokenize(Words("player count ?")))
                && id == NextId(countOutcome, old(id))
      ensures PlayerCountOf(countOutcome).Ok? ==>
                && players.Some?
                && |players.value| == PlayerCountOf(countOutcome).value
                && (forall k :: 0 <= k < |players.value| ==> players.value[k] == fromIndex(k))
                && posted == old(posted) + Sent(countOutcome, old(id), "-", Tokenize(Words("player count ?")))
                             + Sent(groupsOutcome, NextId(countOutcome, old(id)), "-", Tokenize(Words("syncgroups ?")))
                && id == NextId(groupsOutcome, NextId(countOutcome, old(id)))
      ensures PlayerCountOf(countOutcome).Ok? && SyncGroupsOf(groupsOutcome).Err? ==>
                r == Err(SyncGroupsOf(groupsOutcome).error)
      ensures r.Ok? ==> r.value.groupCount == |SyncGroupsOf(groupsOutcome).value|
      ensures r.Ok? ==> r.value.playerCount == |players.value| == |r.value.players|
      ensures r.Ok? ==> forall k :: 0 <= k < |r.value.players| ==>
                players.value[k] == fromIndex(k)
                && r.value.players[k] == PlayerEntry(fromIndex(k), SyncGroupsOf(groupsOutcome).value)
    {
      var ps := GetPlayers(countOutcome, fromIndex);
      if ps.Err? {
        return Err(ps.error);
      }
      assert players == Some(ps.value);
      var groups := GetSyncGroups(groupsOutcome);
      if groups.Err? {
        return Err(groups.error);
      }
      assert players == Some(ps.value);
      var all := SyncEntries(ps.value, groups.value);
      r := Ok(SyncStatus(|groups.value|, |ps.value|, all));
    }

    /** `sync(master, slave)`: `["sync", slave]` addressed to the master player. */
    method Sync(master: string, slave: string, outcome: HttpOutcome) returns (r: Result<()>)
      modifies this`id, this`posted
      ensures posted == old(posted) + (if outcome.HttpUnreachable? then [] else [Payload(old(id), master, [JStr("sync"), JStr(slave)])])
      ensures id == if IdAdvances(outcome) then old(id) + 1 else old(id)
      ensures r.Ok? <==> ResponseResult(outcome).Ok?
    {
      var res := Request(Tokens([JStr("sync"), JStr(slave)]), master, outcome);
      r := if res.Ok? then Ok(()) else Err(res.error);
    }

    /**
     * `ping` as written: only LMSConnectionError is caught and nothing raises
     * it, so a failed request escapes and the result is never False.
     */
    method Ping(outcome: HttpOutcome) returns (r: Result<bool>)
      modifies this`id, this`posted
      ensures posted == old(posted) + (if outcome.HttpUnreachable? then [] else [Payload(old(id), "-", Tokenize(Words("ping")))])
      ensures id == if IdAdvances(outcome) then old(id) + 1 else old(id)
      ensures r.Ok? <==> ResponseResult(outcome).Ok?
      ensures r != Ok(false)
    {
      var res := Request(Words("ping"), "-", outcome);
      if res.Err? {
        return Err(res.error);
      }
      r := Ok(true);
    }

    /** `ping` as documented: True when the server answers, False when the request fails. */
    method PingIntended(outcome: HttpOutcome) returns (alive: bool)
      modifies this`id, this`posted
      ensures posted == old(posted) + (if outcome.HttpUnreachable? then [] else [Payload(old(id), "-", Tokenize(Words("ping")))])
      ensures id == if IdAdvances(outcome) then old(id) + 1 else old(id)
      ensures alive <==> outcome.HttpOk? && outcome.body.JObj? && "result" in Keys(outcome.body.fields)
    {
      var res := Request(Words("ping"), "-", outcome);
      alive := res.Ok?;
    }

    /**
     * The `version` property: asks for `version ?` only while `_version` is
     * None, and stores the answer; later reads return the stored value.
     */
    method Version(outcome: HttpOutcome) returns (r: Result<Json>)
      modifies this`id, this`posted, this`version
      ensures old(version) != JNull ==>
                r == Ok(old(version)) && version == old(version) && id == old(id) && posted == old(posted)
      ensures old(version) == JNull ==>
                && posted == old(posted) + (if outcome.HttpUnreachable? then [] else [Payload(old(id), "-", Tokenize(Words("version ?")))])
                && id == (if IdAdvances(outcome) then old(id) + 1 else old(id))
                && r == ResultField(outcome, "_version")
                && version == (if r.Ok? then r.value else JNull)
    {
      if version == JNull {
        var res := Request(Words("version ?"), "-", outcome);
        if res.Err? {
          return Err(res.error);
        }
        var v := Subscript(res.value, "_version");
        if v.Err? {
          return v;
        }
        version := v.value;
      }
      r := Ok(version);
    }

    /**
     * `rescan(mode)`: probes with `rescan ?`; while a scan runs (or the probe
     * fails) returns "" and sends nothing more; otherwise sends the mode's
     * command, or returns None for an unknown mode.
     */
    method Rescan(mode: string, probe: HttpOutcome, trigger: HttpOutcome) returns (r: Result<Json>)
      modifies this`id, this`posted
      ensures var probed := old(posted) + (if probe.HttpUnreachable? then [] else [Payload(old(id), "-", Tokenize(Words("rescan ?")))]);
              if ScanInProgress(probe) then
                r == Ok(JStr("")) && posted == probed
                && id == (if IdAdvances(probe) then old(id) + 1 else old(id))
              else if RescanCommand(mode).None? then
                r == Ok(JNull) && posted == probed && id == old(id) + 1
              else
                && r == ResponseResult(trigger)
                && posted == probed + (if trigger.HttpUnreachable? then [] else [Payload(old(id) + 1, "-", Tokenize(Words(RescanCommand(mode).value)))])
                && id == (if IdAdvances(trigger) then old(id) + 2 else old(id) + 1)
    {
      var scanning := true;
      var res := Request(Words("rescan ?"), "-", probe);
      if res.Ok? {
        var field := Subscript(res.value, "_rescan");
        if field.Ok? {
          scanning := Truthy(field.value);
        }
      }
      if !scanning {
        if mode == "fast" {
          r := Request(Words("rescan"), "-", trigger);
        } else if mode == "full" {
          r := Request(Words("wipecache"), "-", trigger);
        } else if mode == "playlists" {
          r := Request(Words("rescan playlists"), "-", trigger);
        } else {
          r := Ok(JNull);
        }
      } else {
        r := Ok(JStr(""));
      }
    }

    /** The `rescanprogress` property: the `_rescan` field, asked for on every read. */
    method RescanProgress(outcome: HttpOutcome) returns (r: Result<Json>)
      modifies this`id, this`posted
      ensures posted == old(posted) + (if outcome.HttpUnreachable? then [] else [Payload(old(id), "-", Tokenize(Words("rescanprogress")))])
      ensures id == if IdAdvances(outcome) then old(id) + 1 else old(id)
      ensures r == ResultField(outcome, "_rescan")
    {
      var res := Request(Words("rescanprogress"), "-", outcome);
      if res.Err? {
        return Err(res.error);
      }
      r := Subscript(res.value, "_rescan");
    }
  }

  /** The loop of `get_players`: `from_index(i)` for i = 0 .. n-1, in ascending order. */
  method PlayersFrom(n: nat, fromIndex: nat -> Player) returns (list: seq<Player>)
    ensures |list| == n
    ensures forall j :: 0 <= j < n ==> list[j] == fromIndex(j)
  {
    list := [];
    var i := 0;
    while i < n
      invariant 0 <= i <= n
      invariant |list| == i
      invariant forall j :: 0 <= j < i ==> list[j] == fromIndex(j)
    {
      list := list + [fromIndex(i)];
      i := i + 1;
    }
  }

  /** The loop of `show_players_sync_status`: one entry per player, in order. */
  method SyncEntries(players: seq<Player>, groups: seq<seq<string>>) returns (entries: seq<PlayerSync>)
    ensures |entries| == |players|
    ensures forall j :: 0 <= j < |players| ==> entries[j] == PlayerEntry(players[j], groups)
  {
    entries := [];
    for k := 0 to |players|
      invariant |entries| == k
      invariant forall j :: 0 <= j < k ==> entries[j] == PlayerEntry(players[j], groups)
    {
      var p := players[k];
      entries := entries + [PlayerSync(p.name, p.ref, SyncIndex(groups, p.ref))];
    }
  }

  /** How many players `get_players` reads for one outcome of its count request. */
  function PlayerCountOf(o: HttpOutcome): Result<nat> {
    match ResultField(o, "_count")
    case Ok(v) => RangeLength(v)
    case Err(e) => Err(e)
  }

  /** What `get_sync_groups` yields for one outcome of its request. */
  function SyncGroupsOf(o: HttpOutcome): (r: Result<seq<seq<string>>>)
    ensures r.Ok? ==> o.HttpOk? && o.body.JObj? && "result" in Keys(o.body.fields)
    ensures o.HttpUnreachable? ==> r == Err(ConnectionError)
    ensures o.HttpStatusError? ==> r == Err(HTTPError)
    ensures o.HttpUndecodable? ==> r == Err(ValueError)
    ensures ResponseResult(o).Ok? ==> r == SyncGroups(ResponseResult(o).value)
  {
    match ResponseResult(o)
    case Ok(v) => SyncGroups(v)
    case Err(e) => Err(e)
  }
}
