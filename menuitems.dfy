/**
 * The menu items of LMSTools/menuitems.py: each wraps one JSON menu dict
 * sent by the server and turns its `actions` into command token lists and
 * command strings. Lists the source builds afresh and then extends or
 * inserts into are values here; nothing outside a call can observe them.
 */
module MenuItems {
  import opened Text
  import opened Dicts
  import opened Values
  import Server

  /** The placeholder the server puts where a search term goes. */
  const TaggedInput := "__TAGGEDINPUT__"

  /** The menu item classes; `Audio` subclasses `Playlist`, the rest the base class. */
  datatype Kind = Base | Next | Search | Playlist | Audio

  /** `isinstance(menu, PlaylistMenuItem)` */
  predicate IsPlaylistItem(k: Kind) {
    k == Playlist || k == Audio
  }

  /** `menu_type`: an audio item is "audio" although it is also a playlist item. */
  function MenuType(k: Kind): (t: string)
    ensures t == "audio" <==> k == Audio
    ensures t == "playlist" <==> k == Playlist
    ensures t == "search" <==> k == Search
    ensures t == "menu" <==> k == Base || k == Next
  {
    if k == Audio then "audio"
    else if IsPlaylistItem(k) then "playlist"
    else if k == Search then "search"
    else "menu"
  }

  // ---------------------------------------------------------------------
  // Icon

  /** The first value that is not None, or None. */
  function FirstNonNull(cs: seq<Json>): (r: Json)
    ensures r == JNull <==> forall i :: 0 <= i < |cs| ==> cs[i] == JNull
    ensures r != JNull ==> r in cs
  {
    if cs == [] then JNull
    else if cs[0] != JNull then cs[0]
    else
      assert forall i :: 1 <= i < |cs| ==> cs[i] == cs[1..][i - 1];
      FirstNonNull(cs[1..])
  }

  /** The `commonParams.track_id` candidate: a truthy id becomes its cover path. */
  function TrackCover(trackId: Json): (c: Json)
    ensures Truthy(trackId) ==>
              c.JStr? && |c.s| == |Str(trackId)| + 12
              && c.s[..6] == "music/" && c.s[6..|c.s| - 6] == Str(trackId) && c.s[|c.s| - 6..] == "/cover"
    ensures !Truthy(trackId) ==> c == trackId
  {
    if Truthy(trackId) then
      var s := "music/" + Str(trackId) + "/cover";
      assert s[6..|s| - 6] == Str(trackId);
      JStr(s)
    else trackId
  }

  /** The chain of `_get_icon` before the web prefix. */
  function RawIcon(m: Json): (r: Result<Json>)
    ensures !m.JObj? ==> r == Err(AttributeError)
  {
    match GetOr(m, "icon", JNull)
    case Err(e) => Err(e)
    case Ok(icon) =>
      if icon != JNull then Ok(icon)
      else match GetOr(m, "icon-id", JNull)
      case Err(e) => Err(e)
      case Ok(iconId) =>
        if iconId != JNull then Ok(iconId)
        else match GetOr(m, "window", JObj([]))
        case Err(e) => Err(e)
        case Ok(window) =>
          match GetOr(window, "icon-id", JNull)
          case Err(e) => Err(e)
          case Ok(windowIcon) =>
            if windowIcon != JNull then Ok(windowIcon)
            else match GetOr(m, "commonParams", JObj([]))
            case Err(e) => Err(e)
            case Ok(common) =>
              match GetOr(common, "track_id", JNull)
              case Err(e) => Err(e)
              case Ok(trackId) => Ok(TrackCover(trackId))
  }

  /**
   * The icon is the first candidate that is not None, in the order icon,
   * icon-id, window.icon-id, then the cover of commonParams.track_id.
   */
  lemma IconChain(m: Json)
    requires m.JObj?
    requires GetOr(m, "window", JObj([])).value.JObj?
    requires GetOr(m, "commonParams", JObj([])).value.JObj?
    ensures RawIcon(m) == Ok(FirstNonNull([
      GetOr(m, "icon", JNull).value,
      GetOr(m, "icon-id", JNull).value,
      GetOr(GetOr(m, "window", JObj([])).value, "icon-id", JNull).value,
      TrackCover(GetOr(GetOr(m, "commonParams", JObj([])).value, "track_id", JNull).value)]))
  {
    var c0 := GetOr(m, "icon", JNull).value;
    var c1 := GetOr(m, "icon-id", JNull).value;
    var c2 := GetOr(GetOr(m, "window", JObj([])).value, "icon-id", JNull).value;
    var c3 := TrackCover(GetOr(GetOr(m, "commonParams", JObj([])).value, "track_id", JNull).value);
    assert [c3][1..] == [];
    assert FirstNonNull([c3]) == c3;
    assert [c2, c3][1..] == [c3];
    assert FirstNonNull([c2, c3]) == if c2 != JNull then c2 else c3;
    assert [c1, c2, c3][1..] == [c2, c3];
    assert FirstNonNull([c1, c2, c3]) == if c1 != JNull then c1 else FirstNonNull([c2, c3]);
    assert [c0, c1, c2, c3][1..] == [c1, c2, c3];
    assert FirstNonNull([c0, c1, c2, c3]) == if c0 != JNull then c0 else FirstNonNull([c1, c2, c3]);
  }

  /**
   * `_get_icon`: a truthy icon that does not start with "http" gets the
   * server's web base in front; a falsy one is returned as it is; a truthy
   * icon that is not a string has no `startswith`.
   */
  function GetIcon(m: Json, web: string): (r: Result<Json>)
    ensures RawIcon(m).Err? ==> r == RawIcon(m)
    ensures RawIcon(m).Ok? && !Truthy(RawIcon(m).value) ==> r == RawIcon(m)
    ensures RawIcon(m).Ok? && Truthy(RawIcon(m).value) && !RawIcon(m).value.JStr? ==> r == Err(AttributeError)
    ensures RawIcon(m).Ok? && Truthy(RawIcon(m).value) && RawIcon(m).value.JStr? ==>
              if StartsWith(RawIcon(m).value.s, "http") then r == RawIcon(m)
              else r == Ok(JStr(web + RawIcon(m).value.s))
  {
    match RawIcon(m)
    case Err(e) => Err(e)
    case Ok(icon) =>
      if !Truthy(icon) then Ok(icon)
      else if !icon.JStr? then Err(AttributeError)
      else if StartsWith(icon.s, "http") then Ok(icon)
      else Ok(JStr(web + icon.s))
  }

  /** With the server's own web base, every truthy icon is an absolute http URL. */
  lemma IconIsAbsolute(m: Json, host: string, port: int)
    ensures var r := GetIcon(m, Server.WebUrl(host, port));
            r.Ok? && Truthy(r.value) ==> r.value.JStr? && StartsWith(r.value.s, "http")
  {
    var web := Server.WebUrl(host, port);
    if RawIcon(m).Ok? && RawIcon(m).value.JStr? {
      WebUrlIsHttp(host, port, RawIcon(m).value.s);
    }
  }

  lemma WebUrlIsHttp(host: string, port: int, s: string)
    ensures StartsWith(Server.WebUrl(host, port) + s, "http")
  {
    var tail := "://" + host + ":" + IntToString(port) + "/";
    assert Server.WebUrl(host, port) == "http" + tail;
    assert (("http" + tail) + s)[..4] == "http";
  }

  // ---------------------------------------------------------------------
  // Commands

  /** The `"k:v"` strings of a dict's entries, in the dict's order. */
  function FormatFields(fields: seq<(string, Json)>): (r: seq<string>)
    ensures |r| == |fields|
    ensures forall i :: 0 <= i < |fields| ==> r[i] == fields[i].0 + ":" + Str(fields[i].1)
  {
    seq(|fields|, i requires 0 <= i < |fields| => fields[i].0 + ":" + Str(fields[i].1))
  }

  /** `items[x]` for a list: an int (or bool) index, negative from the end. */
  function ListSubscript(items: seq<Json>, x: Json): Result<Json> {
    var k := match x case JInt(i) => i case JBool(b) => (if b then 1 else 0) case _ => 0;
    if !(x.JInt? || x.JBool?) then Err(TypeError)
    else
      var j := if k < 0 then k + |items| else k;
      if 0 <= j < |items| then Ok(items[j]) else Err(IndexError)
  }

  /** The comprehension of `format_dict_cmd` when the argument is a list. */
  function FormatListEntries(xs: seq<Json>, items: seq<Json>): (r: Result<seq<string>>)
    ensures r.Ok? <==> forall i :: 0 <= i < |xs| ==> ListSubscript(items, xs[i]).Ok?
    ensures r.Ok? ==> |r.value| == |xs|
    ensures r.Ok? ==> forall i :: 0 <= i < |xs| ==>
              r.value[i] == Str(xs[i]) + ":" + Str(ListSubscript(items, xs[i]).value)
    ensures r.Err? ==> r.error == TypeError || r.error == IndexError
  {
    if xs == [] then Ok([])
    else
      assert forall i :: 1 <= i < |xs| ==> xs[i] == xs[1..][i - 1];
      match ListSubscript(items, xs[0])
      case Err(e) => Err(e)
      case Ok(v) =>
        match FormatListEntries(xs[1..], items)
        case Err(e) => Err(e)
        case Ok(rest) => Ok([Str(xs[0]) + ":" + Str(v)] + rest)
  }

  /**
   * `format_dict_cmd(item)`: `"{}:{}".format(x, item[x]) for x in item`. For
   * a dict that is one `"key:value"` per entry in order; other values are
   * iterated and subscripted as Python does.
   */
  function FormatDictCmd(item: Json): (r: Result<seq<string>>)
    ensures item.JObj? ==> r == Ok(FormatFields(item.fields))
    ensures item.JList? ==> r == FormatListEntries(item.items, item.items)
    ensures item.JStr? ==> r == if item.s == "" then Ok([]) else Err(TypeError)
    ensures r.Ok? ==> Iterate(item).Ok? && |r.value| == |Iterate(item).value|
    ensures item.JNull? || item.JInt? || item.JBool? ==> r == Err(TypeError)
    ensures r.Err? ==> r.error == TypeError || r.error == IndexError
  {
    match item
    case JObj(fields) => Ok(FormatFields(fields))
    case JList(items) => FormatListEntries(items, items)
    case JStr(s) => if s == "" then Ok([]) else Err(TypeError)
    case _ => Err(TypeError)
  }

  /** Each formatted entry splits back, at its first ':', into key and value text. */
  lemma FormatDictRoundTrip(fields: seq<(string, Json)>)
    requires forall i :: 0 <= i < |fields| ==> ':' !in fields[i].0
    ensures FormatDictCmd(JObj(fields)).Ok?
    ensures forall i :: 0 <= i < |fields| ==>
              var e := FormatDictCmd(JObj(fields)).value[i];
              Find(e, ':') == |fields[i].0|
              && SliceTo(e, Find(e, ':')) == fields[i].0
              && SliceFrom(e, Find(e, ':') + 1) == Str(fields[i].1)
  {
    forall i | 0 <= i < |fields|
      ensures var e := FormatDictCmd(JObj(fields)).value[i];
              Find(e, ':') == |fields[i].0|
              && SliceTo(e, Find(e, ':')) == fields[i].0
              && SliceFrom(e, Find(e, ':') + 1) == Str(fields[i].1)
    {
      var k, v := fields[i].0, Str(fields[i].1);
      var e := k + ":" + v;
      assert e[..|k|] == k;
      assert e[|k| + 1..] == v;
      FindIs(e, ':', |k|);
    }
  }

  function Strings(ss: seq<string>): (r: seq<Json>)
    ensures |r| == |ss| && forall i :: 0 <= i < |ss| ==> r[i] == JStr(ss[i])
  {
    seq(|ss|, i requires 0 <= i < |ss| => JStr(ss[i]))
  }

  /** `cmd.insert(idx+1, 1000); cmd.insert(idx+1, 0)` after the first "items", if any. */
  function InsertPaging(cmd: seq<Json>): (r: seq<Json>)
    ensures JStr("items") !in cmd ==> r == cmd
    ensures JStr("items") in cmd ==>
              var i := ListIndex(cmd, JStr("items"));
              |r| == |cmd| + 2
              && r[..i + 1] == cmd[..i + 1]
              && r[i + 1] == JInt(0) && r[i + 2] == JInt(1000)
              && r[i + 3..] == cmd[i + 1..]
  {
    var i := ListIndex(cmd, JStr("items"));
    if i < 0 then cmd
    else
      var once := Insert(cmd, i + 1, JInt(1000));
      var twice := Insert(once, i + 1, JInt(0));
      assert twice[i + 3..] == once[i + 2..];
      twice
  }

  /** `menuitem.get("actions", dict()).get(mode)` (the default of `build_cmd` is False, also falsy). */
  function OwnAction(m: Json, mode: string): (r: Result<Json>)
    ensures !m.JObj? ==> r == Err(AttributeError)
  {
    match GetOr(m, "actions", JObj([]))
    case Err(e) => Err(e)
    case Ok(actions) => GetOr(actions, mode, JNull)
  }

  /** `act["cmd"] + self.format_dict_cmd(act.get("params", dict()))`, before paging. */
  function GoCommand(act: Json): (r: Result<seq<Json>>)
    ensures act.JObj? && "cmd" !in Keys(act.fields) ==> r == Err(KeyError("cmd"))
    ensures r.Ok? <==>
              Subscript(act, "cmd").Ok? && Subscript(act, "cmd").value.JList?
              && GetOr(act, "params", JObj([])).Ok? && FormatDictCmd(GetOr(act, "params", JObj([])).value).Ok?
    ensures r.Ok? ==> |Subscript(act, "cmd").value.items| <= |r.value|
    ensures r.Ok? ==> r.value[..|Subscript(act, "cmd").value.items|] == Subscript(act, "cmd").value.items
    ensures r.Ok? ==>
              var ps := FormatDictCmd(GetOr(act, "params", JObj([])).value);
              ps.Ok? && r.value[|Subscript(act, "cmd").value.items|..] == Strings(ps.value)
  {
    match Subscript(act, "cmd")
    case Err(e) => Err(e)
    case Ok(c) =>
      match GetOr(act, "params", JObj([]))
      case Err(e) => Err(e)
      case Ok(p) =>
        match FormatDictCmd(p)
        case Err(e) => Err(e)
        case Ok(ps) =>
          if !c.JList? then Err(TypeError)
          else
            assert (c.items + Strings(ps))[..|c.items|] == c.items;
            assert (c.items + Strings(ps))[|c.items|..] == Strings(ps);
            Ok(c.items + Strings(ps))
  }

  /**
   * `build_cmd`: `[]` without a truthy `actions.go`; otherwise `go.cmd`
   * followed by the formatted `go.params`, with 0 and 1000 inserted right
   * after the first "items".
   */
  function BuildCmd(m: Json): (r: Result<seq<Json>>)
    ensures OwnAction(m, "go").Err? ==> r == Err(OwnAction(m, "go").error)
    ensures OwnAction(m, "go").Ok? && !Truthy(OwnAction(m, "go").value) ==> r == Ok([])
    ensures r.Ok? && r.value != [] ==> OwnAction(m, "go").Ok? && Truthy(OwnAction(m, "go").value)
    ensures OwnAction(m, "go").Ok? && Truthy(OwnAction(m, "go").value) ==>
              r == (match GoCommand(OwnAction(m, "go").value)
                    case Ok(c) => Ok(InsertPaging(c))
                    case Err(e) => Err(e))
  {
    match OwnAction(m, "go")
    case Err(e) => Err(e)
    case Ok(act) =>
      if !Truthy(act) then Ok([])
      else
        match GoCommand(act)
        case Err(e) => Err(e)
        case Ok(c) => Ok(InsertPaging(c))
  }

  /** `r` is `c` with the paging pair after "items": two tokens more, and taking them out gives `c` back. */
  predicate PagedFrom(r: seq<Json>, c: seq<Json>) {
    && |r| == |c| + (if JStr("items") in c then 2 else 0)
    && (JStr("items") in c ==>
          var i := ListIndex(c, JStr("items"));
          r[..i + 1] + r[i + 3..] == c)
  }

  /** The paging pair adds exactly two tokens, and taking them out again gives the command back. */
  lemma BuildCmdPaging(m: Json)
    requires OwnAction(m, "go").Ok? && Truthy(OwnAction(m, "go").value)
    requires GoCommand(OwnAction(m, "go").value).Ok?
    ensures BuildCmd(m).Ok? && PagedFrom(BuildCmd(m).value, GoCommand(OwnAction(m, "go").value).value)
  {
    var c := GoCommand(OwnAction(m, "go").value).value;
    PagedGo(m);
    PagingRemovable(c);
  }

  lemma PagedGo(m: Json)
    requires OwnAction(m, "go").Ok? && Truthy(OwnAction(m, "go").value)
    requires GoCommand(OwnAction(m, "go").value).Ok?
    ensures BuildCmd(m) == Ok(InsertPaging(GoCommand(OwnAction(m, "go").value).value))
  {
  }

  lemma PagingRemovable(c: seq<Json>)
    ensures PagedFrom(InsertPaging(c), c)
  {
    if JStr("items") in c {
      var i := ListIndex(c, JStr("items"));
      DropTwoAfter(c, InsertPaging(c), i);
    }
  }

  // ---------------------------------------------------------------------
  // Search

  /** One element of `search`: its text with every placeholder replaced, if it holds one. */
  function TagSubst(x: Json, query: string): (r: Json)
    ensures Str(r) == ReplaceAll(Str(x), TaggedInput, query)
    ensures !Contains(Str(x), TaggedInput) ==> r == x
  {
    var s := Str(x);
    if Contains(s, TaggedInput) then JStr(ReplaceAll(s, TaggedInput, query))
    else
      ReplaceAbsent(s, TaggedInput, query);
      x
  }

  /**
   * `search(query)`: `build_cmd(menuitem)` with every placeholder in an
   * element's text replaced by the query; elements without one are kept.
   */
  function SearchCmd(m: Json, query: string): (r: Result<seq<Json>>)
    ensures r.Ok? <==> BuildCmd(m).Ok?
    ensures r.Ok? ==> |r.value| == |BuildCmd(m).value|
    ensures r.Ok? ==> forall i :: 0 <= i < |r.value| ==>
              var x := BuildCmd(m).value[i];
              if Contains(Str(x), TaggedInput) then r.value[i] == JStr(ReplaceAll(Str(x), TaggedInput, query))
              else r.value[i] == x
  {
    match BuildCmd(m)
    case Err(e) => Err(e)
    case Ok(cmd) => Ok(seq(|cmd|, i requires 0 <= i < |cmd| => TagSubst(cmd[i], query)))
  }

  /** `cmd_search`: the unsubstituted command as one string. */
  function CmdSearch(m: Json): (r: Result<string>)
    ensures r.Ok? <==> BuildCmd(m).Ok?
  {
    match BuildCmd(m)
    case Err(e) => Err(e)
    case Ok(cmd) => Ok(ListToStr(cmd))
  }

  /**
   * Replacing the placeholder in `cmd_search` by the query gives the string
   * form of `search(query)`: the placeholder never spans two tokens.
   */
  lemma SearchMatchesCmdSearch(m: Json, query: string)
    requires BuildCmd(m).Ok?
    ensures ListToStr(SearchCmd(m, query).value) == ReplaceAll(CmdSearch(m).value, TaggedInput, query)
  {
    var parts := StrAll(BuildCmd(m).value);
    SearchTokens(m, query);
    assert ' ' !in TaggedInput;
    ReplaceJoin(parts, ' ', TaggedInput, query);
  }

  /** Token by token, the text of `search(query)` is the replaced text of the command. */
  lemma SearchTokens(m: Json, query: string)
    requires BuildCmd(m).Ok?
    ensures var parts := StrAll(BuildCmd(m).value);
            StrAll(SearchCmd(m, query).value)
            == seq(|parts|, i requires 0 <= i < |parts| => ReplaceAll(parts[i], TaggedInput, query))
  {
    var cmd := BuildCmd(m).value;
    var found := SearchCmd(m, query).value;
    var parts := StrAll(cmd);
    var replaced := seq(|parts|, i requires 0 <= i < |parts| => ReplaceAll(parts[i], TaggedInput, query));
    forall i | 0 <= i < |cmd|
      ensures StrAll(found)[i] == replaced[i]
    {
      assert found[i] == TagSubst(cmd[i], query);
    }
  }

  /** Searching for the placeholder itself changes no string token. */
  lemma SearchPlaceholderKeepsStrings(m: Json)
    requires BuildCmd(m).Ok?
    ensures forall i :: 0 <= i < |BuildCmd(m).value| && BuildCmd(m).value[i].JStr? ==>
              SearchCmd(m, TaggedInput).value[i] == BuildCmd(m).value[i]
  {
    var cmd := BuildCmd(m).value;
    forall i | 0 <= i < |cmd| && cmd[i].JStr?
      ensures SearchCmd(m, TaggedInput).value[i] == cmd[i]
    {
      ReplaceSelf(cmd[i].s, TaggedInput);
    }
  }

  // ---------------------------------------------------------------------
  // Playlist items

  /** The action of `cmd_from_action`: the item's own when truthy, else the base menu's. */
  function ActionFor(m: Json, base: Json, mode: string): (r: Result<Json>)
    ensures OwnAction(m, mode).Ok? && Truthy(OwnAction(m, mode).value) ==> r == OwnAction(m, mode)
    ensures OwnAction(m, mode).Ok? && !Truthy(OwnAction(m, mode).value) ==> r == OwnAction(base, mode)
    ensures OwnAction(m, mode).Err? ==> r == OwnAction(m, mode)
  {
    match OwnAction(m, mode)
    case Err(e) => Err(e)
    case Ok(own) => if Truthy(own) then Ok(own) else OwnAction(base, mode)
  }

  /** `self.format_dict_cmd(self.menuitem[key])`, with a KeyError from either step swallowed. */
  function ItemsParams(m: Json, key: Json): (r: Result<seq<string>>)
    ensures key.JStr? && m.JObj? && key.s !in Keys(m.fields) ==> r == Ok([])
    ensures key.JStr? && m.JObj? && key.s in Keys(m.fields) ==> r == FormatDictCmd(Get(m.fields, key.s).value)
    ensures (key.JNull? || key.JInt? || key.JBool?) && m.JObj? ==> r == Ok([])
    ensures key.JList? || key.JObj? ==> r == Err(TypeError)
    ensures r.Err? ==> !r.error.KeyError?
  {
    var target :=
      match key
      case JStr(s) => Subscript(m, s)
      case JList(_) => Err(TypeError)
      case JObj(_) => Err(TypeError)
      case _ => Err(KeyError(Str(key)));
    match target
    case Err(KeyError(_)) => Ok([])
    case Err(e) => Err(e)
    case Ok(v) =>
      match FormatDictCmd(v)
      case Err(KeyError(_)) => Ok([])
      case Err(e) => Err(e)
      case Ok(ps) => Ok(ps)
  }

  /**
   * `cmd += cmd_; cmd += format_dict_cmd(params)` and, for a truthy `key`,
   * the formatted `menuitem[key]`; `+=` on a list takes any iterable.
   */
  function AssembleAction(c: Json, params: Json, key: Json, m: Json): (r: Result<seq<Json>>)
    ensures r.Ok? ==> Iterate(c).Ok? && |Iterate(c).value| <= |r.value| && r.value[..|Iterate(c).value|] == Iterate(c).value
    ensures Iterate(c).Err? ==> r == Iterate(c)
    ensures r.Ok? <==> Iterate(c).Ok? && FormatDictCmd(params).Ok? && (Truthy(key) ==> ItemsParams(m, key).Ok?)
    ensures r.Ok? ==>
              r.value == Iterate(c).value + Strings(FormatDictCmd(params).value)
                         + (if Truthy(key) then Strings(ItemsParams(m, key).value) else [])
  {
    match Iterate(c)
    case Err(e) => Err(e)
    case Ok(cs) =>
      match FormatDictCmd(params)
      case Err(e) => Err(e)
      case Ok(ps) =>
        if !Truthy(key) then
          assert (cs + Strings(ps))[..|cs|] == cs;
          assert cs + Strings(ps) + [] == cs + Strings(ps);
          Ok(cs + Strings(ps))
        else
          match ItemsParams(m, key)
          case Err(e) => Err(e)
          case Ok(extra) =>
            assert (cs + Strings(ps) + Strings(extra))[..|cs|] == cs;
            Ok(cs + Strings(ps) + Strings(extra))
  }

  /** The command `cmd_from_action` assembles from one action. */
  function ActionCommand(act: Json, m: Json): (r: Result<seq<Json>>)
    ensures !Truthy(act) ==> r == Ok([])
    ensures Truthy(act) && !act.JObj? ==> r == Err(AttributeError)
    ensures Truthy(act) && act.JObj? ==>
              var key := GetOr(act, "itemsParams", JNull).value;
              (r.Ok? <==> Iterate(GetOr(act, "cmd", JList([])).value).Ok?
                          && FormatDictCmd(GetOr(act, "params", JObj([])).value).Ok?
                          && (Truthy(key) ==> ItemsParams(m, key).Ok?))
    ensures r.Ok? && Truthy(act) ==>
              var cs := Iterate(GetOr(act, "cmd", JList([])).value);
              cs.Ok? && |cs.value| <= |r.value| && r.value[..|cs.value|] == cs.value
    ensures r.Ok? && Truthy(act) ==>
              var ps := FormatDictCmd(GetOr(act, "params", JObj([])).value);
              var key := GetOr(act, "itemsParams", JNull).value;
              ps.Ok? && (Truthy(key) ==> ItemsParams(m, key).Ok?)
              && r.value == Iterate(GetOr(act, "cmd", JList([])).value).value + Strings(ps.value)
                            + (if Truthy(key) then Strings(ItemsParams(m, key).value) else [])
  {
    if !Truthy(act) then Ok([])
    else if !act.JObj? then Err(AttributeError)
    else
      AssembleAction(GetOr(act, "cmd", JList([])).value, GetOr(act, "params", JObj([])).value,
                     GetOr(act, "itemsParams", JNull).value, m)
  }

  /** A key the item does not have contributes nothing: the KeyError is swallowed. */
  lemma AbsentItemsParams(c: Json, params: Json, key: string, m: Json)
    requires m.JObj? && key !in Keys(m.fields)
    ensures AssembleAction(c, params, JStr(key), m) == AssembleAction(c, params, JNull, m)
  {
    assert ItemsParams(m, JStr(key)) == Ok([]);
    if Iterate(c).Ok? && FormatDictCmd(params).Ok? && key != "" {
      var cs, ps := Iterate(c).value, FormatDictCmd(params).value;
      assert Strings([]) == [];
      assert cs + Strings(ps) + [] == cs + Strings(ps);
    }
  }

  /**
   * `cmd_from_action(mode)`: `act.cmd`, then the formatted `act.params`, then
   * the formatted `menuitem[act.itemsParams]`; `[]` when neither the item
   * nor the base menu has the action.
   */
  function CmdFromAction(m: Json, base: Json, mode: string): (r: Result<seq<Json>>)
    ensures ActionFor(m, base, mode).Ok? ==> r == ActionCommand(ActionFor(m, base, mode).value, m)
    ensures ActionFor(m, base, mode).Ok? && !Truthy(ActionFor(m, base, mode).value) ==> r == Ok([])
    ensures ActionFor(m, base, mode).Err? ==> r == Err(ActionFor(m, base, mode).error)
  {
    match ActionFor(m, base, mode)
    case Err(e) => Err(e)
    case Ok(act) => ActionCommand(act, m)
  }

  /** The item's own action takes precedence: the base menu is then never consulted. */
  lemma OwnActionWins(m: Json, base: Json, base': Json, mode: string)
    requires OwnAction(m, mode).Ok? && Truthy(OwnAction(m, mode).value)
    ensures CmdFromAction(m, base, mode) == CmdFromAction(m, base', mode)
  {
  }

  /** An `itemsParams` naming a key the item does not have adds nothing to the command. */
  lemma MissingItemsParamsSkipped(fields: seq<(string, Json)>, m: Json, key: string)
    requires UniqueKeys(fields)
    requires Get(fields, "itemsParams") == Some(JStr(key))
    requires m.JObj? && key !in Keys(m.fields)
    ensures Delete(fields, "itemsParams").Some?
    ensures ActionCommand(JObj(fields), m) == ActionCommand(JObj(Delete(fields, "itemsParams").value), m)
  {
    LookupsAfterDelete(fields);
    var rest := Delete(fields, "itemsParams").value;
    var c, p := GetOr(JObj(fields), "cmd", JList([])).value, GetOr(JObj(fields), "params", JObj([])).value;
    AbsentItemsParams(c, p, key, m);
    if rest == [] {
      assert FormatDictCmd(JObj([])) == Ok([]);
      assert Strings([]) == [];
      assert AssembleAction(c, p, JNull, m) == Ok([]);
    }
  }

  lemma LookupsAfterDelete(fields: seq<(string, Json)>)
    requires UniqueKeys(fields)
    requires "itemsParams" in Keys(fields)
    ensures Delete(fields, "itemsParams").Some?
    ensures var rest := Delete(fields, "itemsParams").value;
            && GetOr(JObj(rest), "cmd", JList([])) == GetOr(JObj(fields), "cmd", JList([]))
            && GetOr(JObj(rest), "params", JObj([])) == GetOr(JObj(fields), "params", JObj([]))
            && GetOr(JObj(rest), "itemsParams", JNull) == Ok(JNull)
            && (rest == [] ==> GetOr(JObj(fields), "cmd", JList([])) == Ok(JList([]))
                               && GetOr(JObj(fields), "params", JObj([])) == Ok(JObj([])))
  {
    DeleteKeys(fields, "itemsParams");
    GetOrAfterDelete(fields, "itemsParams", "cmd", JList([]));
    GetOrAfterDelete(fields, "itemsParams", "params", JObj([]));
    RemoveKeyIn(Keys(fields), "itemsParams", "itemsParams");
  }

  /** A command list as the string the player is sent: `" ".join(str(x) for x in cmd)`. */
  function CommandString(cmd: Result<seq<Json>>): (r: Result<string>)
    ensures r.Ok? <==> cmd.Ok?
    ensures r.Ok? ==> r.value == ListToStr(cmd.value)
  {
    match cmd
    case Err(e) => Err(e)
    case Ok(c) => Ok(ListToStr(c))
  }

  /** `go()` */
  function Go(m: Json, base: Json): (r: Result<seq<Json>>)
    ensures OwnAction(m, "go").Ok? && Truthy(OwnAction(m, "go").value) ==>
              r == ActionCommand(OwnAction(m, "go").value, m)
    ensures OwnAction(m, "go").Err? ==> r == Err(OwnAction(m, "go").error)
    ensures OwnAction(m, "go").Ok? && !Truthy(OwnAction(m, "go").value) && OwnAction(base, "go").Err? ==>
              r == Err(OwnAction(base, "go").error)
    ensures OwnAction(m, "go").Ok? && !Truthy(OwnAction(m, "go").value) && OwnAction(base, "go").Ok? ==>
              r == (if Truthy(OwnAction(base, "go").value) then ActionCommand(OwnAction(base, "go").value, m) else Ok([]))
  {
    CmdFromAction(m, base, "go")
  }

  /** `cmd_play` */
  function CmdPlay(m: Json, base: Json): (r: Result<string>)
    ensures OwnAction(m, "play").Ok? && Truthy(OwnAction(m, "play").value) ==>
              r == CommandString(ActionCommand(OwnAction(m, "play").value, m))
    ensures OwnAction(m, "play").Err? ==> r == Err(OwnAction(m, "play").error)
    ensures OwnAction(m, "play").Ok? && !Truthy(OwnAction(m, "play").value) && OwnAction(base, "play").Err? ==>
              r == Err(OwnAction(base, "play").error)
    ensures OwnAction(m, "play").Ok? && !Truthy(OwnAction(m, "play").value) && OwnAction(base, "play").Ok? ==>
              r == (if Truthy(OwnAction(base, "play").value) then CommandString(ActionCommand(OwnAction(base, "play").value, m)) else Ok(""))
  {
    CommandString(CmdFromAction(m, base, "play"))
  }

  /** `cmd_play_next`: the "add-hold" action. */
  function CmdPlayNext(m: Json, base: Json): (r: Result<string>)
    ensures OwnAction(m, "add-hold").Ok? && Truthy(OwnAction(m, "add-hold").value) ==>
              r == CommandString(ActionCommand(OwnAction(m, "add-hold").value, m))
    ensures OwnAction(m, "add-hold").Err? ==> r == Err(OwnAction(m, "add-hold").error)
    ensures OwnAction(m, "add-hold").Ok? && !Truthy(OwnAction(m, "add-hold").value) && OwnAction(base, "add-hold").Err? ==>
              r == Err(OwnAction(base, "add-hold").error)
    ensures OwnAction(m, "add-hold").Ok? && !Truthy(OwnAction(m, "add-hold").value) && OwnAction(base, "add-hold").Ok? ==>
              r == (if Truthy(OwnAction(base, "add-hold").value) then CommandString(ActionCommand(OwnAction(base, "add-hold").value, m)) else Ok(""))
  {
    CommandString(CmdFromAction(m, base, "add-hold"))
  }

  /** `cmd_add` */
  function CmdAdd(m: Json, base: Json): (r: Result<string>)
    ensures OwnAction(m, "add").Ok? && Truthy(OwnAction(m, "add").value) ==>
              r == CommandString(ActionCommand(OwnAction(m, "add").value, m))
    ensures OwnAction(m, "add").Err? ==> r == Err(OwnAction(m, "add").error)
    ensures OwnAction(m, "add").Ok? && !Truthy(OwnAction(m, "add").value) && OwnAction(base, "add").Err? ==>
              r == Err(OwnAction(base, "add").error)
    ensures OwnAction(m, "add").Ok? && !Truthy(OwnAction(m, "add").value) && OwnAction(base, "add").Ok? ==>
              r == (if Truthy(OwnAction(base, "add").value) then CommandString(ActionCommand(OwnAction(base, "add").value, m)) else Ok(""))
  {
    CommandString(CmdFromAction(m, base, "add"))
  }

  /** `show_items_cmd`: the string of `go()`. */
  function ShowItemsCmd(m: Json, base: Json): (r: Result<string>)
    ensures OwnAction(m, "go").Ok? && Truthy(OwnAction(m, "go").value) ==>
              r == CommandString(ActionCommand(OwnAction(m, "go").value, m))
    ensures OwnAction(m, "go").Err? ==> r == Err(OwnAction(m, "go").error)
    ensures OwnAction(m, "go").Ok? && !Truthy(OwnAction(m, "go").value) && OwnAction(base, "go").Err? ==>
              r == Err(OwnAction(base, "go").error)
    ensures OwnAction(m, "go").Ok? && !Truthy(OwnAction(m, "go").value) && OwnAction(base, "go").Ok? ==>
              r == (if Truthy(OwnAction(base, "go").value) then CommandString(ActionCommand(OwnAction(base, "go").value, m)) else Ok(""))
  {
    CommandString(Go(m, base))
  }

  /**
   * The string commands name their action and, when every token prints as
   * one word, `_request` splits them back into exactly those tokens' texts.
   */
  lemma CommandStringsTokenize(m: Json, base: Json)
    ensures CmdPlay(m, base) == CommandString(CmdFromAction(m, base, "play"))
    ensures CmdPlayNext(m, base) == CommandString(CmdFromAction(m, base, "add-hold"))
    ensures CmdAdd(m, base) == CommandString(CmdFromAction(m, base, "add"))
    ensures ShowItemsCmd(m, base) == CommandString(CmdFromAction(m, base, "go"))
    ensures forall mode: string ::
              var cmd := CmdFromAction(m, base, mode);
              cmd.Ok? && (forall i :: 0 <= i < |cmd.value| ==> IsWord(Str(cmd.value[i]))) ==>
              Server.Tokenize(Server.Words(CommandString(cmd).value)) == Strings(StrAll(cmd.value))
  {
    forall mode: string | var cmd := CmdFromAction(m, base, mode);
                          cmd.Ok? && (forall i :: 0 <= i < |cmd.value| ==> IsWord(Str(cmd.value[i])))
      ensures var cmd := CmdFromAction(m, base, mode);
              Server.Tokenize(Server.Words(CommandString(cmd).value)) == Strings(StrAll(cmd.value))
    {
      ListToStrSplits(CmdFromAction(m, base, mode).value);
    }
  }

  // ---------------------------------------------------------------------
  // The item objects

  /** The fields a menu item has once constructed; none changes afterwards. */
  datatype MenuItem = MenuItem(
    kind: Kind,
    text: Json,
    icon: Json,
    cmd: Option<seq<Json>>,   // `_cmd`: set by NextMenuItem only
    menuitem: Json,
    base: Json)

  /**
   * The constructors: `text` defaults to "", `icon` from `_get_icon`, and a
   * next-menu item builds its command at once.
   */
  function NewMenuItem(kind: Kind, web: string, menuitem: Json, base: Json): (r: Result<MenuItem>)
    ensures menuitem.JObj? && "text" !in Keys(menuitem.fields) && r.Ok? ==> r.value.text == JStr("")
    ensures menuitem.JObj? && "text" in Keys(menuitem.fields) && r.Ok? ==> r.value.text == Get(menuitem.fields, "text").value
    ensures menuitem.JObj? ==> (r.Ok? <==> GetIcon(menuitem, web).Ok? && (kind == Next ==> BuildCmd(menuitem).Ok?))
    ensures r.Ok? ==> r.value.kind == kind && r.value.menuitem == menuitem && r.value.base == base
    ensures r.Ok? ==> Ok(r.value.icon) == GetIcon(menuitem, web)
    ensures r.Ok? ==> (r.value.cmd.Some? <==> kind == Next)
    ensures r.Ok? && kind == Next ==> Ok(r.value.cmd.value) == BuildCmd(menuitem)
    ensures !menuitem.JObj? ==> r == Err(AttributeError)
  {
    match GetOr(menuitem, "text", JStr(""))
    case Err(e) => Err(e)
    case Ok(text) =>
      match GetIcon(menuitem, web)
      case Err(e) => Err(e)
      case Ok(icon) =>
        if kind == Next then
          match BuildCmd(menuitem)
          case Err(e) => Err(e)
          case Ok(c) => Ok(MenuItem(kind, text, icon, Some(c), menuitem, base))
        else Ok(MenuItem(kind, text, icon, None, menuitem, base))
  }

  /** `cmdstring`: the joined `_cmd` when it is a list, else None. */
  function CmdString(item: MenuItem): (r: Option<string>)
    ensures r.Some? <==> item.cmd.Some?
    ensures r.Some? ==> r.value == ListToStr(item.cmd.value)
  {
    match item.cmd
    case Some(c) => Some(ListToStr(c))
    case None => None
  }

  /** Only a next-menu item has a command string; the others' `cmdstring` is None. */
  lemma CmdStringOnlyForNext(kind: Kind, web: string, menuitem: Json, base: Json)
    requires NewMenuItem(kind, web, menuitem, base).Ok?
    ensures CmdString(NewMenuItem(kind, web, menuitem, base).value).Some? <==> kind == Next
    ensures kind == Next ==>
              Ok(CmdString(NewMenuItem(kind, web, menuitem, base).value).value) == CommandString(BuildCmd(menuitem))
  {
  }

  /** The player a playlist item sends its commands to; only what it was asked is kept. */
  class PlayerRequests {
    var sent: seq<string>

    constructor ()
      ensures sent == []
    {
      sent := [];
    }

    /** `play()`, `play_next()` and `add()`: send the mode's command string; an error sends nothing. */
    method Send(command: Result<string>) returns (r: Result<()>)
      modifies this
      ensures command.Ok? ==> sent == old(sent) + [command.value] && r == Ok(())
      ensures command.Err? ==> sent == old(sent) && r == Err(command.error)
    {
      if command.Err? {
        return Err(command.error);
      }
      sent := sent + [command.value];
      r := Ok(());
    }

    method Play(item: MenuItem) returns (r: Result<()>)
      requires IsPlaylistItem(item.kind)
      modifies this
      ensures CmdPlay(item.menuitem, item.base).Ok? ==> sent == old(sent) + [CmdPlay(item.menuitem, item.base).value] && r == Ok(())
      ensures CmdPlay(item.menuitem, item.base).Err? ==> sent == old(sent) && r == Err(CmdPlay(item.menuitem, item.base).error)
    {
      r := Send(CmdPlay(item.menuitem, item.base));
    }

    method PlayNext(item: MenuItem) returns (r: Result<()>)
      requires IsPlaylistItem(item.kind)
      modifies this
      ensures CmdPlayNext(item.menuitem, item.base).Ok? ==> sent == old(sent) + [CmdPlayNext(item.menuitem, item.base).value] && r == Ok(())
      ensures CmdPlayNext(item.menuitem, item.base).Err? ==> sent == old(sent) && r == Err(CmdPlayNext(item.menuitem, item.base).error)
    {
      r := Send(CmdPlayNext(item.menuitem, item.base));
    }

    method Add(item: MenuItem) returns (r: Result<()>)
      requires IsPlaylistItem(item.kind)
      modifies this
      ensures CmdAdd(item.menuitem, item.base).Ok? ==> sent == old(sent) + [CmdAdd(item.menuitem, item.base).value] && r == Ok(())
      ensures CmdAdd(item.menuitem, item.base).Err? ==> sent == old(sent) && r == Err(CmdAdd(item.menuitem, item.base).error)
    {
      r := Send(CmdAdd(item.menuitem, item.base));
    }
  }
}
