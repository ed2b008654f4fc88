/**
 * `LMSArtworkResolver` (LMSTools/artworkresolver.py): the URL of a track's
 * cover art, either the remote `artwork_url` or the server's own
 * `/music/{coverid}/cover_{h}x{w}_p.png`. `getURL` first rewrites
 * `track["coverart"]` in the caller's dict to its integer value.
 *
 * The URL template is built with `str.format` and later filled in with
 * `str.format` again, so the host is part of a template: `Format` models
 * `str.format` for templates whose fields are plain names.
 */
module Artwork {
  import opened Text
  import opened Dicts
  import opened Values

  const DefaultHost := "localhost"
  const DefaultPort := 9000
  /** The default `size` of `getURL`, as (h, w). */
  const DefaultSize := (500, 500)

  /** The message of the KeyError raised when the required keys are missing. */
  const RequiredKeysMessage := "track should have 'remote' and 'coverart' keys"

  // ---------------------------------------------------------------------
  // str.format

  function Prepend(s: string, r: Result<string>): (r': Result<string>)
    ensures r'.Ok? <==> r.Ok?
    ensures r.Err? ==> r' == r
  {
    match r
    case Ok(v) => Ok(s + v)
    case Err(e) => Err(e)
  }

  /**
   * `t.format(**env)`: `{{` and `}}` stand for braces, `{name}` for the value
   * of `name` (KeyError when there is none, IndexError for the positional
   * `{}`), and a lone brace is a ValueError.
   */
  function Format(t: string, env: seq<(string, string)>): (r: Result<string>)
    ensures r.Err? ==> r.error.KeyError? || r.error == ValueError || r.error == IndexError
    decreases |t|
  {
    if t == [] then Ok("")
    else if t[0] == '{' then
      if |t| > 1 && t[1] == '{' then Prepend("{", Format(t[2..], env))
      else
        var k := Find(t[1..], '}');
        if k < 0 then Err(ValueError)
        else
          var name := t[1..1 + k];
          if name == "" then Err(IndexError)
          else
            match Get(env, name)
            case None => Err(KeyError(name))
            case Some(v) => Prepend(v, Format(t[k + 2..], env))
    else if t[0] == '}' then
      if |t| > 1 && t[1] == '}' then Prepend("}", Format(t[2..], env))
      else Err(ValueError)
    else Prepend([t[0]], Format(t[1..], env))
  }

  predicate NoBraces(s: string) {
    '{' !in s && '}' !in s
  }

  /** `"{" + name + "}"` */
  function Field(name: string): string {
    "{" + name + "}"
  }

  /** Text without braces is copied unchanged. */
  lemma {:induction false} FormatPlain(a: string, b: string, env: seq<(string, string)>)
    requires NoBraces(a)
    ensures Format(a + b, env) == Prepend(a, Format(b, env))
    decreases |a|
  {
    if a == [] {
      assert a + b == b;
      match Format(b, env)
      case Ok(v) => assert a + v == v;
      case Err(_) =>
    } else {
      assert (a + b)[0] == a[0];
      assert (a + b)[1..] == a[1..] + b;
      FormatPlain(a[1..], b, env);
      match Format(b, env)
      case Ok(v) => assert [a[0]] + (a[1..] + v) == a + v;
      case Err(_) =>
    }
  }

  /** A field is replaced by its value. */
  lemma FormatField(name: string, b: string, env: seq<(string, string)>, v: string)
    requires name != "" && NoBraces(name)
    requires Get(env, name) == Some(v)
    ensures Format(Field(name) + b, env) == Prepend(v, Format(b, env))
  {
    var t := Field(name) + b;
    assert t[0] == '{' && t[1] == name[0];
    assert t[1..] == name + "}" + b;
    assert (name + "}" + b)[..|name|] == name;
    FindIs(t[1..], '}', |name|);
    assert t[1..1 + |name|] == name;
    assert t[|name| + 2..] == b;
  }

  /** Plain text followed by a field. */
  lemma PlainField(a: string, name: string, b: string, env: seq<(string, string)>, v: string)
    requires NoBraces(a) && name != "" && NoBraces(name)
    requires Get(env, name) == Some(v)
    ensures Format(a + (Field(name) + b), env) == Prepend(a + v, Format(b, env))
  {
    FormatPlain(a, Field(name) + b, env);
    FormatField(name, b, env, v);
    match Format(b, env)
    case Ok(x) => assert a + (v + x) == a + v + x;
    case Err(_) =>
  }

  /** Plain text is its own expansion. */
  lemma PlainOnly(a: string, env: seq<(string, string)>)
    requires NoBraces(a)
    ensures Format(a, env) == Ok(a)
  {
    FormatPlain(a, "", env);
    assert a + "" == a;
    FormatEmpty(env);
  }

  lemma NoBracesConcat(a: string, b: string)
    requires NoBraces(a) && NoBraces(b)
    ensures NoBraces(a + b)
  {
    forall k | 0 <= k < |a + b| ensures (a + b)[k] != '{' && (a + b)[k] != '}' {
      if k < |a| { assert (a + b)[k] == a[k]; } else { assert (a + b)[k] == b[k - |a|]; }
    }
  }

  lemma FormatEmpty(env: seq<(string, string)>)
    ensures Format("", env) == Ok("")
  {
  }

  // ---------------------------------------------------------------------
  // The templates

  /** `"http://{host}:{port}".format(host=host, port=port)` */
  function BaseEnv(host: string, port: int): seq<(string, string)> {
    [("host", host), ("port", IntToString(port))]
  }

  /** `http://{host}:{port}` */
  function BaseUrl(host: string, port: int): string {
    "http://" + host + ":" + IntToString(port)
  }

  const CoverTemplate := "/music/{coverid}/cover_{h}x{w}_p.png"

  /** The template the constructor stores as `localart` (and `default`). */
  function LocalTemplate(host: string, port: int): string {
    BaseUrl(host, port) + CoverTemplate
  }

  /** `/music/{coverid}/cover_{h}x{w}_p.png`, filled in. */
  function CoverPath(coverid: string, size: (int, int)): string {
    "/music/" + coverid + "/cover_" + IntToString(size.0) + "x" + IntToString(size.1) + "_p.png"
  }

  /** The constructor's first `format` puts host and port into the template verbatim. */
  lemma BaseFormat(host: string, port: int)
    ensures Format("http://{host}:{port}", BaseEnv(host, port)) == Ok(BaseUrl(host, port))
  {
    var env := BaseEnv(host, port);
    var p := IntToString(port);
    assert "http://{host}:{port}" == "http://" + (Field("host") + (":" + (Field("port") + "")));
    assert NoBraces("http://") && NoBraces(":") && NoBraces("host") && NoBraces("port");
    BaseEnvLookups(host, port);
    FormatEmpty(env);
    PlainField(":", "port", "", env, p);
    PlainField("http://", "host", ":" + (Field("port") + ""), env, host);
    assert "http://" + host + (":" + p + "") == "http://" + host + ":" + p;
  }

  lemma BaseEnvLookups(host: string, port: int)
    ensures Get(BaseEnv(host, port), "host") == Some(host)
    ensures Get(BaseEnv(host, port), "port") == Some(IntToString(port))
  {
    var env := BaseEnv(host, port);
    assert IndexOf(env, "host") == 0;
    assert IndexOf(env[1..], "port") == 0;
    assert IndexOf(env, "port") == 1;
  }

  /** The keyword arguments of the second `format`. */
  function CoverEnv(coverid: string, size: (int, int)): seq<(string, string)> {
    [("coverid", coverid), ("h", IntToString(size.0)), ("w", IntToString(size.1))]
  }

  lemma CoverEnvLookups(c: string, size: (int, int))
    ensures Get(CoverEnv(c, size), "coverid") == Some(c)
    ensures Get(CoverEnv(c, size), "h") == Some(IntToString(size.0))
    ensures Get(CoverEnv(c, size), "w") == Some(IntToString(size.1))
  {
    var env := CoverEnv(c, size);
    assert IndexOf(env[2..], "w") == 0;
    assert IndexOf(env[1..], "w") == 1;
    assert IndexOf(env[1..], "h") == 0;
  }

  /** The part of the template after the base. */
  lemma CoverPathFormat(c: string, size: (int, int))
    ensures Format(CoverTemplate, CoverEnv(c, size)) == Ok(CoverPath(c, size))
  {
    var env := CoverEnv(c, size);
    var h, w := IntToString(size.0), IntToString(size.1);
    CoverEnvLookups(c, size);
    CoverTail(env, h, w);
    CoverTemplateShape();
    assert NoBraces("/music/") && NoBraces("coverid");
    PlainField("/music/", "coverid", CoverTailTemplate(), env, c);
    TailAssoc(c, h, w);
  }

  function CoverTailTemplate(): string {
    "/cover_" + (Field("h") + ("x" + (Field("w") + "_p.png")))
  }

  lemma CoverTemplateShape()
    ensures CoverTemplate == "/music/" + (Field("coverid") + CoverTailTemplate())
  {
  }

  lemma TailAssoc(c: string, h: string, w: string)
    ensures "/music/" + c + ("/cover_" + h + "x" + w + "_p.png") == "/music/" + c + "/cover_" + h + "x" + w + "_p.png"
  {
  }

  lemma CoverTail(env: seq<(string, string)>, h: string, w: string)
    requires Get(env, "h") == Some(h) && Get(env, "w") == Some(w)
    ensures Format(CoverTailTemplate(), env)
            == Ok("/cover_" + h + "x" + w + "_p.png")
  {
    assert NoBraces("/cover_") && NoBraces("x") && NoBraces("_p.png") && NoBraces("h") && NoBraces("w");
    PlainOnly("_p.png", env);
    PlainField("x", "w", "_p.png", env, w);
    PlainField("/cover_", "h", "x" + (Field("w") + "_p.png"), env, h);
    assert "/cover_" + h + ("x" + w + "_p.png") == "/cover_" + h + "x" + w + "_p.png";
  }

  lemma DigitsHaveNoBraces(i: int)
    ensures NoBraces(IntToString(i))
  {
    var s := IntToString(i);
    if i < 0 {
      var n := NatToString(-i);
      assert s == "-" + n;
      forall k | 0 <= k < |s| ensures s[k] != '{' && s[k] != '}' {
        if k > 0 { assert s[k] == n[k - 1]; }
      }
    }
  }

  /**
   * For a host without braces the local template yields
   * `http://{host}:{port}/music/{coverid}/cover_{h}x{w}_p.png`, filled in.
   */
  lemma LocalTemplateUrl(host: string, port: int, c: string, size: (int, int))
    requires NoBraces(host)
    ensures Format(LocalTemplate(host, port), CoverEnv(c, size)) == Ok(BaseUrl(host, port) + CoverPath(c, size))
  {
    DigitsHaveNoBraces(port);
    assert NoBraces("http://") && NoBraces(":");
    NoBracesConcat("http://", host);
    NoBracesConcat("http://" + host, ":");
    NoBracesConcat("http://" + host + ":", IntToString(port));
    FormatPlain(BaseUrl(host, port), CoverTemplate, CoverEnv(c, size));
    CoverPathFormat(c, size);
  }

  // ---------------------------------------------------------------------
  // getURL

  /** `set(["remote", "coverart"]) < set(track.keys())`: both present and some other key too. */
  predicate HasRequiredKeys(f: seq<(string, Json)>) {
    "remote" in Keys(f) && "coverart" in Keys(f)
    && exists i :: 0 <= i < |f| && f[i].0 != "remote" && f[i].0 != "coverart"
  }

  /** For a dict (distinct keys) the strict-subset test asks for both keys and at least one more. */
  lemma RequiredKeysStrictSubset(f: seq<(string, Json)>)
    requires UniqueKeys(f)
    ensures HasRequiredKeys(f) <==> "remote" in Keys(f) && "coverart" in Keys(f) && |f| >= 3
  {
    if "remote" in Keys(f) && "coverart" in Keys(f) {
      var a, b := IndexOf(f, "remote"), IndexOf(f, "coverart");
      if HasRequiredKeys(f) {
        var i :| 0 <= i < |f| && f[i].0 != "remote" && f[i].0 != "coverart";
        assert a != b && a != i && b != i;
      }
      if |f| >= 3 {
        var i := if a != 0 && b != 0 then 0 else if a != 1 && b != 1 then 1 else 2;
        assert f[i].0 != f[a].0 && f[i].0 != f[b].0;
      }
    }
  }

  /** `track.get(key, False)` */
  function GetOrFalse(f: seq<(string, Json)>, key: string): Json {
    match Get(f, key) case Some(v) => v case None => JBool(false)
  }

  function FormatUrl(template: string, coverid: string, size: (int, int)): Result<Json> {
    match Format(template, CoverEnv(coverid, size))
    case Ok(s) => Ok(JStr(s))
    case Err(e) => Err(e)
  }

  /** `__getRemoteURL`: a truthy `artwork_url` verbatim, else the fallback image. */
  function RemoteUrl(default: string, f: seq<(string, Json)>, size: (int, int)): (r: Result<Json>)
    ensures "artwork_url" in Keys(f) && Truthy(Get(f, "artwork_url").value) ==> r == Ok(Get(f, "artwork_url").value)
    ensures "artwork_url" !in Keys(f) || !Truthy(Get(f, "artwork_url").value) ==> r == FormatUrl(default, "0", size)
  {
    var art := GetOrFalse(f, "artwork_url");
    if Truthy(art) then Ok(art)
    else FormatUrl(default, "0", size)
  }

  /** `__getLocalURL`: the track's own cover when `coverart` is set, else the fallback image. */
  function LocalUrl(localart: string, default: string, f: seq<(string, Json)>, size: (int, int)): (r: Result<Json>)
    ensures "coverart" !in Keys(f) || !Truthy(Get(f, "coverart").value) ==> r == FormatUrl(default, "0", size)
    ensures "coverart" in Keys(f) && Truthy(Get(f, "coverart").value) ==>
              r == if "coverid" in Keys(f) then FormatUrl(localart, Str(Get(f, "coverid").value), size)
                   else Err(KeyError("coverid"))
  {
    if Truthy(GetOrFalse(f, "coverart")) then
      match Get(f, "coverid")
      case None => Err(KeyError("coverid"))
      case Some(c) => FormatUrl(localart, Str(c), size)
    else FormatUrl(default, "0", size)
  }

  /** The dict after `getURL`: `coverart` holds its integer value once the checks have passed. */
  function TrackAfter(f: seq<(string, Json)>): (g: seq<(string, Json)>)
    ensures Keys(g) == Keys(f)
    ensures forall i :: 0 <= i < |f| && f[i].0 != "coverart" ==> g[i] == f[i]
  {
    if !HasRequiredKeys(f) then f
    else
      match PyInt(Get(f, "coverart").value)
      case Err(_) => f
      case Ok(c) => Put(f, "coverart", JInt(c))
  }

  /** What `getURL` returns or raises for a dict `f`. */
  function UrlFor(localart: string, default: string, f: seq<(string, Json)>, size: (int, int)): (r: Result<Json>)
    ensures !HasRequiredKeys(f) ==> r == Err(KeyError(RequiredKeysMessage))
    ensures r.Ok? ==> HasRequiredKeys(f) && PyInt(Get(f, "coverart").value).Ok?
    ensures HasRequiredKeys(f) && PyInt(Get(f, "coverart").value).Err? ==> r == Err(PyInt(Get(f, "coverart").value).error)
  {
    if !HasRequiredKeys(f) then Err(KeyError(RequiredKeysMessage))
    else
      match PyInt(Get(f, "coverart").value)
      case Err(e) => Err(e)
      case Ok(c) =>
        var t := Put(f, "coverart", JInt(c));
        match Get(t, "remote")
        case None => Err(KeyError("remote"))
        case Some(rv) =>
          match PyInt(rv)
          case Err(e) => Err(e)
          case Ok(remote) =>
            if remote != 0 then RemoteUrl(default, t, size) else LocalUrl(localart, default, t, size)
  }

  /** A track whose keys are exactly "remote" and "coverart" is rejected: the subset test is strict. */
  lemma ExactKeysRejected(remote: Json, coverart: Json, t: string, d: string, size: (int, int))
    ensures UrlFor(t, d, [("remote", remote), ("coverart", coverart)], size) == Err(KeyError(RequiredKeysMessage))
    ensures UrlFor(t, d, [("coverart", coverart), ("remote", remote)], size) == Err(KeyError(RequiredKeysMessage))
  {
    var f := [("remote", remote), ("coverart", coverart)];
    var f' := [("coverart", coverart), ("remote", remote)];
    assert !HasRequiredKeys(f) by {
      forall i | 0 <= i < |f| ensures f[i].0 == "remote" || f[i].0 == "coverart" {
      }
    }
    assert !HasRequiredKeys(f') by {
      forall i | 0 <= i < |f'| ensures f'[i].0 == "remote" || f'[i].0 == "coverart" {
      }
    }
  }

  /** `getURL` changes `coverart` into its integer value and no other key. */
  lemma TrackAfterOnlyCoverart(f: seq<(string, Json)>, k: string)
    requires UniqueKeys(f)
    ensures UniqueKeys(TrackAfter(f)) && Keys(TrackAfter(f)) == Keys(f)
    ensures k != "coverart" ==> Get(TrackAfter(f), k) == Get(f, k)
    ensures HasRequiredKeys(f) && PyInt(Get(f, "coverart").value).Ok? ==>
              Get(TrackAfter(f), "coverart") == Some(JInt(PyInt(Get(f, "coverart").value).value))
  {
    if HasRequiredKeys(f) && PyInt(Get(f, "coverart").value).Ok? {
      var c := PyInt(Get(f, "coverart").value).value;
      PutKeys(f, "coverart", JInt(c));
      PutGetSame(f, "coverart", JInt(c));
      if k != "coverart" {
        PutGetOther(f, "coverart", JInt(c), k);
      }
    }
  }

  /** The remote branch reads `remote` after the write, which did not touch it. */
  lemma RemoteReadAfterWrite(f: seq<(string, Json)>, c: int)
    requires UniqueKeys(f) && "remote" in Keys(f)
    ensures Get(Put(f, "coverart", JInt(c)), "remote") == Get(f, "remote")
    ensures Get(f, "remote").Some?
  {
    PutGetOther(f, "coverart", JInt(c), "remote");
  }

  /** A remote track with a truthy `artwork_url` gets that URL whatever the size. */
  lemma RemoteArtworkVerbatim(t: string, d: string, f: seq<(string, Json)>, size: (int, int), size': (int, int))
    requires UniqueKeys(f) && HasRequiredKeys(f)
    requires PyInt(Get(f, "coverart").value).Ok?
    requires PyInt(Get(f, "remote").value).Ok? && PyInt(Get(f, "remote").value).value != 0
    requires Truthy(GetOrFalse(f, "artwork_url"))
    ensures UrlFor(t, d, f, size) == Ok(GetOrFalse(f, "artwork_url")) == UrlFor(t, d, f, size')
  {
    var c := PyInt(Get(f, "coverart").value).value;
    RemoteReadAfterWrite(f, c);
    PutGetOther(f, "coverart", JInt(c), "artwork_url");
  }

  /** A remote track without artwork gets the fallback image, cover id 0. */
  lemma RemoteFallback(t: string, d: string, f: seq<(string, Json)>, size: (int, int))
    requires UniqueKeys(f) && HasRequiredKeys(f)
    requires PyInt(Get(f, "coverart").value).Ok?
    requires PyInt(Get(f, "remote").value).Ok? && PyInt(Get(f, "remote").value).value != 0
    requires !Truthy(GetOrFalse(f, "artwork_url"))
    ensures UrlFor(t, d, f, size) == FormatUrl(d, "0", size)
  {
    var c := PyInt(Get(f, "coverart").value).value;
    RemoteReadAfterWrite(f, c);
    PutGetOther(f, "coverart", JInt(c), "artwork_url");
  }

  /** A local track with nonzero `coverart` gets its own cover; with zero, the fallback image. */
  lemma LocalCover(t: string, d: string, f: seq<(string, Json)>, size: (int, int))
    requires UniqueKeys(f) && HasRequiredKeys(f)
    requires PyInt(Get(f, "coverart").value).Ok?
    requires PyInt(Get(f, "remote").value) == Ok(0)
    ensures var c := PyInt(Get(f, "coverart").value).value;
            && (c != 0 && "coverid" in Keys(f) ==> UrlFor(t, d, f, size) == FormatUrl(t, Str(Get(f, "coverid").value), size))
            && (c != 0 && "coverid" !in Keys(f) ==> UrlFor(t, d, f, size) == Err(KeyError("coverid")))
            && (c == 0 ==> UrlFor(t, d, f, size) == FormatUrl(d, "0", size))
  {
    LocalDispatch(t, d, f, size);
    LocalUrlAfterPut(t, d, f, PyInt(Get(f, "coverart").value).value, size);
  }

  /** A local track goes to `__getLocalURL` with `coverart` already converted. */
  lemma LocalDispatch(t: string, d: string, f: seq<(string, Json)>, size: (int, int))
    requires UniqueKeys(f) && HasRequiredKeys(f)
    requires PyInt(Get(f, "coverart").value).Ok?
    requires PyInt(Get(f, "remote").value) == Ok(0)
    ensures UrlFor(t, d, f, size)
            == LocalUrl(t, d, Put(f, "coverart", JInt(PyInt(Get(f, "coverart").value).value)), size)
  {
    RemoteReadAfterWrite(f, PyInt(Get(f, "coverart").value).value);
  }

  /** `__getLocalURL` on the converted dict: the cover id when `coverart` is nonzero, else the fallback. */
  lemma LocalUrlAfterPut(t: string, d: string, f: seq<(string, Json)>, c: int, size: (int, int))
    requires UniqueKeys(f)
    ensures var g := Put(f, "coverart", JInt(c));
            && (c != 0 && "coverid" in Keys(f) ==> LocalUrl(t, d, g, size) == FormatUrl(t, Str(Get(f, "coverid").value), size))
            && (c != 0 && "coverid" !in Keys(f) ==> LocalUrl(t, d, g, size) == Err(KeyError("coverid")))
            && (c == 0 ==> LocalUrl(t, d, g, size) == FormatUrl(d, "0", size))
  {
    var g := Put(f, "coverart", JInt(c));
    PutGetSame(f, "coverart", JInt(c));
    PutGetOther(f, "coverart", JInt(c), "coverid");
    LocalUrlByKeys(t, d, g, c, size);
  }

  /** `__getLocalURL` decided by the two lookups it makes. */
  lemma LocalUrlByKeys(t: string, d: string, g: seq<(string, Json)>, c: int, size: (int, int))
    requires Get(g, "coverart") == Some(JInt(c))
    ensures c != 0 && Get(g, "coverid").Some? ==> LocalUrl(t, d, g, size) == FormatUrl(t, Str(Get(g, "coverid").value), size)
    ensures c != 0 && Get(g, "coverid").None? ==> LocalUrl(t, d, g, size) == Err(KeyError("coverid"))
    ensures c == 0 ==> LocalUrl(t, d, g, size) == FormatUrl(d, "0", size)
  {
  }

  /**
   * End to end: with the constructor's template, a local track with cover
   * art resolves to `http://{host}:{port}/music/{coverid}/cover_{h}x{w}_p.png`,
   * and one without to the same URL with cover id 0.
   */
  lemma LocalTrackUrl(host: string, port: int, f: seq<(string, Json)>, size: (int, int))
    requires NoBraces(host)
    requires UniqueKeys(f) && HasRequiredKeys(f)
    requires PyInt(Get(f, "coverart").value).Ok?
    requires PyInt(Get(f, "remote").value) == Ok(0)
    ensures var t := LocalTemplate(host, port);
            var c := PyInt(Get(f, "coverart").value).value;
            && (c != 0 && "coverid" in Keys(f) ==>
                  UrlFor(t, t, f, size) == Ok(JStr(BaseUrl(host, port) + CoverPath(Str(Get(f, "coverid").value), size))))
            && (c == 0 ==> UrlFor(t, t, f, size) == Ok(JStr(BaseUrl(host, port) + CoverPath("0", size))))
  {
    var t := LocalTemplate(host, port);
    LocalCover(t, t, f, size);
    if "coverid" in Keys(f) {
      LocalTemplateUrl(host, port, Str(Get(f, "coverid").value), size);
    }
    LocalTemplateUrl(host, port, "0", size);
  }

  /** A track dict, which `getURL` writes into. */
  class Track {
    var fields: seq<(string, Json)>

    constructor (fields: seq<(string, Json)>)
      requires UniqueKeys(fields)
      ensures this.fields == fields
    {
      this.fields := fields;
    }

    predicate Valid()
      reads this
    {
      UniqueKeys(fields)
    }
  }

  /** The `track` argument: a dict, or any other value. */
  datatype TrackArg = TrackDict(track: Track) | NotADict(value: Json)

  class LMSArtworkResolver {
    const host: string
    const port: int
    const localart: string
    const default: string

    constructor (host: string := DefaultHost, port: int := DefaultPort)
      ensures this.host == host && this.port == port
      ensures localart == LocalTemplate(host, port) && default == localart
    {
      this.host := host;
      this.port := port;
      BaseFormat(host, port);
      var base := Format("http://{host}:{port}", BaseEnv(host, port)).value;
      localart := base + CoverTemplate;
      default := base + CoverTemplate;
    }

    /**
     * `getURL(track, size)`: TypeError for a non-dict, KeyError unless the
     * required keys are a strict subset of the track's keys; then writes the
     * integer `coverart` back into the track and resolves the URL.
     */
    method GetURL(arg: TrackArg, size: (int, int)) returns (r: Result<Json>)
      requires arg.TrackDict? ==> arg.track.Valid()
      modifies if arg.TrackDict? then {arg.track} else {}
      ensures arg.NotADict? ==> r == Err(TypeError)
      ensures arg.TrackDict? ==>
                && r == UrlFor(localart, default, old(arg.track.fields), size)
                && arg.track.fields == TrackAfter(old(arg.track.fields))
                && arg.track.Valid()
    {
      if arg.NotADict? {
        return Err(TypeError);
      }
      var track := arg.track;
      if !HasRequiredKeys(track.fields) {
        return Err(KeyError(RequiredKeysMessage));
      }
      var coverart := PyInt(Get(track.fields, "coverart").value);
      if coverart.Err? {
        return Err(coverart.error);
      }
      PutKeys(track.fields, "coverart", JInt(coverart.value));
      track.fields := Put(track.fields, "coverart", JInt(coverart.value));
      var rv := Get(track.fields, "remote");
      if rv.None? {
        return Err(KeyError("remote"));
      }
      var remote := PyInt(rv.value);
      if remote.Err? {
        return Err(remote.error);
      }
      if remote.value != 0 {
        r := RemoteUrl(default, track.fields, size);
      } else {
        r := LocalUrl(localart, default, track.fields, size);
      }
    }

    /** `getURL(track)`: the size defaults to (500, 500). */
    method GetURLDefault(arg: TrackArg) returns (r: Result<Json>)
      requires arg.TrackDict? ==> arg.track.Valid()
      modifies if arg.TrackDict? then {arg.track} else {}
      ensures arg.NotADict? ==> r == Err(TypeError)
      ensures arg.TrackDict? ==>
                && r == UrlFor(localart, default, old(arg.track.fields), (500, 500))
                && arg.track.fields == TrackAfter(old(arg.track.fields))
                && arg.track.Valid()
    {
      r := GetURL(arg, DefaultSize);
    }
  }
}
