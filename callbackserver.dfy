/**
 * `LMSCallbackServer` (LMSTools/callbackserver.py): a registry of callbacks
 * keyed by event prefix, the list of notification types to subscribe to,
 * the dispatch of one received event to the first matching callback, the
 * trimming of the telnet echo from a response, and the guards of
 * `set_server` and `__connect`.
 *
 * The telnet session, the thread and the callbacks themselves are outside
 * the model: a callback is an opaque handle, and each call of one is
 * recorded in the field `invoked`.
 */
module CallbackServer {
  import opened Text
  import opened Dicts
  import opened Values

  // The event constants of the class that the model refers to.
  const PlaylistAll := "playlist"
  const PlaylistLoadTracks := "playlist loadtracks"
  const PlaylistAddTracks := "playlist addtracks"
  const PlaylistLoaded := "playlist load_done"
  const PlaylistRemove := "playlist delete"
  const PlaylistClear := "playlist clear"
  const PlaylistChanged := [PlaylistLoadTracks, PlaylistLoaded, PlaylistAddTracks, PlaylistRemove, PlaylistClear]

  const DefaultPort := 9090

  /** A registered callback function, as an opaque handle. */
  datatype Callback = Callback(id: nat)

  /** One call of a callback and the arguments it was given. */
  datatype Invocation = Invocation(callback: Callback, args: seq<Json>)

  /** The `event` argument of `add_callback` / `remove_callback`: one event or a list. */
  datatype EventArg = Single(event: string) | EventList(events: seq<string>)

  // ---------------------------------------------------------------------
  // The registry, as functions of its contents

  predicate NoDuplicates(xs: seq<string>) {
    forall i, j :: 0 <= i < j < |xs| ==> xs[i] != xs[j]
  }

  /** Every element of `xs` occurs in `ks`. */
  predicate AllIn(xs: seq<string>, ks: seq<string>) {
    forall i :: 0 <= i < |xs| ==> xs[i] in ks
  }

  /** `if n not in ns: ns.append(n)` */
  function AddNote(ns: seq<string>, n: string): (r: seq<string>)
    ensures n in r
    ensures NoDuplicates(ns) ==> NoDuplicates(r)
    ensures forall x :: x in r <==> x in ns || x == n
    ensures |ns| <= |r| && r[..|ns|] == ns
  {
    if n in ns then ns else ns + [n]
  }

  /** The registry after registering `callback` for each event in turn. */
  function PutAll(d: seq<(string, Callback)>, events: seq<string>, callback: Callback): (r: seq<(string, Callback)>)
    ensures forall k :: k in Keys(r) <==> k in Keys(d) || k in events
  {
    if events == [] then d
    else
      assert events == events[..|events| - 1] + [events[|events| - 1]];
      Put(PutAll(d, events[..|events| - 1], callback), events[|events| - 1], callback)
  }

  /** The notifications after registering each event in turn. */
  function NoteAll(ns: seq<string>, events: seq<string>): (r: seq<string>)
    ensures |ns| <= |r| && r[..|ns|] == ns
    ensures NoDuplicates(ns) ==> NoDuplicates(r)
    ensures forall x :: x in r <==> x in ns || x in FirstWords(events)
  {
    if events == [] then ns
    else
      var prev := NoteAll(ns, events[..|events| - 1]);
      var r := AddNote(prev, FirstWord(events[|events| - 1]));
      assert r[..|ns|] == r[..|prev|][..|ns|];
      r
  }

  lemma PutAllStep(d: seq<(string, Callback)>, es: seq<string>, i: nat, callback: Callback)
    requires i < |es|
    ensures PutAll(d, es[..i + 1], callback) == Put(PutAll(d, es[..i], callback), es[i], callback)
  {
    assert es[..i + 1][..i] == es[..i];
  }

  lemma NoteAllStep(ns: seq<string>, es: seq<string>, i: nat)
    requires i < |es|
    ensures NoteAll(ns, es[..i + 1]) == AddNote(NoteAll(ns, es[..i]), FirstWord(es[i]))
  {
    assert es[..i + 1][..i] == es[..i];
  }

  /** Registering a list keeps the keys distinct. */
  lemma {:induction false} PutAllUnique(d: seq<(string, Callback)>, events: seq<string>, callback: Callback)
    requires UniqueKeys(d)
    ensures UniqueKeys(PutAll(d, events, callback))
    decreases |events|
  {
    if events != [] {
      var init := events[..|events| - 1];
      PutAllUnique(d, init, callback);
      PutKeys(PutAll(d, init, callback), events[|events| - 1], callback);
    }
  }

  /** Registering a list maps every listed event to the callback. */
  lemma {:induction false} PutAllListed(d: seq<(string, Callback)>, events: seq<string>, callback: Callback, k: string)
    requires UniqueKeys(d)
    requires k in events
    ensures Get(PutAll(d, events, callback), k) == Some(callback)
    decreases |events|
  {
    var init, last := events[..|events| - 1], events[|events| - 1];
    var prev := PutAll(d, init, callback);
    PutAllUnique(d, init, callback);
    if k == last {
      PutGetSame(prev, last, callback);
    } else {
      assert events == init + [last];
      PutAllListed(d, init, callback, k);
      PutGetOther(prev, last, callback, k);
    }
  }

  /** Registering a list leaves the events not in it alone. */
  lemma {:induction false} PutAllUnlisted(d: seq<(string, Callback)>, events: seq<string>, callback: Callback, k: string)
    requires UniqueKeys(d)
    requires k !in events
    ensures Get(PutAll(d, events, callback), k) == Get(d, k)
    decreases |events|
  {
    if events != [] {
      var init, last := events[..|events| - 1], events[|events| - 1];
      PutAllUnique(d, init, callback);
      assert k !in init;
      PutAllUnlisted(d, init, callback, k);
      PutGetOther(PutAll(d, init, callback), last, callback, k);
    }
  }

  /** The first words of the events, in order. */
  function FirstWords(events: seq<string>): (ws: seq<string>)
    ensures |ws| == |events|
    ensures forall i :: 0 <= i < |events| ==> ws[i] == FirstWord(events[i])
  {
    if events == [] then [] else FirstWords(events[..|events| - 1]) + [FirstWord(events[|events| - 1])]
  }

  /** Events that all begin with the same word add one notification between them. */
  lemma {:induction false} NoteAllOneWord(events: seq<string>, w: string)
    requires forall i :: 0 <= i < |events| ==> FirstWord(events[i]) == w
    ensures NoteAll([], events) == if events == [] then [] else [w]
    decreases |events|
  {
    if events != [] {
      NoteAllOneWord(events[..|events| - 1], w);
    }
  }

  /** The first word of `a b` is `a`. */
  lemma FirstWordBeforeSpace(a: string, b: string)
    requires ' ' !in a
    ensures FirstWord(a + " " + b) == a
  {
    SplitAfterPiece(a, ' ', b);
  }

  /**
   * The five events of PLAYLIST_CHANGED all belong to the notification
   * "playlist", so registering them subscribes to that one notification.
   */
  lemma PlaylistChangedNotification()
    ensures forall i :: 0 <= i < |PlaylistChanged| ==> FirstWord(PlaylistChanged[i]) == PlaylistAll
    ensures NoteAll([], PlaylistChanged) == [PlaylistAll]
  {
    forall i | 0 <= i < |PlaylistChanged|
      ensures FirstWord(PlaylistChanged[i]) == PlaylistAll
    {
      PlaylistChangedWord(i);
    }
    NoteAllOneWord(PlaylistChanged, PlaylistAll);
  }

  lemma PlaylistChangedWord(i: nat)
    requires i < |PlaylistChanged|
    ensures FirstWord(PlaylistChanged[i]) == PlaylistAll
  {
    var tail := ["loadtracks", "load_done", "addtracks", "delete", "clear"][i];
    PlaylistEvent(PlaylistChanged[i], tail);
  }

  lemma PlaylistEvent(e: string, tail: string)
    requires e == PlaylistAll + " " + tail
    ensures FirstWord(e) == PlaylistAll
  {
    assert ' ' !in PlaylistAll;
    FirstWordBeforeSpace(PlaylistAll, tail);
  }

  /** How a sequence of deletions ended: the registry left, and the first event that was missing. */
  datatype Removal = Removal(remaining: seq<(string, Callback)>, missing: Option<string>)

  /** `for ev in events: del callbacks[ev]`, stopping at the first KeyError. */
  function RemoveAll(d: seq<(string, Callback)>, events: seq<string>): (r: Removal)
    ensures |r.remaining| <= |d|
    ensures r.missing.None? ==> |r.remaining| == |d| - |events|
    ensures r.missing.Some? ==> r.missing.value in events
  {
    if events == [] then Removal(d, None)
    else
      var prev := RemoveAll(d, events[..|events| - 1]);
      if prev.missing.Some? then prev
      else
        match Delete(prev.remaining, events[|events| - 1])
        case None => Removal(prev.remaining, Some(events[|events| - 1]))
        case Some(rest) => Removal(rest, None)
  }

  /** Deleting never adds an event and keeps the events distinct, however the loop ends. */
  lemma {:induction false} RemoveAllShrinks(d: seq<(string, Callback)>, events: seq<string>)
    requires UniqueKeys(d)
    ensures UniqueKeys(RemoveAll(d, events).remaining)
    ensures forall k :: k in Keys(RemoveAll(d, events).remaining) ==> k in Keys(d)
    decreases |events|
  {
    if events != [] {
      var init, last := events[..|events| - 1], events[|events| - 1];
      RemoveAllShrinks(d, init);
      var prev := RemoveAll(d, init).remaining;
      if RemoveAll(d, init).missing.None? && last in Keys(prev) {
        DeleteKeys(prev, last);
        forall k | k in Keys(Delete(prev, last).value) ensures k in Keys(d) {
          RemoveKeyIn(Keys(prev), last, k);
        }
      }
    }
  }

  /** After a complete removal, the events left are exactly the others. */
  lemma {:induction false} RemoveAllKeys(d: seq<(string, Callback)>, events: seq<string>, k: string)
    requires UniqueKeys(d)
    requires RemoveAll(d, events).missing.None?
    ensures k in Keys(RemoveAll(d, events).remaining) <==> k in Keys(d) && k !in events
    decreases |events|
  {
    if events != [] {
      var init, last := events[..|events| - 1], events[|events| - 1];
      var prev := RemoveAll(d, init).remaining;
      RemoveAllShrinks(d, init);
      RemoveAllKeys(d, init, k);
      DeleteKeys(prev, last);
      RemoveKeyIn(Keys(prev), last, k);
      SnocIn(events, k);
    }
  }

  /** Removing a list succeeds exactly when its events are registered and distinct. */
  lemma {:induction false} RemoveAllSucceeds(d: seq<(string, Callback)>, events: seq<string>)
    requires UniqueKeys(d)
    ensures RemoveAll(d, events).missing.None? <==>
              NoDuplicates(events) && AllIn(events, Keys(d))
    decreases |events|
  {
    if events != [] {
      var init, last := events[..|events| - 1], events[|events| - 1];
      RemoveAllSucceeds(d, init);
      NoDuplicatesSnoc(events);
      RegisteredSnoc(events, Keys(d));
      if RemoveAll(d, init).missing.None? {
        RemoveAllKeys(d, init, last);
      }
    }
  }

  lemma NoDuplicatesSnoc(xs: seq<string>)
    requires |xs| > 0
    ensures NoDuplicates(xs) <==> NoDuplicates(xs[..|xs| - 1]) && xs[|xs| - 1] !in xs[..|xs| - 1]
  {
    var init, last := xs[..|xs| - 1], xs[|xs| - 1];
    if NoDuplicates(xs) {
      forall i, j | 0 <= i < j < |init| ensures init[i] != init[j] {
        assert init[i] == xs[i] && init[j] == xs[j];
      }
      forall i | 0 <= i < |init| ensures init[i] != last {
        assert init[i] == xs[i];
      }
    }
    if NoDuplicates(init) && last !in init {
      forall i, j | 0 <= i < j < |xs| ensures xs[i] != xs[j] {
        assert xs[i] == init[i];
        if j < |init| {
          assert xs[j] == init[j];
        }
      }
    }
  }

  lemma RegisteredSnoc(xs: seq<string>, ks: seq<string>)
    requires |xs| > 0
    ensures AllIn(xs, ks) <==> AllIn(xs[..|xs| - 1], ks) && xs[|xs| - 1] in ks
  {
    var init := xs[..|xs| - 1];
    assert forall i :: 0 <= i < |init| ==> init[i] == xs[i];
  }
  /**
   * Removing a list succeeds exactly when its events are registered and
   * distinct; then precisely those events are gone.
   */
  lemma RemoveAllSpec(d: seq<(string, Callback)>, events: seq<string>)
    requires UniqueKeys(d)
    ensures UniqueKeys(RemoveAll(d, events).remaining)
    ensures RemoveAll(d, events).missing.None? <==>
              NoDuplicates(events) && AllIn(events, Keys(d))
    ensures RemoveAll(d, events).missing.None? ==>
              forall k :: k in Keys(RemoveAll(d, events).remaining) <==> k in Keys(d) && k !in events
    ensures forall k :: k !in events ==> Get(RemoveAll(d, events).remaining, k) == Get(d, k)
  {
    forall k | k !in events {
      RemoveAllGetOther(d, events, k);
    }
    RemoveAllShrinks(d, events);
    RemoveAllSucceeds(d, events);
    if RemoveAll(d, events).missing.None? {
      forall k ensures k in Keys(RemoveAll(d, events).remaining) <==> k in Keys(d) && k !in events {
        RemoveAllKeys(d, events, k);
      }
    }
  }

  /** Removal leaves the callback of every event it does not name unchanged, however the loop ends. */
  lemma {:induction false} RemoveAllGetOther(d: seq<(string, Callback)>, events: seq<string>, k: string)
    requires UniqueKeys(d)
    requires k !in events
    ensures Get(RemoveAll(d, events).remaining, k) == Get(d, k)
    decreases |events|
  {
    if events != [] {
      var init, last := events[..|events| - 1], events[|events| - 1];
      assert events == init + [last];
      RemoveAllGetOther(d, init, k);
      var prev := RemoveAll(d, init);
      if prev.missing.None? && last in Keys(prev.remaining) {
        RemoveAllShrinks(d, init);
        DeleteGetOther(prev.remaining, last, k);
      }
    }
  }

  /** The loop of `remove_callback`: deletes each event in order, stopping at the first missing one. */
  method RemoveEach(d: seq<(string, Callback)>, events: seq<string>) returns (rest: seq<(string, Callback)>, missing: Option<string>)
    ensures Removal(rest, missing) == RemoveAll(d, events)
  {
    rest, missing := d, None;
    var i := 0;
    while i < |events|
      invariant 0 <= i <= |events|
      invariant Removal(rest, None) == RemoveAll(d, events[..i])
    {
      assert events[..i + 1][..i] == events[..i];
      var next := Delete(rest, events[i]);
      if next.None? {
        missing := Some(events[i]);
        RemoveAllStops(d, events, i + 1);
        return;
      }
      rest := next.value;
      i := i + 1;
    }
    assert events[..|events|] == events;
  }

  /** Every registered event's first word is a notification. */
  predicate NotesCover(d: seq<(string, Callback)>, ns: seq<string>) {
    forall k :: k in Keys(d) ==> FirstWord(k) in ns
  }

  lemma PutCover(d: seq<(string, Callback)>, k: string, v: Callback, ns: seq<string>)
    requires UniqueKeys(d) && NotesCover(d, ns) && FirstWord(k) in ns
    ensures NotesCover(Put(d, k, v), ns)
  {
    PutKeys(d, k, v);
  }

  /** The index of the first registered event that occurs in `event` (`cb in event`), or -1. */
  function FirstMatch(keys: seq<string>, event: string): (i: int)
    ensures -1 <= i < |keys|
    ensures i >= 0 ==> Contains(event, keys[i]) && forall j :: 0 <= j < i ==> !Contains(event, keys[j])
    ensures i == -1 <==> forall j :: 0 <= j < |keys| ==> !Contains(event, keys[j])
  {
    if keys == [] then -1
    else if Contains(event, keys[0]) then 0
    else
      var k := FirstMatch(keys[1..], event);
      assert forall j :: 1 <= j < |keys| ==> keys[j] == keys[1..][j - 1];
      if k < 0 then -1 else k + 1
  }

  /** A registered event, when received, always triggers a callback: its own or an earlier one's. */
  lemma RegisteredEventDispatches(keys: seq<string>, k: nat)
    requires k < |keys|
    ensures 0 <= FirstMatch(keys, keys[k]) <= k
  {
    ContainsSelf(keys[k]);
  }

  /** The arguments a callback gets: `cb_class` first when it is set. */
  function CallbackArgs(cbClass: Json, decoded: string): (args: seq<Json>)
    ensures Truthy(cbClass) ==> args == [cbClass, JStr(decoded)]
    ensures !Truthy(cbClass) ==> args == [JStr(decoded)]
  {
    if Truthy(cbClass) then [cbClass, JStr(decoded)] else [JStr(decoded)]
  }

  // ---------------------------------------------------------------------
  // The telnet echo

  /** The commands whose echo is the whole command followed by a space. */
  const EchoedInFull := ["songinfo", "trackstat", "albums", "songs", "artists", "rescan", "rescanprogress"]

  /** `urllib.parse.quote(':')` */
  const QuotedColon := "%3A"

  /**
   * `command_string_quoted`: the text before the first ':' (as found by
   * `find`, -1 when absent) and the rest with every ':' quoted.
   */
  function QuotedCommand(cs: string): (r: string)
    // the slicing by `find` is only a detour: every ':' of the command is quoted
    ensures r == ReplaceAll(cs, [':'], QuotedColon)
    ensures ':' !in r
    ensures |r| == |cs| + 2 * CountChar(cs, ':')
  {
    var k := Find(cs, ':');
    var b := SliceBound(k, |cs|);
    BeforeFirstColon(cs);
    ReplaceCharSplit(cs[..b], cs[b..], ':', QuotedColon);
    SplitAt(cs, b);
    QuotedColonCount(cs);
    SliceTo(cs, k) + ReplaceAll(SliceFrom(cs, k), [':'], QuotedColon)
  }

  lemma QuotedColonCount(cs: string)
    ensures ':' !in ReplaceAll(cs, [':'], QuotedColon)
    ensures |ReplaceAll(cs, [':'], QuotedColon)| == |cs| + 2 * CountChar(cs, ':')
  {
    var n := CountChar(cs, ':');
    assert |QuotedColon| - 1 == 2;
    assert n * (|QuotedColon| - 1) == 2 * n;
    ReplaceCharCount(cs, ':', QuotedColon);
  }

  /** The text before the slicing point holds no ':', whether `find` found one or not. */
  lemma BeforeFirstColon(cs: string)
    ensures ':' !in cs[..SliceBound(Find(cs, ':'), |cs|)]
  {
    if ':' !in cs {
      NotInPrefix(cs, SliceBound(Find(cs, ':'), |cs|), ':');
    }
  }

  /** The command as the server echoes it. */
  function EchoedCommand(cs: string, preserveEncoding: bool): (r: string)
    ensures !preserveEncoding ==> r == cs
    ensures preserveEncoding ==> ':' !in r && |r| == |cs| + 2 * CountChar(cs, ':')
  {
    if preserveEncoding then QuotedCommand(cs) else cs
  }

  /**
   * The echo trimming of `__request`: for the listed commands the answer
   * follows the full command and a space; for the others it replaces the
   * command's last character (the `?` of a query).
   */
  function StripEcho(cs: string, response: string, preserveEncoding: bool): (r: string)
    ensures |r| <= |response| && r == response[|response| - |r|..]
  {
    var c := EchoedCommand(cs, preserveEncoding);
    if FirstWord(cs) in EchoedInFull then SliceFrom(response, |c| + 1)
    else SliceFrom(response, |c| - 1)
  }

  /** A listed command's echo, the command and a space, is removed exactly. */
  lemma StripFullEcho(cs: string, answer: string, preserveEncoding: bool)
    requires FirstWord(cs) in EchoedInFull
    ensures StripEcho(cs, EchoedCommand(cs, preserveEncoding) + " " + answer, preserveEncoding) == answer
  {
    var c := EchoedCommand(cs, preserveEncoding);
    assert (c + " " + answer)[|c| + 1..] == answer;
  }

  /** A query's echo, the command without its trailing `?`, is removed exactly. */
  lemma StripQueryEcho(cs: string, answer: string, preserveEncoding: bool)
    requires FirstWord(cs) !in EchoedInFull
    requires |EchoedCommand(cs, preserveEncoding)| >= 1
    ensures var c := EchoedCommand(cs, preserveEncoding);
            StripEcho(cs, c[..|c| - 1] + answer, preserveEncoding) == answer
  {
    var c := EchoedCommand(cs, preserveEncoding);
    assert (c[..|c| - 1] + answer)[|c| - 1..] == answer;
  }

  /** The command `run` sends first: subscribe to the known notifications, or listen to all. */
  function ListenCommand(notifications: seq<string>): (c: string)
    ensures c == "listen" <==> notifications == []
  {
    if notifications != [] then "subscribe " + Join(",", notifications) else "listen"
  }

  /** The subscription names every notification, in order, when none holds a comma. */
  lemma ListenCommandRoundTrip(notifications: seq<string>)
    requires notifications != []
    requires forall i :: 0 <= i < |notifications| ==> ',' !in notifications[i]
    ensures StartsWith(ListenCommand(notifications), "subscribe ")
    ensures Split(ListenCommand(notifications)[10..], ',') == notifications
  {
    var c := ListenCommand(notifications);
    assert c[..10] == "subscribe ";
    assert c[10..] == Join(",", notifications);
    SplitJoin(notifications, ',');
  }

  // ---------------------------------------------------------------------

  class LMSCallbackServer {
    /** `self.callbacks`: event to callback, in registration order. */
    var callbacks: seq<(string, Callback)>
    /** `self.notifications`: the first words of the registered events. */
    var notifications: seq<string>
    var abort: bool
    var connected: bool
    /** None until a server is named. */
    var hostname: Option<string>
    var port: int
    var username: string
    var password: string
    var isConnected: bool
    /** `cb_class`; JNull is None. */
    var cbClass: Json
    /** Every callback call made, oldest first. */
    var invoked: seq<Invocation>

    /** Keys are distinct, notifications are distinct, and every key's first word is a notification. */
    predicate Valid()
      reads this
    {
      && UniqueKeys(callbacks)
      && NoDuplicates(notifications)
      && NotesCover(callbacks, notifications)
    }

    constructor (hostname: Option<string> := None, port: int := DefaultPort, username: string := "", password: string := "")
      ensures Valid()
      ensures callbacks == [] && notifications == [] && invoked == []
      ensures !abort && !connected && !isConnected && cbClass == JNull
      ensures this.hostname == hostname && this.port == port
      ensures this.username == username && this.password == password
    {
      callbacks := [];
      notifications := [];
      abort := false;
      connected := false;
      this.hostname := hostname;
      this.port := port;
      this.username := username;
      this.password := password;
      isConnected := false;
      cbClass := JNull;
      invoked := [];
    }

    /** `__add_callback(event, callback)` */
    method AddOne(event: string, callback: Callback)
      requires Valid()
      modifies this`callbacks, this`notifications
      ensures Valid()
      ensures callbacks == Put(old(callbacks), event, callback)
      ensures notifications == AddNote(old(notifications), FirstWord(event))
      ensures Get(callbacks, event) == Some(callback)
      ensures Keys(callbacks) == if event in Keys(old(callbacks)) then Keys(old(callbacks)) else Keys(old(callbacks)) + [event]
    {
      PutKeys(callbacks, event, callback);
      PutGetSame(callbacks, event, callback);
      notifications := AddNote(notifications, FirstWord(event));
      PutCover(callbacks, event, callback, notifications);
      callbacks := Put(callbacks, event, callback);
    }

    /** `add_callback`: a list registers each event in order, anything else one event. */
    method AddCallback(arg: EventArg, callback: Callback)
      requires Valid()
      modifies this`callbacks, this`notifications
      ensures Valid()
      ensures arg.Single? ==> callbacks == Put(old(callbacks), arg.event, callback)
                              && notifications == AddNote(old(notifications), FirstWord(arg.event))
      ensures arg.EventList? ==> callbacks == PutAll(old(callbacks), arg.events, callback)
                                 && notifications == NoteAll(old(notifications), arg.events)
    {
      match arg
      case Single(e) =>
        AddOne(e, callback);
      case EventList(es) =>
        AddEach(es, callback);
    }

    /** The loop of `add_callback` over a list of events. */
    method AddEach(es: seq<string>, callback: Callback)
      requires Valid()
      modifies this`callbacks, this`notifications
      ensures Valid()
      ensures callbacks == PutAll(old(callbacks), es, callback)
      ensures notifications == NoteAll(old(notifications), es)
    {
      for i := 0 to |es|
        invariant Valid()
        invariant callbacks == PutAll(old(callbacks), es[..i], callback)
        invariant notifications == NoteAll(old(notifications), es[..i])
      {
        PutAllStep(old(callbacks), es, i, callback);
        NoteAllStep(old(notifications), es, i);
        AddOne(es[i], callback);
      }
      assert es[..|es|] == es;
    }

    /**
     * `remove_callback`: deletes each event in order; the first one that is
     * not registered raises KeyError and ends the loop. The notifications
     * are never touched.
     */
    method RemoveCallback(arg: EventArg) returns (r: Result<()>)
      requires Valid()
      modifies this`callbacks
      ensures Valid()
      ensures notifications == old(notifications)
      ensures var events := if arg.Single? then [arg.event] else arg.events;
              var outcome := RemoveAll(old(callbacks), events);
              callbacks == outcome.remaining
              && (outcome.missing.Some? ==> r == Err(KeyError(outcome.missing.value)))
              && (outcome.missing.None? ==> r == Ok(()))
    {
      var events := if arg.Single? then [arg.event] else arg.events;
      var rest, missing := RemoveEach(callbacks, events);
      RemoveAllShrinks(callbacks, events);
      callbacks := rest;
      r := if missing.Some? then Err(KeyError(missing.value)) else Ok(());
    }

    /**
     * `__check_event`: calls the callback of the first registered event that
     * occurs in `event`, with `cb_class` first when set, and nothing else.
     * `decoded` stands for `self.unquote(event)`.
     */
    method CheckEvent(event: string, decoded: string)
      modifies this`invoked
      ensures var k := FirstMatch(Keys(callbacks), event);
              invoked == old(invoked) + (if k < 0 then [] else [Invocation(callbacks[k].1, CallbackArgs(cbClass, decoded))])
    {
      var i := 0;
      while i < |callbacks|
        invariant 0 <= i <= |callbacks|
        invariant forall j :: 0 <= j < i ==> !Contains(event, callbacks[j].0)
        invariant invoked == old(invoked)
      {
        if Contains(event, callbacks[i].0) {
          var callback := callbacks[i].1;
          if Truthy(cbClass) {
            invoked := invoked + [Invocation(callback, [cbClass, JStr(decoded)])];
          } else {
            invoked := invoked + [Invocation(callback, [JStr(decoded)])];
          }
          FirstMatchAt(Keys(callbacks), event, i);
          return;
        }
        i := i + 1;
      }
      FirstMatchNone(Keys(callbacks), event);
    }

    /** `set_server`: refused once logged in; `cb_class` changes only for a truthy parent. */
    method SetServer(hostname: string, port: int := DefaultPort, username: string := "", password: string := "", parent: Json := JNull)
      returns (r: Result<()>)
      modifies this`hostname, this`port, this`username, this`password, this`cbClass
      ensures old(isConnected) ==>
                r == Err(CallbackServerError("Server already logged in."))
                && this.hostname == old(this.hostname) && this.port == old(this.port)
                && this.username == old(this.username) && this.password == old(this.password)
                && cbClass == old(cbClass)
      ensures !old(isConnected) ==>
                r == Ok(())
                && this.hostname == Some(hostname) && this.port == port
                && this.username == username && this.password == password
                && cbClass == (if Truthy(parent) then parent else old(cbClass))
    {
      if isConnected {
        return Err(CallbackServerError("Server already logged in."));
      }
      this.hostname := Some(hostname);
      this.port := port;
      this.username := username;
      this.password := password;
      if Truthy(parent) {
        cbClass := parent;
      }
      r := Ok(());
    }

    /**
     * `__connect` with the telnet connection and the login as given outcomes:
     * no server named (None or "") is refused before anything else, and
     * `is_connected` is set only when both succeed.
     */
    method Connect(telnet: Result<()>, login: Result<()>) returns (r: Result<()>)
      modifies this`isConnected
      ensures hostname.None? || hostname == Some("") ==>
                r == Err(CallbackServerError("No server details provided.")) && isConnected == old(isConnected)
      ensures hostname.Some? && hostname != Some("") ==>
                r == (if telnet.Err? then telnet else login)
                && isConnected == (old(isConnected) || (telnet.Ok? && login.Ok?))
    {
      if hostname.None? || hostname.value == "" {
        return Err(CallbackServerError("No server details provided."));
      }
      if telnet.Err? {
        return telnet;
      }
      if login.Err? {
        return login;
      }
      isConnected := true;
      r := login;
    }

    /** `__connect` as written: `__login` calls `self.request`, which the class does not have. */
    method ConnectAsWritten(telnet: Result<()>) returns (r: Result<()>)
      modifies this`isConnected
      ensures r.Err?
      ensures isConnected == old(isConnected)
    {
      r := Connect(telnet, Err(AttributeError));
    }

    /** `stop`: only raises the abort flag. */
    method Stop()
      modifies this`abort
      ensures abort
    {
      abort := true;
    }
  }

  lemma FirstMatchAt(keys: seq<string>, event: string, i: nat)
    requires i < |keys| && Contains(event, keys[i])
    requires forall j :: 0 <= j < i ==> !Contains(event, keys[j])
    ensures FirstMatch(keys, event) == i
  {
  }

  lemma FirstMatchNone(keys: seq<string>, event: string)
    requires forall j :: 0 <= j < |keys| ==> !Contains(event, keys[j])
    ensures FirstMatch(keys, event) == -1
  {
  }

  /** Once a failed deletion has stopped the loop, the outcome is final. */
  lemma RemoveAllStops(d: seq<(string, Callback)>, events: seq<string>, n: nat)
    requires 1 <= n <= |events|
    requires RemoveAll(d, events[..n - 1]).missing.None?
    requires Delete(RemoveAll(d, events[..n - 1]).remaining, events[n - 1]).None?
    ensures RemoveAll(d, events).missing == Some(events[n - 1])
    ensures RemoveAll(d, events).remaining == RemoveAll(d, events[..n - 1]).remaining
  {
    assert events[..n][..n - 1] == events[..n - 1];
    RemoveAllFinal(d, events, n);
  }

  lemma {:induction false} RemoveAllFinal(d: seq<(string, Callback)>, events: seq<string>, n: nat)
    requires 1 <= n <= |events|
    requires RemoveAll(d, events[..n]).missing.Some?
    ensures RemoveAll(d, events) == RemoveAll(d, events[..n])
    decreases |events| - n
  {
    if n < |events| {
      var longer := events[..|events| - 1];
      assert longer[..n] == events[..n];
      RemoveAllFinal(d, longer, n);
    } else {
      assert events[..n] == events;
    }
  }
}
